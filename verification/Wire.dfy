/** The payload carried in every UDP packet (udp/payload.go): an 8-byte sender ID and a
    big-endian 64-bit sequence number, padded with zeros up to the wanted size. */
module Wire {
  import opened Words
  import opened Wrappers

  const PAYLOAD_SIZE := 16

  type Byte = x: int | 0 <= x < 256

  type ID = s: seq<Byte> | |s| == 8 witness [0, 0, 0, 0, 0, 0, 0, 0]

  datatype Payload = Payload(id: ID, seqNo: Uint64)

  /** The `n` low-order bytes of `v`, most significant first. */
  function ToBigEndian(v: nat, n: nat): (b: seq<Byte>)
    ensures |b| == n
  {
    if n == 0 then [] else ToBigEndian(v / 256, n - 1) + [v % 256]
  }

  function FromBigEndian(b: seq<Byte>): nat {
    if b == [] then 0 else FromBigEndian(b[..|b| - 1]) * 256 + b[|b| - 1]
  }

  function Pow256(n: nat): (p: nat)
    ensures p > 0
  {
    if n == 0 then 1 else 256 * Pow256(n - 1)
  }

  lemma Pow256Of8()
    ensures Pow256(8) == TWO64
  {
    assert Pow256(4) == 0x1_0000_0000;
  }

  lemma {:induction false} FromTo(v: nat, n: nat)
    requires v < Pow256(n)
    ensures FromBigEndian(ToBigEndian(v, n)) == v
  {
    if n > 0 {
      FromTo(v / 256, n - 1);
      var b := ToBigEndian(v, n);
      assert b[..|b| - 1] == ToBigEndian(v / 256, n - 1);
    }
  }

  lemma {:induction false} ToFrom(b: seq<Byte>)
    ensures FromBigEndian(b) < Pow256(|b|)
    ensures ToBigEndian(FromBigEndian(b), |b|) == b
  {
    if b != [] {
      ToFrom(b[..|b| - 1]);
      assert FromBigEndian(b) / 256 == FromBigEndian(b[..|b| - 1]);
      assert b == b[..|b| - 1] + [b[|b| - 1]];
    }
  }

  function Zeros(n: nat): (z: seq<Byte>)
    ensures |z| == n
  {
    seq(n, _ => 0)
  }

  function BufferSize(dataSize: nat): nat {
    Max(dataSize, PAYLOAD_SIZE)
  }

  /** The bytes on the wire. */
  function Encode(p: Payload, dataSize: nat): (b: seq<Byte>)
    ensures |b| == BufferSize(dataSize)
  {
    p.id + ToBigEndian(p.seqNo, 8) + Zeros(BufferSize(dataSize) - PAYLOAD_SIZE)
  }

  function Decode(b: seq<Byte>): Option<Payload> {
    if |b| < PAYLOAD_SIZE then None
    else
      Pow256Of8(); ToFrom(b[8..16]);
      Some(Payload(b[0..8], FromBigEndian(b[8..16])))
  }

  /** Byte `k` of `n` carries the bits above its place. */
  lemma {:induction false} BigEndianByte(v: nat, n: nat, k: nat)
    requires k < n
    ensures ToBigEndian(v, n)[k] == v / Pow256(n - 1 - k) % 256
  {
    if k < n - 1 {
      BigEndianByte(v / 256, n - 1, k);
      QuotientTwice(v, Pow256(n - 2 - k));
    }
  }

  lemma QuotientTwice(v: nat, p: nat)
    requires p > 0
    ensures v / 256 / p == v / (256 * p)
  {
    var q := v / (256 * p);
    assert 256 * p * q <= v < 256 * p * (q + 1);
    assert p * q <= v / 256;
    assert v / 256 < p * (q + 1);
    Squeezed(v / 256, p, q);
  }

  lemma Squeezed(a: nat, p: nat, q: nat)
    requires p > 0 && p * q <= a < p * (q + 1)
    ensures a / p == q
  {
    var d := a / p;
    Times(p, d, q);
    Times(p, q, d);
  }

  lemma Times(p: nat, d: int, q: int)
    requires p > 0
    ensures d < q ==> p * (d + 1) <= p * q
  {
    if d < q {
      assert p * (q - (d + 1)) >= 0;
    }
  }

  /** The wire form byte by byte: the ID, the number from its highest byte down, zeros. */
  lemma WireBytes(p: Payload, dataSize: nat)
    ensures var b := Encode(p, dataSize);
      && |b| == (if dataSize < 16 then 16 else dataSize)
      && (forall k :: 0 <= k < 8 ==> b[k] == p.id[k])
      && (forall k :: 0 <= k < 8 ==> b[8..16][k] == p.seqNo / Pow256(7 - k) % 256)
      && (forall k :: 16 <= k < |b| ==> b[k] == 0)
  {
    var b := Encode(p, dataSize);
    assert b[8..16] == ToBigEndian(p.seqNo, 8);
    forall k | 0 <= k < 8
      ensures b[8..16][k] == p.seqNo / Pow256(7 - k) % 256
    {
      BigEndianByte(p.seqNo, 8, k);
    }
  }

  /** A datagram cut short by the receive buffer still decodes to what was sent, exactly as long
      as the 16 header bytes arrived; with `k` the full length this is the round trip. */
  lemma TruncatedRoundTrip(p: Payload, dataSize: nat, k: nat)
    requires k <= BufferSize(dataSize)
    ensures Decode(Encode(p, dataSize)[..k]) == if k >= PAYLOAD_SIZE then Some(p) else None
  {
    var b := Encode(p, dataSize)[..k];
    if k >= PAYLOAD_SIZE {
      assert b[0..8] == p.id;
      assert b[8..16] == ToBigEndian(p.seqNo, 8);
      Pow256Of8();
      FromTo(p.seqNo, 8);
    }
  }

  lemma RoundTrip(p: Payload, dataSize: nat)
    ensures Decode(Encode(p, dataSize)) == Some(p)
  {
    TruncatedRoundTrip(p, dataSize, BufferSize(dataSize));
    assert Encode(p, dataSize)[..BufferSize(dataSize)] == Encode(p, dataSize);
  }

  /** Nothing but an encoding of `p` starts with bytes that decode to `p`. */
  lemma DecodeIsEncode(b: seq<Byte>, p: Payload)
    ensures Decode(b) == Some(p) <==> |b| >= PAYLOAD_SIZE && b[..16] == Encode(p, 0)
  {
    RoundTrip(p, 0);
    if |b| >= PAYLOAD_SIZE {
      ToFrom(b[8..16]);
      assert b[..16] == b[0..8] + b[8..16];
      assert Zeros(0) == [];
      assert b[..16][0..8] == b[0..8] && b[..16][8..16] == b[8..16];
    }
  }

  /** `Payload.Pack`: fills a fresh buffer in place, the sequence number from its last byte. */
  method Pack(p: Payload, dataSize: nat) returns (buf: array<Byte>)
    ensures fresh(buf) && buf[..] == Encode(p, dataSize)
  {
    var size := if dataSize < PAYLOAD_SIZE then PAYLOAD_SIZE else dataSize;
    buf := new Byte[size](_ => 0);
    for i := 0 to 8
      invariant forall k :: 0 <= k < i ==> buf[k] == p.id[k]
      invariant forall k :: i <= k < size ==> buf[k] == 0
    {
      buf[i] := p.id[i];
    }
    var v: nat := p.seqNo;
    var i := 8;
    while i > 0
      invariant 0 <= i <= 8
      invariant ToBigEndian(v, i) + buf[8 + i..16] == ToBigEndian(p.seqNo, 8)
      invariant forall k :: 0 <= k < 8 ==> buf[k] == p.id[k]
      invariant forall k :: 16 <= k < size ==> buf[k] == 0
    {
      i := i - 1;
      assert ToBigEndian(v, i + 1) == ToBigEndian(v / 256, i) + [v % 256];
      ghost var rest := buf[8 + i + 1..16];
      buf[8 + i] := v % 256;
      v := v / 256;
      assert buf[8 + i..16] == [buf[8 + i]] + rest;
    }
    assert buf[..] == buf[0..8] + buf[8..16] + buf[16..];
    assert buf[0..8] == p.id;
    assert buf[16..] == Zeros(BufferSize(dataSize) - PAYLOAD_SIZE);
  }

  /** The payload field of a received packet, overwritten by `Unpack`. */
  class PayloadVar {
    var id: ID
    var seqNo: Uint64

    constructor ()
      ensures id == Zeros(8) && seqNo == 0
    {
      id := Zeros(8);
      seqNo := 0;
    }

    /** `Payload.Unpack` of the first `n` bytes of a receive buffer; a short one is an error and
        leaves the payload alone. */
    method Unpack(buf: array<Byte>, n: nat) returns (ok: bool)
      requires n <= buf.Length
      modifies this
      ensures ok == Decode(buf[..n]).Some?
      ensures ok ==> Payload(id, seqNo) == Decode(buf[..n]).value
      ensures !ok ==> unchanged(this)
    {
      if n < PAYLOAD_SIZE {
        return false;
      }
      assert buf[..n][0..8] == buf[0..8] && buf[..n][8..16] == buf[8..16];
      var v: nat := 0;
      for i := 0 to 8
        invariant v == FromBigEndian(buf[8..8 + i])
      {
        assert buf[8..8 + i + 1] == buf[8..8 + i] + [buf[8 + i]];
        v := v * 256 + buf[8 + i];
      }
      Pow256Of8();
      ToFrom(buf[8..16]);
      id := buf[0..8];
      seqNo := v;
      return true;
    }
  }
}
