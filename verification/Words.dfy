/** Machine integers of the Go program: `uint` and `uint64` wrap at 2^64, `time.Duration` is a
    signed 64-bit count of nanoseconds. */
module Words {
  const TWO63 := 0x8000_0000_0000_0000
  const TWO64 := 0x1_0000_0000_0000_0000

  type Uint64 = x: int | 0 <= x < TWO64

  function Add64(a: Uint64, b: Uint64): Uint64 {
    (a + b) % TWO64
  }

  function Sub64(a: Uint64, b: Uint64): Uint64 {
    (a - b) % TWO64
  }

  /** The int64 that a 64-bit register holds after computing `x`. */
  function Int64(x: int): int {
    var m := x % TWO64;
    if m < TWO63 then m else m - TWO64
  }

  /** Go's integer division, which truncates toward zero. */
  function QuoTrunc(a: int, b: int): int
    requires b != 0
  {
    if a >= 0 then a / b else -((-a) / b)
  }

  function Max(a: int, b: int): int {
    if a < b then b else a
  }

  /** A wrapping counter holds the sum modulo 2^64. */
  lemma AddWraps(a: nat, b: nat)
    ensures b < TWO64 ==> Add64(a % TWO64, b) == (a + b) % TWO64
  {
    if b < TWO64 {
      var q := a / TWO64;
      assert a == q * TWO64 + a % TWO64;
      SameRemainder(a % TWO64 + b, a + b, q);
    }
  }

  lemma SameRemainder(x: nat, y: nat, q: int)
    requires y == x + q * TWO64
    ensures x % TWO64 == y % TWO64
  {
    assert y == (x / TWO64 + q) * TWO64 + x % TWO64;
  }
}
