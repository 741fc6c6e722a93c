/** The UDP receiver (udp/recv.go): per-sender sequence tracking, reported in windows. */
module Receiver {
  import opened Words
  import opened Wire
  import opened Wrappers

  datatype Packet = Packet(payload: Payload, payloadSize: Uint64)

  datatype RecvStats = RecvStats(
    id: ID,
    time: int,                // when the window started
    duration: int,            // how long it was collected
    packetTime: Option<int>,  // of the most recent packet
    packetStart: Uint64,   // stats are for packets after this sequence number
    packetSeq: Uint64,     // most recent in-sequence packet, 0 when there was none
    packetSize: Uint64,
    packetCount: Uint64,   // in-sequence packets
    packetSkips: Uint64,   // sequence numbers jumped over
    packetDups: Uint64)    // packets at or below the running maximum
  {
    predicate Valid() {
      packetSeq > 0
    }

    function Span(): Uint64 {
      Sub64(packetSeq, packetStart)
    }

    function PacketWin(): real
      requires Span() != 0
    {
      packetCount as real / Span() as real
    }

    function PacketLoss(): real
      requires Span() != 0
    {
      packetSkips as real / Span() as real
    }
  }

  function FreshStats(id: ID, start: Uint64, now: int): RecvStats {
    RecvStats(id, now, 0, None, start, 0, 0, 0, 0, 0)
  }

  datatype State = State(id: ID, seqNo: Uint64, stats: RecvStats)

  function MakeState(p: Payload, now: int): State {
    State(p.id, p.seqNo, FreshStats(p.id, p.seqNo, now))
  }

  function Handle(s: State, n: Uint64, size: Uint64, now: int): State {
    if n > s.seqNo then
      var stats := s.stats.(
        packetTime := Some(now),
        packetSeq := n,
        packetSkips := Add64(s.stats.packetSkips, Sub64(Sub64(n, s.seqNo), 1)),
        packetCount := Add64(s.stats.packetCount, 1),
        packetSize := Add64(s.stats.packetSize, size));
      s.(seqNo := n, stats := stats)
    else
      s.(stats := s.stats.(packetTime := Some(now), packetDups := Add64(s.stats.packetDups, 1)))
  }

  predicate Alive(s: State) {
    s.stats.packetSeq > s.stats.packetStart
  }

  /** The window as it is handed out at `now`. */
  function Taken(s: State, now: int): RecvStats {
    s.stats.(duration := now - s.stats.time)
  }

  function Reset(s: State, now: int): State {
    s.(stats := FreshStats(s.id, s.seqNo, now))
  }

  /** The receiver's record of one sender, updated in place. */
  class RecvState {
    const id: ID
    var seqNo: Uint64
    var stats: RecvStats

    ghost function Abs(): State
      reads this
    {
      State(id, seqNo, stats)
    }

    /** `Recv.makeState`: the first packet only sets the starting point. */
    constructor (packet: Packet, now: int)
      ensures Abs() == MakeState(packet.payload, now)
    {
      id := packet.payload.id;
      seqNo := packet.payload.seqNo;
      stats := FreshStats(packet.payload.id, packet.payload.seqNo, now);
    }

    method HandlePacket(packet: Packet, now: int)
      modifies this
      ensures Abs() == Handle(old(Abs()), packet.payload.seqNo, packet.payloadSize, now)
    {
      stats := stats.(packetTime := Some(now));
      var n := packet.payload.seqNo;
      if n > seqNo {
        stats := stats.(packetSeq := n);
        stats := stats.(packetSkips := Add64(stats.packetSkips, Sub64(Sub64(n, seqNo), 1)));
        stats := stats.(packetCount := Add64(stats.packetCount, 1));
        stats := stats.(packetSize := Add64(stats.packetSize, packet.payloadSize));
        seqNo := n;
      } else {
        stats := stats.(packetDups := Add64(stats.packetDups, 1));
      }
    }

    /** Reads the clock twice: the window ends at `now`, and the next one starts at `next`. */
    method TakeStats(now: int, next: int) returns (taken: RecvStats)
      modifies this
      ensures taken == Taken(old(Abs()), now) && Abs() == Reset(old(Abs()), next)
    {
      taken := stats;
      taken := taken.(duration := now - taken.time);
      stats := FreshStats(id, seqNo, next);
    }
  }

  // ---------------------------------------------------------------------------------------------
  // One lifetime of a sender's state: from the packet that creates it, whose size is not counted, until it
  // is deleted.

  datatype Step = Arrive(seqNo: Uint64, size: Uint64, now: int) | Take(now: int, next: int)

  datatype Life = Life(id: ID, first: Uint64, size: Uint64, created: int, steps: seq<Step>) {
    function Before(): Life
      requires steps != []
    {
      this.(steps := steps[..|steps| - 1])
    }

    function Last(): Step
      requires steps != []
    {
      steps[|steps| - 1]
    }
  }

  function StateOf(l: Life): State
    decreases |l.steps|
  {
    if l.steps == [] then MakeState(Payload(l.id, l.first), l.created)
    else
      var s := StateOf(l.Before());
      match l.Last()
      case Arrive(n, size, now) => Handle(s, n, size, now)
      case Take(_, next) => Reset(s, next)
  }

  /** The windows reported so far. */
  function Reports(l: Life): seq<RecvStats>
    decreases |l.steps|
  {
    if l.steps == [] then []
    else if l.Last().Take? then Reports(l.Before()) + [Taken(StateOf(l.Before()), l.Last().now)]
    else Reports(l.Before())
  }

  /** The windows reported so far, and the one being collected. */
  function Windows(l: Life): (w: seq<RecvStats>)
    ensures |w| > 0
  {
    Reports(l) + [StateOf(l).stats]
  }

  /** Every sequence number that arrived, in order of arrival. */
  function Arrivals(l: Life): (a: seq<Uint64>)
    ensures |a| > 0 && a[0] == l.first
    decreases |l.steps|
  {
    if l.steps == [] then [l.first]
    else if l.Last().Arrive? then Arrivals(l.Before()) + [l.Last().seqNo]
    else Arrivals(l.Before())
  }

  /** Statistics are only ever taken from a live state. */
  predicate WellTimed(l: Life)
    decreases |l.steps|
  {
    l.steps != [] ==> WellTimed(l.Before()) && (l.Last().Take? ==> Alive(StateOf(l.Before())))
  }

  function SumCounts(w: seq<RecvStats>): nat {
    if w == [] then 0 else SumCounts(w[..|w| - 1]) + w[|w| - 1].packetCount
  }

  function SumSkips(w: seq<RecvStats>): nat {
    if w == [] then 0 else SumSkips(w[..|w| - 1]) + w[|w| - 1].packetSkips
  }

  function SumDups(w: seq<RecvStats>): nat {
    if w == [] then 0 else SumDups(w[..|w| - 1]) + w[|w| - 1].packetDups
  }

  lemma SumsAppend(w: seq<RecvStats>, r: RecvStats)
    ensures SumCounts(w + [r]) == SumCounts(w) + r.packetCount
    ensures SumSkips(w + [r]) == SumSkips(w) + r.packetSkips
    ensures SumDups(w + [r]) == SumDups(w) + r.packetDups
  {
    assert (w + [r])[..|w|] == w;
  }

  // What the counters are about, said of the arrivals alone.

  /** Arrival `i` is larger than everything that arrived before it. */
  predicate Leads(a: seq<Uint64>, i: nat)
    requires i < |a|
  {
    forall j :: 0 <= j < i ==> a[j] < a[i]
  }

  /** The strict running maxima after the first packet, by position. */
  function Records(a: seq<Uint64>): set<nat> {
    set i: nat | 0 < i < |a| && Leads(a, i)
  }

  predicate IsMaximum(a: seq<Uint64>, m: Uint64) {
    m in a && forall i :: 0 <= i < |a| ==> a[i] <= m
  }

  /** No arrival of `n` was a new maximum. */
  predicate MissedIn(a: seq<Uint64>, n: Uint64) {
    forall i :: 0 <= i < |a| && a[i] == n ==> !Leads(a, i)
  }

  function Missed(a: seq<Uint64>, upTo: Uint64): set<Uint64>
    requires a != []
  {
    set n: Uint64 | a[0] < n <= upTo && MissedIn(a, n)
  }

  /** The numbers strictly between `lo` and `hi`. */
  function Between(lo: int, hi: int): (s: set<int>)
    requires lo <= hi
    ensures forall n :: n in s <==> lo < n < hi
    ensures |s| == if lo < hi then hi - lo - 1 else 0
    decreases hi - lo
  {
    if lo + 1 < hi then Between(lo, hi - 1) + {hi - 1} else {}
  }

  lemma LeadsOfPrefix(a: seq<Uint64>, x: Uint64, i: nat)
    requires i < |a|
    ensures Leads(a + [x], i) == Leads(a, i)
  {
    var b := a + [x];
    assert forall j | 0 <= j <= i :: b[j] == a[j];
  }

  lemma LeadsAtEnd(a: seq<Uint64>, m: Uint64, x: Uint64)
    requires IsMaximum(a, m)
    ensures Leads(a + [x], |a|) == (x > m)
  {
    var b := a + [x];
    assert b[|a|] == x && forall j | 0 <= j < |a| :: b[j] == a[j];
    var i :| 0 <= i < |a| && a[i] == m;
    assert b[i] == m;
  }

  lemma RecordsStep(a: seq<Uint64>, m: Uint64, x: Uint64)
    requires a != [] && IsMaximum(a, m)
    ensures |Records(a + [x])| == |Records(a)| + if x > m then 1 else 0
  {
    forall i: nat | i < |a|
      ensures Leads(a + [x], i) == Leads(a, i)
    {
      LeadsOfPrefix(a, x, i);
    }
    LeadsAtEnd(a, m, x);
    assert Records(a + [x]) == Records(a) + if x > m then {|a|} else {};
  }

  /** What missing means: `n` never arrived at all, or every time only after a larger number. */
  lemma MissedMeans(a: seq<Uint64>, n: Uint64)
    ensures MissedIn(a, n) <==> forall i :: 0 <= i < |a| && a[i] == n ==> exists j :: 0 <= j < i && a[j] > n
  {
    if MissedIn(a, n) {
      forall i | 0 <= i < |a| && a[i] == n
        ensures exists j :: 0 <= j < i && a[j] > n
      {
        LargerBefore(a, n, i);
      }
    }
  }

  lemma {:induction false} LargerBefore(a: seq<Uint64>, n: Uint64, i: nat)
    requires MissedIn(a, n) && i < |a| && a[i] == n
    ensures exists j :: 0 <= j < i && a[j] > n
  {
    assert !Leads(a, i);
    var j :| 0 <= j < i && a[j] >= a[i];
    if a[j] == n {
      LargerBefore(a, n, j);
    }
  }

  lemma MissedOfPrefix(a: seq<Uint64>, m: Uint64, x: Uint64, n: Uint64)
    requires IsMaximum(a, m) && n <= m
    ensures MissedIn(a + [x], n) == MissedIn(a, n)
  {
    var b := a + [x];
    LeadsAtEnd(a, m, x);
    forall i: nat | i < |a|
      ensures b[i] == a[i] && Leads(b, i) == Leads(a, i)
    {
      LeadsOfPrefix(a, x, i);
    }
  }

  lemma MissedAbove(a: seq<Uint64>, m: Uint64, x: Uint64, n: Uint64)
    requires IsMaximum(a, m) && m < n <= x
    ensures MissedIn(a + [x], n) == (n < x)
  {
    LeadsAtEnd(a, m, x);
    assert (a + [x])[|a|] == x;
  }

  lemma MissedStep(a: seq<Uint64>, m: Uint64, x: Uint64)
    requires a != [] && IsMaximum(a, m)
    ensures x <= m ==> Missed(a + [x], m) == Missed(a, m)
    ensures x > m ==> |Missed(a + [x], x)| == |Missed(a, m)| + x - m - 1
  {
    forall n: Uint64 | n <= m {
      MissedOfPrefix(a, m, x, n);
    }
    if x > m {
      var gap: set<Uint64> := Between(m, x);
      forall n: Uint64 | m < n <= x {
        MissedAbove(a, m, x, n);
      }
      assert Missed(a + [x], x) == Missed(a, m) + gap;
      assert Missed(a, m) !! gap;
    }
  }

  /** What every step keeps of the window being collected. */
  ghost predicate WindowBalanced(s: State) {
    && s.id == s.stats.id
    && s.stats.packetStart + s.stats.packetCount + s.stats.packetSkips == s.seqNo
    && (s.stats.packetCount == 0 ==> s.stats.packetSkips == 0 && s.stats.packetSeq == 0)
    && (s.stats.packetCount > 0 ==> s.stats.packetSeq == s.seqNo)
  }

  /** What every step keeps of the whole lifetime. */
  ghost predicate TotalsBalanced(w: seq<RecvStats>, a: seq<Uint64>, m: Uint64)
    requires a != []
  {
    && IsMaximum(a, m)
    && SumCounts(w) + SumSkips(w) == m - a[0]
    && SumCounts(w) == |Records(a)|
    && SumSkips(w) == |Missed(a, m)|
    && 1 + SumCounts(w) + SumDups(w) <= |a|
    && (|a| - 1 - SumCounts(w) - SumDups(w)) % TWO64 == 0
  }

  /** In a balanced window neither the count nor the skips can wrap around. */
  lemma HandleExact(s: State, x: Uint64, size: Uint64, now: int)
    requires WindowBalanced(s)
    ensures var t := Handle(s, x, size, now);
      && WindowBalanced(t)
      && t.id == s.id
      && t.seqNo == Max(s.seqNo, x)
      && (x > s.seqNo ==>
        && t.stats.packetCount == s.stats.packetCount + 1
        && t.stats.packetSkips == s.stats.packetSkips + (x - s.seqNo - 1)
        && t.stats.packetDups == s.stats.packetDups)
      && (x <= s.seqNo ==>
        && t.stats.packetCount == s.stats.packetCount
        && t.stats.packetSkips == s.stats.packetSkips
        && t.stats.packetDups == (if s.stats.packetDups == TWO64 - 1 then 0 else s.stats.packetDups + 1))
  {
    if x > s.seqNo {
      assert Sub64(Sub64(x, s.seqNo), 1) == x - s.seqNo - 1;
    }
  }

  lemma MaximumStep(a: seq<Uint64>, m: Uint64, x: Uint64)
    requires IsMaximum(a, m)
    ensures IsMaximum(a + [x], Max(m, x))
  {
    var b := a + [x];
    var k :| 0 <= k < |a| && a[k] == m;
    assert b[k] == m && b[|a|] == x;
  }

  lemma TotalsArrive(w: seq<RecvStats>, s: State, a: seq<Uint64>, x: Uint64, size: Uint64, now: int)
    requires a != [] && WindowBalanced(s) && TotalsBalanced(w + [s.stats], a, s.seqNo)
    ensures var t := Handle(s, x, size, now); TotalsBalanced(w + [t.stats], a + [x], t.seqNo)
  {
    var t := Handle(s, x, size, now);
    HandleExact(s, x, size, now);
    SumsAppend(w, s.stats);
    SumsAppend(w, t.stats);
    RecordsStep(a, s.seqNo, x);
    MissedStep(a, s.seqNo, x);
    MaximumStep(a, s.seqNo, x);
    var u := |a| - 1 - SumCounts(w + [s.stats]) - SumDups(w + [s.stats]);
    var v := |a + [x]| - 1 - SumCounts(w + [t.stats]) - SumDups(w + [t.stats]);
    assert v == u || v == u + TWO64;
  }

  lemma TotalsReset(w: seq<RecvStats>, s: State, a: seq<Uint64>, now: int, next: int)
    requires a != [] && TotalsBalanced(w + [s.stats], a, s.seqNo)
    ensures TotalsBalanced(w + [Taken(s, now)] + [Reset(s, next).stats], a, s.seqNo)
  {
    SumsAppend(w, s.stats);
    SumsAppend(w, Taken(s, now));
    SumsAppend(w + [Taken(s, now)], Reset(s, next).stats);
  }

  lemma ArriveShape(l: Life)
    requires l.steps != [] && l.Last().Arrive?
    ensures var p, x, size := l.Before(), l.Last().seqNo, l.Last().size;
      && StateOf(l) == Handle(StateOf(p), x, size, l.Last().now)
      && Windows(l) == Reports(p) + [StateOf(l).stats]
      && Arrivals(l) == Arrivals(p) + [x]
  {
  }

  lemma TakeShape(l: Life)
    requires l.steps != [] && l.Last().Take?
    ensures var p := l.Before();
      && StateOf(l) == Reset(StateOf(p), l.Last().next)
      && Windows(l) == Reports(p) + [Taken(StateOf(p), l.Last().now)] + [StateOf(l).stats]
      && Arrivals(l) == Arrivals(p)
  {
  }

  lemma TotalsStart(id: ID, first: Uint64, now: int)
    ensures TotalsBalanced([] + [FreshStats(id, first, now)], [first], first)
  {
    SumsAppend([], FreshStats(id, first, now));
    assert Records([first]) == {};
    assert Missed([first], first) == {};
  }

  lemma {:induction false} Conservation(l: Life)
    ensures WindowBalanced(StateOf(l)) && StateOf(l).id == l.id
    ensures TotalsBalanced(Windows(l), Arrivals(l), StateOf(l).seqNo)
    decreases |l.steps|
  {
    if l.steps == [] {
      TotalsStart(l.id, l.first, l.created);
    } else {
      var p := l.Before();
      Conservation(p);
      if l.Last().Take? {
        TakeShape(l);
        TotalsReset(Reports(p), StateOf(p), Arrivals(p), l.Last().now, l.Last().next);
      } else {
        ArriveShape(l);
        var Arrive(x, size, now) := l.Last();
        HandleExact(StateOf(p), x, size, now);
        TotalsArrive(Reports(p), StateOf(p), Arrivals(p), x, size, now);
      }
    }
  }

  /** A window has something to report exactly when its ratios are defined: `Valid` guards the
      division in `StatsFields`, `alive` guards the report. */
  lemma AliveIffValid(s: State)
    requires WindowBalanced(s)
    ensures Alive(s) <==> s.stats.Valid()
    ensures Alive(s) <==> s.stats.packetCount > 0
  {
  }

  /** A reported window: positive denominator, and every number of its span won or lost. */
  ghost predicate GoodWindow(r: RecvStats) {
    && r.Valid()
    && r.packetStart < r.packetSeq
    && r.packetCount > 0
    && r.packetCount + r.packetSkips == r.packetSeq - r.packetStart
    && r.PacketWin() + r.PacketLoss() == 1.0
    && r.PacketWin() * (r.packetSeq - r.packetStart) as real == r.packetCount as real
  }

  lemma RatiosSumToOne(x: real, y: real, d: real, a: real, b: real)
    requires d != 0.0 && x + y == d
    requires a * d == x && b * d == y
    ensures a + b == 1.0
  {
    assert (a + b - 1.0) * d == 0.0;
  }

  lemma AliveWindowIsGood(s: State, now: int)
    requires WindowBalanced(s) && Alive(s)
    ensures var r := Taken(s, now); GoodWindow(r) && r.packetSeq == s.seqNo && r.packetStart == s.stats.packetStart
  {
    var r := Taken(s, now);
    var span := r.Span();
    assert span == r.packetSeq - r.packetStart == r.packetCount + r.packetSkips;
    RatiosSumToOne(r.packetCount as real, r.packetSkips as real, span as real, r.PacketWin(), r.PacketLoss());
  }

  /** The reported windows and the current one tile the numbers from `first` to the maximum. */
  ghost predicate Tiles(w: seq<RecvStats>, first: Uint64)
    requires w != []
  {
    && w[0].packetStart == first
    && (forall i :: 0 <= i < |w| - 1 ==> GoodWindow(w[i]))
    && (forall i :: 0 <= i < |w| - 1 ==> w[i + 1].packetStart == w[i].packetSeq)
  }

  lemma {:induction false} WindowsTile(l: Life)
    requires WellTimed(l)
    ensures Tiles(Windows(l), l.first)
    decreases |l.steps|
  {
    if l.steps != [] {
      var p := l.Before();
      WindowsTile(p);
      Conservation(p);
      var v, w := Windows(p), Windows(l);
      if l.Last().Take? {
        AliveWindowIsGood(StateOf(p), l.Last().now);
        TakeShape(l);
        assert |w| == |v| + 1 && forall i | 0 <= i < |v| - 1 :: w[i] == v[i];
      } else {
        assert |w| == |v| && forall i | 0 <= i < |w| - 1 :: w[i] == v[i];
        assert w[|w| - 1].packetStart == v[|v| - 1].packetStart;
      }
    }
  }

  // The times of the windows.

  /** The last time of a lifetime. */
  function LastTime(l: Life): int {
    if l.steps == [] then l.created else if l.Last().Take? then l.Last().next else l.Last().now
  }

  /** Time passes. */
  predicate Ordered(l: Life)
    decreases |l.steps|
  {
    l.steps != [] ==>
      && Ordered(l.Before()) && LastTime(l.Before()) <= l.Last().now
      && (l.Last().Take? ==> l.Last().now <= l.Last().next)
  }

  /** The packet of this window, if any, was within it. */
  predicate Spans(r: RecvStats, end: int) {
    r.time <= end && (r.packetTime.Some? ==> r.time <= r.packetTime.value <= end)
  }

  /** Each reported window spans its duration, and ends before the next one starts. */
  ghost predicate InTime(w: seq<RecvStats>, from: int)
    requires w != []
  {
    && w[0].time == from
    && (forall i :: 0 <= i < |w| - 1 ==> Spans(w[i], w[i].time + w[i].duration))
    && (forall i :: 0 <= i < |w| - 1 ==> w[i].time + w[i].duration <= w[i + 1].time)
  }

  lemma InTimeArrive(w: seq<RecvStats>, r: RecvStats, r': RecvStats, from: int)
    requires InTime(w + [r], from) && r'.time == r.time
    ensures InTime(w + [r'], from)
  {
    var a, b := w + [r], w + [r'];
    assert forall i | 0 <= i < |w| :: b[i] == a[i];
    assert b[|w|] == r' && a[|w|] == r;
  }

  lemma InTimeTake(w: seq<RecvStats>, r: RecvStats, next: RecvStats, from: int)
    requires InTime(w + [r], from) && Spans(r, r.time + r.duration) && r.time + r.duration <= next.time
    ensures InTime(w + [r] + [next], from)
  {
    var a, b := w + [r], w + [r] + [next];
    assert forall i | 0 <= i < |a| :: b[i] == a[i];
    assert a[|w|] == r && b[|a|] == next;
  }

  lemma {:induction false} WindowsInTime(l: Life)
    requires Ordered(l)
    ensures InTime(Windows(l), l.created) && Spans(StateOf(l).stats, LastTime(l))
    decreases |l.steps|
  {
    if l.steps != [] {
      var p := l.Before();
      WindowsInTime(p);
      var w, r := Reports(p), StateOf(p).stats;
      if l.Last().Take? {
        TakeShape(l);
        var taken := Taken(StateOf(p), l.Last().now);
        InTimeArrive(w, r, taken, l.created);
        InTimeTake(w, taken, StateOf(l).stats, l.created);
      } else {
        ArriveShape(l);
        InTimeArrive(w, r, StateOf(l).stats, l.created);
      }
    }
  }

  // What the fields of each window are, by the steps.

  /** What happened in one window. */
  datatype Window = Window(time: int, last: Option<int>, end: Option<int>, count: nat, size: nat, dups: nat)

  function Add(w: Window, now: int, leads: bool, size: Uint64): Window {
    if leads then w.(last := Some(now), count := w.count + 1, size := w.size + size)
    else w.(last := Some(now), dups := w.dups + 1)
  }

  /** The windows of a lifetime: an arrival that leads counts, with its size, any other is a duplicate. */
  function Collected(l: Life): (w: seq<Window>)
    ensures w != []
    decreases |l.steps|
  {
    if l.steps == [] then [Window(l.created, None, None, 0, 0, 0)]
    else
      var w := Collected(l.Before());
      var n := |w| - 1;
      match l.Last()
      case Arrive(_, size, now) => w[..n] + [Add(w[n], now, Leads(Arrivals(l), |Arrivals(l)| - 1), size)]
      case Take(now, next) => w[..n] + [w[n].(end := Some(now))] + [Window(next, None, None, 0, 0, 0)]
  }

  predicate Tells(r: RecvStats, w: Window) {
    && r.time == w.time && r.packetTime == w.last
    && r.packetCount == w.count && r.packetSize == w.size % TWO64 && r.packetDups == w.dups % TWO64
    && (w.end.Some? ==> r.duration == w.end.value - w.time)
  }

  ghost predicate AllTell(rs: seq<RecvStats>, ws: seq<Window>) {
    |rs| == |ws| && forall i :: 0 <= i < |rs| ==> Tells(rs[i], ws[i])
  }

  lemma AllTellLast(rs: seq<RecvStats>, r: RecvStats, r': RecvStats, ws: seq<Window>, w': Window)
    requires AllTell(rs + [r], ws) && Tells(r', w')
    ensures AllTell(rs + [r'], ws[..|ws| - 1] + [w'])
  {
    forall i | 0 <= i < |rs|
      ensures Tells(rs[i], ws[i])
    {
      assert (rs + [r])[i] == rs[i];
    }
  }

  lemma HandleTells(s: State, w: Window, x: Uint64, size: Uint64, now: int)
    requires WindowBalanced(s) && Tells(s.stats, w) && w.end.None?
    ensures var t, v := Handle(s, x, size, now), Add(w, now, x > s.seqNo, size);
      Tells(t.stats, v) && v.end.None?
  {
    HandleExact(s, x, size, now);
    AddWraps(w.size, size);
    AddWraps(w.dups, 1);
  }

  /** The reported windows and the current one, which has not ended. */
  ghost predicate Seen(rs: seq<RecvStats>, s: State, ws: seq<Window>) {
    AllTell(rs + [s.stats], ws) && ws != [] && ws[|ws| - 1].end.None?
  }

  lemma TakeTells(rs: seq<RecvStats>, s: State, ws: seq<Window>, now: int, next: int)
    requires Seen(rs, s, ws)
    ensures var n := |ws| - 1;
      Seen(rs + [Taken(s, now)], Reset(s, next),
           ws[..n] + [ws[n].(end := Some(now))] + [Window(next, None, None, 0, 0, 0)])
  {
    var n := |ws| - 1;
    assert (rs + [s.stats])[n] == s.stats;
    var end := ws[n].(end := Some(now));
    AllTellLast(rs, s.stats, Taken(s, now), ws, end);
    assert Tells(Reset(s, next).stats, Window(next, None, None, 0, 0, 0));
  }

  lemma ArriveTells(rs: seq<RecvStats>, s: State, ws: seq<Window>, x: Uint64, size: Uint64, now: int)
    requires Seen(rs, s, ws) && WindowBalanced(s)
    ensures var n := |ws| - 1;
      Seen(rs, Handle(s, x, size, now), ws[..n] + [Add(ws[n], now, x > s.seqNo, size)])
  {
    var n := |ws| - 1;
    assert (rs + [s.stats])[n] == s.stats;
    HandleTells(s, ws[n], x, size, now);
    AllTellLast(rs, s.stats, Handle(s, x, size, now).stats, ws, Add(ws[n], now, x > s.seqNo, size));
  }

  /** Each window's times, counts and sizes are those of its steps. */
  lemma {:induction false} WindowsTell(l: Life)
    ensures Seen(Reports(l), StateOf(l), Collected(l))
    decreases |l.steps|
  {
    if l.steps == [] {
      assert Reports(l) + [StateOf(l).stats] == [StateOf(l).stats];
    } else {
      var p := l.Before();
      WindowsTell(p);
      Conservation(p);
      match l.Last()
      case Take(now, next) => TakeTells(Reports(p), StateOf(p), Collected(p), now, next);
      case Arrive(x, size, now) =>
        LeadsAtEnd(Arrivals(p), StateOf(p).seqNo, x);
        ArriveTells(Reports(p), StateOf(p), Collected(p), x, size, now);
    }
  }
}
