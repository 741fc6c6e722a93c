/** The UDP sender (udp/send.go, udp/sock_udp.go): numbered packets, statistics windows, and live
    configuration. The sender's loop and its clock's goroutine interleave. */
module Sender {
  import opened Words
  import opened Wire
  import C = RateClock
  import opened Wrappers

  datatype SendConfig = SendConfig(
    destAddr: string,
    sourceNet: string,
    sourcePort: Uint64,
    sourcePortBits: Uint64,
    id: string,
    rate: Uint64,
    count: Uint64,
    size: Uint64)

  /** A pushed JSON document: unreadable, or the fields it sets. */
  datatype Push = Malformed | Fields(
    destAddr: Option<string>,
    sourceNet: Option<string>,
    sourcePort: Option<Uint64>,
    sourcePortBits: Option<Uint64>,
    id: Option<string>,
    rate: Option<Uint64>,
    count: Option<Uint64>,
    size: Option<Uint64>)

  function Or<T>(o: Option<T>, default: T): T {
    match o
    case Some(v) => v
    case None => default
  }

  /** `ConfigPush.Unmarshal` over a copy of the running configuration. */
  function Overlay(c: SendConfig, p: Push): Option<SendConfig> {
    match p
    case Malformed => None
    case Fields(destAddr, sourceNet, sourcePort, sourcePortBits, id, rate, count, size) =>
      Some(SendConfig(Or(destAddr, c.destAddr), Or(sourceNet, c.sourceNet), Or(sourcePort, c.sourcePort),
                      Or(sourcePortBits, c.sourcePortBits), Or(id, c.id), Or(rate, c.rate),
                      Or(count, c.count), Or(size, c.size)))
  }

  datatype Reply = Accepted(config: SendConfig) | Rejected

  /** `Send.configPush`: only rate, count and size can change; other fields are ignored, except that
      a different ID is an error. */
  function Applied(c: SendConfig, p: Push): (r: Reply)
    ensures r.Accepted? ==> r.config.id == c.id
  {
    match Overlay(c, p)
    case None => Rejected
    case Some(n) => if n.id != c.id then Rejected
                    else Accepted(c.(rate := n.rate, count := n.count, size := n.size))
  }

  function ConfigAfter(c: SendConfig, p: Push): SendConfig {
    var r := Applied(c, p);
    if r.Accepted? then r.config else c
  }

  function ClockAfter(clock: C.Clock, c: SendConfig, p: Push, now: int): C.Clock {
    var n := ConfigAfter(c, p);
    if n.rate != c.rate || n.count != c.count then C.Set(clock, now, n.rate, n.count) else clock
  }

  datatype SockStats = SockStats(errors: Uint64, packets: Uint64, bytes: Uint64)

  const NO_PACKETS := SockStats(0, 0, 0)
  const NO_TICKS := C.RateStats(0, 0, 0)

  /** One statistics window as reported. */
  datatype SendStats = SendStats(start: int, time: int, rate: C.RateStats, send: SockStats)

  /** What the socket makes of a packet; a refused one was never packed, and ends the run. */
  datatype Outcome = Sent(size: Uint64) | Failed | Refused

  function Counted(s: SockStats, o: Outcome): SockStats {
    match o
    case Sent(size) => s.(packets := Add64(s.packets, 1), bytes := Add64(s.bytes, size))
    case Failed => s.(errors := Add64(s.errors, 1))
    case Refused => s
  }

  /** What the loop takes to its select: the time, and the clock's statistics so far. */
  datatype Snapshot = Snapshot(time: int, rate: C.RateStats)

  datatype State = State(
    id: ID,
    interval: int,           // between reports
    reporting: bool,
    config: SendConfig,
    clock: C.Clock,
    seqNo: Uint64,           // of the next packet
    start: int,              // of the current window
    time: int,               // now
    head: Option<Snapshot>,  // as the loop came to its select, unless a branch was taken since
    send: SockStats,
    reports: seq<SendStats>,
    replies: seq<Reply>,
    done: bool)

  function Init(id: ID, config: SendConfig, reporting: bool, interval: int, now: int): State {
    State(id, interval, reporting, config, C.Started(now, config.rate, config.count, NO_TICKS),
          0, now, now, None, NO_PACKETS, [], [], false)
  }

  datatype Event =
    | ClockHead(now: int)                       // the clock's goroutine turns to its next tick
    | LoopHead(now: int)                        // the sender's loop turns to its select
    | RateTick(now: int, outcome: Outcome)      // a tick is received and a packet sent
    | RateClosed(now: int)
    | StatsRead(now: int)
    | Pushed(now: int, push: Push)
    | PushClosed(now: int)
    | Stopped(now: int)                         // `Send.Stop`

  /** The branches of the select that can be taken. A report has the time of the loop's head, and waits
      for a whole interval. */
  predicate Enabled(s: State, e: Event) {
    && e.now >= s.time
    && match e
       case ClockHead(_) => s.clock.phase.Head?
       case LoopHead(_) => !s.done && s.head.None?
       case RateTick(now, _) => Selecting(s) && s.clock.phase.Pending? && now >= s.clock.phase.due
       case RateClosed(_) => Selecting(s) && s.clock.phase.Closed?
       case StatsRead(_) => Selecting(s) && s.reporting && s.head.value.time - s.start >= s.interval
       case Pushed(_, _) => Selecting(s)
       case PushClosed(_) => Selecting(s)
       case Stopped(_) => true
  }

  predicate Selecting(s: State) {
    !s.done && s.head.Some?
  }

  /** What is reported, as it was at the loop's head; what the clock counts after that is lost with the
      reset. */
  function Window(s: State): SendStats {
    var head := Or(s.head, Snapshot(s.time, s.clock.stats));
    SendStats(s.start, head.time, head.rate, s.send)
  }

  function Next(s: State, e: Event): State {
    match e
    case ClockHead(now) => s.(time := now, clock := C.Schedule(s.clock, now))
    case LoopHead(now) => s.(time := now, head := Some(Snapshot(now, s.clock.stats)))
    case RateTick(now, outcome) =>
      var t := s.(time := now, head := None, clock := C.Deliver(s.clock));
      if outcome.Refused? then t.(done := true)
      else t.(send := Counted(s.send, outcome), seqNo := Add64(s.seqNo, 1))
    case RateClosed(now) => s.(time := now, head := None, done := true)
    case StatsRead(now) =>
      s.(time := now, head := None, reports := s.reports + [Window(s)],
         start := Window(s).time, send := NO_PACKETS, clock := s.clock.(stats := NO_TICKS))
    case Pushed(now, push) =>
      s.(time := now, head := None, clock := ClockAfter(s.clock, s.config, push, now),
         config := ConfigAfter(s.config, push), replies := s.replies + [Applied(s.config, push)])
    case PushClosed(now) => s.(time := now, head := None, done := true)
    case Stopped(now) => s.(time := now, clock := C.Stop(s.clock))
  }

  predicate CanRun(s: State, events: seq<Event>) {
    events == [] || (var n := |events| - 1; CanRun(s, events[..n]) && Enabled(AfterRun(s, events[..n]), events[n]))
  }

  function AfterRun(s: State, events: seq<Event>): State {
    if events == [] then s
    else
      var n := |events| - 1;
      Next(AfterRun(s, events[..n]), events[n])
  }

  // Windows.

  function SumPackets(w: seq<SendStats>): nat {
    if w == [] then 0 else SumPackets(w[..|w| - 1]) + w[|w| - 1].send.packets
  }

  function SumErrors(w: seq<SendStats>): nat {
    if w == [] then 0 else SumErrors(w[..|w| - 1]) + w[|w| - 1].send.errors
  }

  lemma SumsAppend(w: seq<SendStats>, r: SendStats)
    ensures SumPackets(w + [r]) == SumPackets(w) + r.send.packets
    ensures SumErrors(w + [r]) == SumErrors(w) + r.send.errors
  {
    assert (w + [r])[..|w|] == w;
  }

  /** All packets counted: in the reported windows and the current one. */
  function Packets(s: State): nat {
    SumPackets(s.reports) + s.send.packets
  }

  function Total(s: State): nat {
    Packets(s) + SumErrors(s.reports) + s.send.errors
  }

  /** Windows that each last an interval, from `origin` on, up to the one that starts at `start`. */
  ghost predicate Abut(w: seq<SendStats>, interval: int, origin: int, start: int) {
    && (forall i :: 0 <= i < |w| ==> w[i].time - w[i].start >= interval)
    && (forall i :: 0 <= i < |w| - 1 ==> w[i + 1].start == w[i].time)
    && (if w == [] then start == origin else w[0].start == origin && w[|w| - 1].time == start)
  }

  ghost predicate WindowsAbut(s: State, origin: int) {
    s.start <= Window(s).time <= s.time && Abut(s.reports, s.interval, origin, s.start)
  }

  /** What every step of the sender keeps: the counters add up to the sequence number (exactly, or
      modulo 2^64 once a counter has wrapped), windows abut and last at least an interval, the ID
      never changes. */
  ghost predicate Conserved(s: State, s0: State) {
    && (Total(s) - s.seqNo) % TWO64 == 0
    && WindowsAbut(s, s0.start)
    && s.id == s0.id && s.config.id == s0.config.id && s.interval == s0.interval
  }

  /** A packet sent or failed adds one to the counters, unless the counter it lands on wraps. */
  lemma CountedAddsOne(s: SockStats, o: Outcome)
    requires !o.Refused?
    ensures var d := Counted(s, o).packets + Counted(s, o).errors - s.packets - s.errors; d == 1 || d == 1 - TWO64
  {
  }

  lemma BothAddOne(x: int, y: int, x': int, y': int)
    requires (x - y) % TWO64 == 0
    requires x' - x == 1 || x' - x == 1 - TWO64
    requires y' - y == 1 || y' - y == 1 - TWO64
    ensures (x' - y') % TWO64 == 0
  {
  }

  lemma TickTotal(sum: nat, send: SockStats, seqNo: Uint64, o: Outcome)
    requires !o.Refused? && (sum + send.packets + send.errors - seqNo) % TWO64 == 0
    ensures (sum + Counted(send, o).packets + Counted(send, o).errors - Add64(seqNo, 1)) % TWO64 == 0
  {
    CountedAddsOne(send, o);
    BothAddOne(sum + send.packets + send.errors, seqNo,
               sum + Counted(send, o).packets + Counted(send, o).errors, Add64(seqNo, 1));
  }

  /** What a step does to the windows and the numbering. */
  lemma StepShape(s: State, e: Event)
    ensures var t := Next(s, e);
      && t.interval == s.interval && t.id == s.id
      && (if e.StatsRead? then t.reports == s.reports + [Window(s)] && t.start == Window(s).time
          else t.reports == s.reports && t.start == s.start)
      && (if e.RateTick? && !e.outcome.Refused?
          then t.send == Counted(s.send, e.outcome) && t.seqNo == Add64(s.seqNo, 1)
          else t.send == (if e.StatsRead? then NO_PACKETS else s.send) && t.seqNo == s.seqNo)
  {
  }

  lemma TotalStep(s: State, e: Event)
    requires (Total(s) - s.seqNo) % TWO64 == 0
    ensures (Total(Next(s, e)) - Next(s, e).seqNo) % TWO64 == 0
  {
    StepShape(s, e);
    if e.RateTick? && !e.outcome.Refused? {
      TickTotal(SumPackets(s.reports) + SumErrors(s.reports), s.send, s.seqNo, e.outcome);
    } else if e.StatsRead? {
      SumsAppend(s.reports, Window(s));
    }
  }

  lemma AbutAppend(w: seq<SendStats>, interval: int, origin: int, r: SendStats)
    requires Abut(w, interval, origin, r.start) && r.time - r.start >= interval
    ensures Abut(w + [r], interval, origin, r.time)
  {
  }

  lemma AbutStep(s: State, origin: int, e: Event)
    requires WindowsAbut(s, origin) && Enabled(s, e)
    ensures WindowsAbut(Next(s, e), origin)
  {
    StepShape(s, e);
    if e.StatsRead? {
      AbutAppend(s.reports, s.interval, origin, Window(s));
    }
  }

  lemma ConservedStep(s: State, s0: State, e: Event)
    requires Conserved(s, s0) && Enabled(s, e)
    ensures Conserved(Next(s, e), s0)
  {
    TotalStep(s, e);
    AbutStep(s, s0.start, e);
  }

  lemma {:induction false} RunConserves(s0: State, events: seq<Event>)
    requires s0.seqNo == 0 && s0.reports == [] && s0.send == NO_PACKETS && s0.time == s0.start && s0.head == None
    requires CanRun(s0, events)
    ensures Conserved(AfterRun(s0, events), s0)
  {
    if events != [] {
      var n := |events| - 1;
      RunConserves(s0, events[..n]);
      ConservedStep(AfterRun(s0, events[..n]), s0, events[n]);
    }
  }

  /** As long as fewer than 2^64 are counted, the counters are the sequence number. */
  lemma CountersAreSequence(s: State, s0: State)
    requires Conserved(s, s0) && Total(s) < TWO64
    ensures Total(s) == s.seqNo
  {
  }

  // Configuration: what the pushes come to.

  /** A push that is accepted: it can be read, and it does not ask for another ID. */
  predicate Readable(p: Push, id: string) {
    p.Fields? && (p.id.None? || p.id.value == id)
  }

  /** The rate that the last accepted push with a rate gave, or the first one. */
  function HeldRate(c: SendConfig, pushes: seq<Push>): Uint64 {
    if pushes == [] then c.rate
    else
      var p := pushes[|pushes| - 1];
      if Readable(p, c.id) && p.rate.Some? then p.rate.value else HeldRate(c, pushes[..|pushes| - 1])
  }

  function HeldCount(c: SendConfig, pushes: seq<Push>): Uint64 {
    if pushes == [] then c.count
    else
      var p := pushes[|pushes| - 1];
      if Readable(p, c.id) && p.count.Some? then p.count.value else HeldCount(c, pushes[..|pushes| - 1])
  }

  function HeldSize(c: SendConfig, pushes: seq<Push>): Uint64 {
    if pushes == [] then c.size
    else
      var p := pushes[|pushes| - 1];
      if Readable(p, c.id) && p.size.Some? then p.size.value else HeldSize(c, pushes[..|pushes| - 1])
  }

  /** The first configuration with what was pushed since. */
  function Held(c: SendConfig, pushes: seq<Push>): SendConfig {
    c.(rate := HeldRate(c, pushes), count := HeldCount(c, pushes), size := HeldSize(c, pushes))
  }

  lemma AppliedHolds(c: SendConfig, pushes: seq<Push>, p: Push)
    ensures Applied(Held(c, pushes), p) == if Readable(p, c.id) then Accepted(Held(c, pushes + [p])) else Rejected
    ensures !Readable(p, c.id) ==> Held(c, pushes + [p]) == Held(c, pushes)
    ensures ConfigAfter(Held(c, pushes), p) == Held(c, pushes + [p])
  {
    assert (pushes + [p])[..|pushes|] == pushes;
  }

  /** Each push was answered by what it left running, or by a refusal. */
  ghost predicate RepliesTo(c: SendConfig, pushes: seq<Push>, replies: seq<Reply>) {
    && |replies| == |pushes|
    && forall i :: 0 <= i < |pushes| ==>
         replies[i] == if Readable(pushes[i], c.id) then Accepted(Held(c, pushes[..i + 1])) else Rejected
  }

  lemma RepliesAppend(c: SendConfig, pushes: seq<Push>, replies: seq<Reply>, p: Push, r: Reply)
    requires RepliesTo(c, pushes, replies)
    requires r == if Readable(p, c.id) then Accepted(Held(c, pushes + [p])) else Rejected
    ensures RepliesTo(c, pushes + [p], replies + [r])
  {
    var all, answers := pushes + [p], replies + [r];
    forall i | 0 <= i < |all|
      ensures answers[i] == if Readable(all[i], c.id) then Accepted(Held(c, all[..i + 1])) else Rejected
    {
      if i < |pushes| {
        assert all[..i + 1] == pushes[..i + 1];
      } else {
        assert all[..i + 1] == all;
      }
    }
  }

  function PushesIn(events: seq<Event>): seq<Push> {
    if events == [] then []
    else
      var e := events[|events| - 1];
      PushesIn(events[..|events| - 1]) + if e.Pushed? then [e.push] else []
  }

  /** What a step does to the configuration and the replies. */
  lemma ConfigStep(s: State, e: Event)
    ensures var t := Next(s, e);
      if e.Pushed?
      then t.config == ConfigAfter(s.config, e.push) && t.replies == s.replies + [Applied(s.config, e.push)]
      else t.config == s.config && t.replies == s.replies
  {
  }

  lemma HeldStep(s: State, c: SendConfig, pushes: seq<Push>, e: Event)
    requires s.config == Held(c, pushes) && RepliesTo(c, pushes, s.replies)
    ensures var t, after := Next(s, e), pushes + if e.Pushed? then [e.push] else [];
      t.config == Held(c, after) && RepliesTo(c, after, t.replies)
  {
    ConfigStep(s, e);
    if e.Pushed? {
      AppliedHolds(c, pushes, e.push);
      RepliesAppend(c, pushes, s.replies, e.push, Applied(s.config, e.push));
    } else {
      assert pushes + [] == pushes;
    }
  }

  /** The sender runs by what was pushed, and says so. */
  lemma {:induction false} ConfigHeld(s0: State, events: seq<Event>)
    requires s0.replies == []
    ensures AfterRun(s0, events).config == Held(s0.config, PushesIn(events))
    ensures RepliesTo(s0.config, PushesIn(events), AfterRun(s0, events).replies)
  {
    if events != [] {
      var n := |events| - 1;
      ConfigHeld(s0, events[..n]);
      HeldStep(AfterRun(s0, events[..n]), s0.config, PushesIn(events[..n]), events[n]);
    }
  }

  /** What one push does: accepted exactly if it is readable and keeps the ID. Then rate, count and size
      are the pushed ones where it has them, and the clock is set anew if rate or count differs. */
  lemma PushEffect(s: State, now: int, p: Push)
    ensures var t := Next(s, Pushed(now, p));
      && (t.replies == s.replies + [if Readable(p, s.config.id) then Accepted(t.config) else Rejected])
      && (!Readable(p, s.config.id) ==> t.config == s.config && t.clock == s.clock)
      && (Readable(p, s.config.id) ==>
          && t.config == s.config.(rate := t.config.rate, count := t.config.count, size := t.config.size)
          && t.config.rate == (if p.rate.Some? then p.rate.value else s.config.rate)
          && t.config.count == (if p.count.Some? then p.count.value else s.config.count)
          && t.config.size == (if p.size.Some? then p.size.value else s.config.size))
      && t.clock == if t.config.rate == s.config.rate && t.config.count == s.config.count then s.clock
                    else s.clock.(start := now, rate := t.config.rate, stop := t.config.count, offset := 0)
  {
  }

  // The clock, by what the pushes come to.

  /** The last event is a push that changes rate or count. */
  predicate Changed(c: SendConfig, events: seq<Event>) {
    events != [] && (
      var before := PushesIn(events[..|events| - 1]);
      || HeldRate(c, PushesIn(events)) != HeldRate(c, before)
      || HeldCount(c, PushesIn(events)) != HeldCount(c, before))
  }

  /** The last push that changed rate or count, or -1. */
  function LastChange(c: SendConfig, events: seq<Event>): (i: int)
    ensures -1 <= i < |events|
  {
    var n := |events| - 1;
    if n < 0 || Changed(c, events) then n else LastChange(c, events[..n])
  }

  /** When that was; `now` is when the sender started. */
  function ChangeTime(now: int, c: SendConfig, events: seq<Event>): int {
    if LastChange(c, events) < 0 then now else events[LastChange(c, events)].now
  }

  /** The ticks taken since. */
  function TicksSince(c: SendConfig, events: seq<Event>): nat {
    if events == [] || Changed(c, events) then 0
    else
      var n := |events| - 1;
      TicksSince(c, events[..n]) + if events[n].RateTick? then 1 else 0
  }

  /** The packets that have left since. */
  function PacketsSince(c: SendConfig, events: seq<Event>): nat {
    if events == [] || Changed(c, events) then 0
    else
      var n := |events| - 1;
      PacketsSince(c, events[..n]) + if events[n].RateTick? && events[n].outcome.Sent? then 1 else 0
  }

  /** The limit: the count since the last change, or the ticks taken until `Stop`. */
  function Limit(c: SendConfig, events: seq<Event>): Uint64 {
    if events == [] then c.count
    else
      var n := |events| - 1;
      if Changed(c, events) then HeldCount(c, PushesIn(events))
      else if events[n].Stopped? then TicksSince(c, events[..n]) % TWO64
      else Limit(c, events[..n])
  }

  /** What a step does to the clock's setting. */
  lemma ClockStep(s: State, e: Event)
    ensures var t := Next(s, e);
      if e.Pushed? && (t.config.rate != s.config.rate || t.config.count != s.config.count)
      then t.clock == C.Set(s.clock, e.now, t.config.rate, t.config.count)
      else
        && t.clock.start == s.clock.start && t.clock.rate == s.clock.rate
        && t.clock.stop == (if e.Stopped? then s.clock.offset else s.clock.stop)
        && t.clock.offset == (if e.RateTick? then Add64(s.clock.offset, 1) else s.clock.offset)
    ensures !e.Pushed? ==> Next(s, e).config == s.config
  {
    if e.ClockHead? {
      C.ScheduleShape(s.clock, e.now);
    }
  }

  /** The clock is set as the pushes came to; its offset counts the ticks taken since. */
  predicate ClockHeld(clock: C.Clock, start: int, c: SendConfig, events: seq<Event>) {
    && clock.start == ChangeTime(start, c, events)
    && clock.rate == HeldRate(c, PushesIn(events)) && clock.stop == Limit(c, events)
    && clock.offset == TicksSince(c, events) % TWO64
  }

  lemma ClockHeldStep(s: State, start: int, c: SendConfig, before: seq<Event>, e: Event)
    requires ClockHeld(s.clock, start, c, before)
    requires s.config == Held(c, PushesIn(before)) && Next(s, e).config == Held(c, PushesIn(before + [e]))
    ensures ClockHeld(Next(s, e).clock, start, c, before + [e])
    ensures Changed(c, before + [e]) ==> Next(s, e).clock.start == e.now && Next(s, e).clock.offset == 0
  {
    var events := before + [e];
    assert events[..|before|] == before && events[|before|] == e;
    ClockStep(s, e);
    AddWraps(TicksSince(c, before), 1);
    var i := LastChange(c, before);
    assert i >= 0 ==> events[i] == before[i];
  }

  /** So in every run: it was last set at the last change of rate or count, and to those. */
  lemma {:induction false} ClockFollowsConfig(s0: State, events: seq<Event>)
    requires s0.replies == [] && s0.clock.offset == 0
    requires s0.clock.rate == s0.config.rate && s0.clock.stop == s0.config.count
    ensures ClockHeld(AfterRun(s0, events).clock, s0.clock.start, s0.config, events)
  {
    if events != [] {
      var n := |events| - 1;
      ClockFollowsConfig(s0, events[..n]);
      ConfigHeld(s0, events);
      ConfigHeld(s0, events[..n]);
      assert events[..n] + [events[n]] == events;
      ClockHeldStep(AfterRun(s0, events[..n]), s0.clock.start, s0.config, events[..n], events[n]);
    }
  }

  /** Until `Stop` is called the limit is the running count. */
  lemma {:induction false} LimitIsCount(c: SendConfig, events: seq<Event>)
    requires forall i :: 0 <= i < |events| ==> !events[i].Stopped?
    ensures Limit(c, events) == HeldCount(c, PushesIn(events))
  {
    if events != [] {
      LimitIsCount(c, events[..|events| - 1]);
    }
  }

  /** Each packet took a tick. */
  lemma {:induction false} PacketsTakeTicks(c: SendConfig, events: seq<Event>)
    ensures PacketsSince(c, events) <= TicksSince(c, events)
  {
    if events != [] {
      PacketsTakeTicks(c, events[..|events| - 1]);
    }
  }

  lemma SenderStepOnSchedule(s: State, e: Event)
    requires Enabled(s, e) && C.OnSchedule(s.clock, s.time) && (e.RateTick? ==> s.clock.offset < TWO64 - 1)
    ensures Next(s, e).time == e.now && C.OnSchedule(Next(s, e).clock, e.now)
  {
    match e
    case ClockHead(now) => C.StepOnSchedule(s.clock, s.time, C.AtHead(now));
    case RateTick(now, _) => C.StepOnSchedule(s.clock, s.time, C.Tick(now));
    case Stopped(now) => C.StopOnSchedule(s.clock, s.time, now);
    case _ => C.WaitOnSchedule(s.clock, s.time, e.now);
  }

  lemma SetOnSchedule(s: State, start: int, c: SendConfig, before: seq<Event>, e: Event)
    requires Enabled(s, e) && ClockHeld(s.clock, start, c, before) && TicksSince(c, before + [e]) < TWO64
    requires s.config == Held(c, PushesIn(before)) && Next(s, e).config == Held(c, PushesIn(before + [e]))
    requires Changed(c, before + [e]) || C.OnSchedule(s.clock, s.time)
    ensures Next(s, e).time == e.now && C.OnSchedule(Next(s, e).clock, e.now)
  {
    ClockHeldStep(s, start, c, before, e);
    if Changed(c, before + [e]) {
      assert Next(s, e).time == e.now;
    } else {
      assert (before + [e])[..|before|] == before;
      SenderStepOnSchedule(s, e);
    }
  }

  /** The sender keeps to its clock: never a tick early since the last change of rate or count. */
  lemma {:induction false} SenderOnSchedule(s0: State, events: seq<Event>)
    requires s0.replies == [] && s0.clock.offset == 0 && C.OnSchedule(s0.clock, s0.time) && CanRun(s0, events)
    requires s0.clock.rate == s0.config.rate && s0.clock.stop == s0.config.count
    ensures var s := AfterRun(s0, events); TicksSince(s0.config, events) < TWO64 ==> C.OnSchedule(s.clock, s.time)
  {
    if events != [] && TicksSince(s0.config, events) < TWO64 {
      var n := |events| - 1;
      assert events[..n] + [events[n]] == events;
      ConfigHeld(s0, events);
      ConfigHeld(s0, events[..n]);
      ClockFollowsConfig(s0, events[..n]);
      SenderOnSchedule(s0, events[..n]);
      SetOnSchedule(AfterRun(s0, events[..n]), s0.clock.start, s0.config, events[..n], events[n]);
    }
  }

  /** The time of the last event; `now` is when the sender started. */
  function EndTime(now: int, events: seq<Event>): int {
    if events == [] then now else events[|events| - 1].now
  }

  lemma TimeTells(s0: State, events: seq<Event>)
    ensures AfterRun(s0, events).time == EndTime(s0.time, events)
  {
  }

  lemma ClockWithinRate(s: State, now: int, c: SendConfig, events: seq<Event>)
    requires ClockHeld(s.clock, now, c, events) && C.OnSchedule(s.clock, s.time)
    requires PacketsSince(c, events) <= TicksSince(c, events) <= C.MAX_OFFSET + 1
    ensures C.WithinRate(ChangeTime(now, c, events), HeldRate(c, PushesIn(events)), s.time, PacketsSince(c, events))
  {
    var n := TicksSince(c, events);
    assert n % TWO64 == n;
    C.RateBound(s.clock, s.time);
    C.FewerWithinRate(s.clock.start, s.clock.rate, s.time, n, PacketsSince(c, events));
  }

  /** So since the last change of rate or count no more packets have left than the rate allows for the
      time passed since: over any run, as long as the clock's schedule can count the ticks
      (`RateClock.RateBoundExactly`). */
  lemma SendsWithinRate(id: ID, config: SendConfig, reporting: bool, interval: int, now: int, events: seq<Event>)
    requires CanRun(Init(id, config, reporting, interval, now), events)
    ensures TicksSince(config, events) <= C.MAX_OFFSET + 1 ==>
      C.WithinRate(ChangeTime(now, config, events), HeldRate(config, PushesIn(events)), EndTime(now, events),
                   PacketsSince(config, events))
  {
    var s0 := Init(id, config, reporting, interval, now);
    ClockFollowsConfig(s0, events);
    PacketsTakeTicks(config, events);
    TimeTells(s0, events);
    if TicksSince(config, events) <= C.MAX_OFFSET + 1 {
      SenderOnSchedule(s0, events);
      ClockWithinRate(AfterRun(s0, events), now, config, events);
    }
  }

  // What the sender's counters and reports tell, by its events.

  /** The packets given to the socket. */
  function Sends(events: seq<Event>): nat {
    if events == [] then 0
    else
      var e := events[|events| - 1];
      Sends(events[..|events| - 1]) + if e.RateTick? && !e.outcome.Refused? then 1 else 0
  }

  datatype Tally = Tally(errors: nat, packets: nat, bytes: nat) {
    function Wrapped(): SockStats {
      SockStats(errors % TWO64, packets % TWO64, bytes % TWO64)
    }
  }

  /** What the socket made of them since the last report. */
  function Since(events: seq<Event>): Tally {
    if events == [] || events[|events| - 1].StatsRead? then Tally(0, 0, 0)
    else
      var t, e := Since(events[..|events| - 1]), events[|events| - 1];
      if !e.RateTick? then t
      else
        match e.outcome
        case Sent(size) => t.(packets := t.packets + 1, bytes := t.bytes + size)
        case Failed => t.(errors := t.errors + 1)
        case Refused => t
  }

  lemma CountedTells(t: Tally, o: Outcome)
    ensures Counted(t.Wrapped(), o) ==
      match o
      case Sent(size) => t.(packets := t.packets + 1, bytes := t.bytes + size).Wrapped()
      case Failed => t.(errors := t.errors + 1).Wrapped()
      case Refused => t.Wrapped()
  {
    AddWraps(t.packets, 1);
    AddWraps(t.errors, 1);
    if o.Sent? {
      AddWraps(t.bytes, o.size);
    }
  }

  /** The next number, and the counters of the window being collected. */
  lemma {:induction false} CountersTell(s0: State, events: seq<Event>)
    requires s0.seqNo == 0 && s0.send == NO_PACKETS
    ensures AfterRun(s0, events).seqNo == Sends(events) % TWO64
    ensures AfterRun(s0, events).send == Since(events).Wrapped()
  {
    if events != [] {
      var n := |events| - 1;
      CountersTell(s0, events[..n]);
      StepShape(AfterRun(s0, events[..n]), events[n]);
      AddWraps(Sends(events[..n]), 1);
      if events[n].RateTick? {
        CountedTells(Since(events[..n]), events[n].outcome);
      }
    }
  }

  /** The ticks taken since the last report. */
  function TicksReported(events: seq<Event>): nat {
    if events == [] || events[|events| - 1].StatsRead? then 0
    else TicksReported(events[..|events| - 1]) + if events[|events| - 1].RateTick? then 1 else 0
  }

  /** A report takes the clock's statistics away; only the clock's head adds to the rest of them. */
  lemma ClockStatsStep(s: State, e: Event)
    ensures var t := Next(s, e).clock.stats;
      && (e.StatsRead? ==> t == C.RateStats(0, 0, 0))
      && (!e.StatsRead? ==> t.count == Add64(s.clock.stats.count, if e.RateTick? then 1 else 0))
      && (!e.StatsRead? && !e.ClockHead? ==> t == s.clock.stats.(count := t.count))
  {
    if e.ClockHead? {
      C.ScheduleShape(s.clock, e.now);
    }
  }

  lemma {:induction false} ClockCountTells(s0: State, events: seq<Event>)
    requires s0.clock.stats.count == 0
    ensures AfterRun(s0, events).clock.stats.count == TicksReported(events) % TWO64
  {
    if events != [] {
      var n := |events| - 1;
      ClockCountTells(s0, events[..n]);
      ClockStatsStep(AfterRun(s0, events[..n]), events[n]);
      AddWraps(TicksReported(events[..n]), if events[n].RateTick? then 1 else 0);
    }
  }

  /** When the loop last came to its select, or -1. */
  function LastHead(events: seq<Event>): (i: int)
    ensures -1 <= i < |events| && (i >= 0 ==> events[i].LoopHead?)
  {
    var n := |events| - 1;
    if n < 0 || events[n].LoopHead? then n else LastHead(events[..n])
  }

  /** When the current window started: at the loop's head before the last report. */
  function WindowStart(start: int, events: seq<Event>): int {
    if events == [] then start
    else
      var n := |events| - 1;
      var h := LastHead(events[..n]);
      if events[n].StatsRead? && h >= 0 then events[h].now else WindowStart(start, events[..n])
  }

  /** What a report after these events has in it. */
  function ReportAfter(s0: State, events: seq<Event>): SendStats
    requires LastHead(events) >= 0
  {
    var h := LastHead(events);
    SendStats(WindowStart(s0.start, events), events[h].now, AfterRun(s0, events[..h]).clock.stats,
              Since(events).Wrapped())
  }

  /** The reports, in order. */
  function ReportsIn(s0: State, events: seq<Event>): seq<SendStats> {
    if events == [] then []
    else
      var n := |events| - 1;
      ReportsIn(s0, events[..n])
      + if events[n].StatsRead? && LastHead(events[..n]) >= 0 then [ReportAfter(s0, events[..n])] else []
  }

  lemma HeadStep(s: State, e: Event)
    ensures Next(s, e).head == match e
      case ClockHead(_) => s.head
      case Stopped(_) => s.head
      case LoopHead(now) => Some(Snapshot(now, s.clock.stats))
      case _ => None
  {
  }

  lemma {:induction false} HeadTells(s0: State, events: seq<Event>)
    requires s0.head.None?
    ensures var s, h := AfterRun(s0, events), LastHead(events);
      s.head.Some? ==> h >= 0 && s.head.value == Snapshot(events[h].now, AfterRun(s0, events[..h]).clock.stats)
  {
    if events != [] {
      var n := |events| - 1;
      HeadTells(s0, events[..n]);
      HeadStep(AfterRun(s0, events[..n]), events[n]);
      var h := LastHead(events[..n]);
      assert h >= 0 ==> events[..n][..h] == events[..h];
    }
  }

  /** Every report has the counters since the one before, and the times and the clock's statistics of the
      loop's heads before each; without a reporter there is none. */
  lemma {:induction false} ReportsTell(s0: State, events: seq<Event>)
    requires s0.seqNo == 0 && s0.send == NO_PACKETS && s0.head.None? && s0.reports == [] && CanRun(s0, events)
    ensures var s := AfterRun(s0, events);
      && s.reports == ReportsIn(s0, events) && s.start == WindowStart(s0.start, events)
      && s.reporting == s0.reporting && (!s.reporting ==> s.reports == [])
  {
    if events != [] {
      var n := |events| - 1;
      ReportsTell(s0, events[..n]);
      HeadTells(s0, events[..n]);
      CountersTell(s0, events[..n]);
      StepShape(AfterRun(s0, events[..n]), events[n]);
    }
  }

  /** The loop ends when the clock or the configuration's channel is closed, or a packet is refused. */
  predicate Ends(e: Event) {
    e.RateClosed? || e.PushClosed? || (e.RateTick? && e.outcome.Refused?)
  }

  lemma DoneStep(s: State, e: Event)
    ensures Next(s, e).done <==> s.done || Ends(e)
  {
  }

  lemma {:induction false} DoneTells(s0: State, events: seq<Event>)
    requires !s0.done
    ensures AfterRun(s0, events).done <==> exists i :: 0 <= i < |events| && Ends(events[i])
  {
    if events != [] {
      var n := |events| - 1;
      DoneTells(s0, events[..n]);
      DoneStep(AfterRun(s0, events[..n]), events[n]);
      assert forall i | 0 <= i < n :: events[..n][i] == events[i];
    }
  }

  /** From the start, over any run: what the sender runs by, counts, reports and answers. */
  lemma SenderTells(id: ID, config: SendConfig, reporting: bool, interval: int, now: int, events: seq<Event>)
    requires CanRun(Init(id, config, reporting, interval, now), events)
    ensures var s0 := Init(id, config, reporting, interval, now);
      var s := AfterRun(s0, events);
      && s.id == id && s.config == Held(config, PushesIn(events))
      && RepliesTo(config, PushesIn(events), s.replies)
      && ClockHeld(s.clock, now, config, events)
      && s.seqNo == Sends(events) % TWO64 && s.send == Since(events).Wrapped()
      && s.reports == ReportsIn(s0, events) && s.start == WindowStart(now, events)
      && s.clock.stats.count == TicksReported(events) % TWO64
      && (s.done <==> exists i :: 0 <= i < |events| && Ends(events[i]))
      && Conserved(s, s0)
  {
    var s0 := Init(id, config, reporting, interval, now);
    ConfigHeld(s0, events);
    ClockFollowsConfig(s0, events);
    CountersTell(s0, events);
    ReportsTell(s0, events);
    DoneTells(s0, events);
    ClockCountTells(s0, events);
    RunConserves(s0, events);
  }

  // ---------------------------------------------------------------------------------------------

  class Send {
    const id: ID
    const interval: int
    const reporting: bool
    var config: SendConfig
    var rateClock: C.RateClock
    var phase: C.Phase
    var seqNo: Uint64
    var start: int
    var time: int
    var head: Option<Snapshot>
    var sock: SockStats
    var statsChan: seq<SendStats>
    var replies: seq<Reply>
    var done: bool

    ghost function Abs(): State
      reads this, rateClock
    {
      State(id, interval, reporting, config, rateClock.Abs(phase), seqNo, start, time, head, sock, statsChan,
            replies, done)
    }

    /** `NewSend` and the head of `Run`. */
    constructor (id: ID, config: SendConfig, reporting: bool, interval: int, now: int)
      ensures Abs() == Init(id, config, reporting, interval, now)
      ensures fresh(rateClock)
    {
      this.id, this.config, this.reporting, this.interval := id, config, reporting, interval;
      seqNo, start, time, head, sock := 0, now, now, None, NO_PACKETS;
      statsChan, replies, done := [], [], false;
      rateClock := new C.RateClock(now, config.rate, config.count);
      phase := C.Head;
    }

    /** `SockUDP.send`, with the operating system's answer given. */
    method SendPacket(outcome: Outcome)
      modifies this`sock
      ensures sock == Counted(old(sock), outcome)
    {
      match outcome
      case Sent(size) =>
        sock := sock.(packets := Add64(sock.packets, 1));
        sock := sock.(bytes := Add64(sock.bytes, size));
      case Failed =>
        sock := sock.(errors := Add64(sock.errors, 1));
      case Refused =>
    }

    method ConfigPush(now: int, push: Push) returns (r: Reply)
      modifies this`config, rateClock
      ensures r == Applied(old(config), push) && config == ConfigAfter(old(config), push)
      ensures r == if Readable(push, old(config).id) then Accepted(config) else Rejected
      ensures r.Accepted? ==> config.rate == Or(push.rate, old(config).rate)
      ensures r.Accepted? ==> config.count == Or(push.count, old(config).count)
      ensures r.Accepted? ==> config.size == Or(push.size, old(config).size)
      ensures forall phase :: rateClock.Abs(phase) == ClockAfter(old(rateClock.Abs(phase)), old(config), push, now)
    {
      match Overlay(config, push)
      case None => r := Rejected;
      case Some(n) =>
        if n.id != config.id {
          return Rejected;
        }
        if n.rate != config.rate || n.count != config.count {
          rateClock.SetRate(now, n.rate, n.count);
          config := config.(rate := n.rate);
          config := config.(count := n.count);
        }
        if n.size != config.size {
          config := config.(size := n.size);
        }
        r := Accepted(config);
    }

    /** A tick is received, and a packet sent. */
    method TakeTick(outcome: Outcome)
      requires phase.Pending?
      modifies this, rateClock
      ensures Abs() == Next(old(Abs()), RateTick(old(time), outcome)) && rateClock == old(rateClock)
    {
      rateClock.Received();
      phase, head := C.Head, None;
      SendPacket(outcome);
      if outcome.Refused? {
        done := true;
      } else {
        seqNo := Add64(seqNo, 1);
      }
    }

    /** The window is reported, and the next one starts. */
    method Report()
      requires head.Some?
      modifies this, rateClock
      ensures Abs() == Next(old(Abs()), StatsRead(old(time))) && rateClock == old(rateClock)
    {
      statsChan := statsChan + [SendStats(start, head.value.time, head.value.rate, sock)];
      start, head := head.value.time, None;
      rateClock.ResetStats();
      sock := NO_PACKETS;
    }

    /** One turn of `Send.Run`, or of the clock's goroutine beside it. */
    method Turn(e: Event)
      requires Enabled(Abs(), e)
      modifies this, rateClock
      ensures Abs() == Next(old(Abs()), e) && rateClock == old(rateClock)
    {
      time := e.now;
      match e
      case ClockHead(now) =>
        phase := rateClock.TurnHead(now);
      case LoopHead(now) =>
        head := Some(Snapshot(now, rateClock.stats));
      case RateTick(_, outcome) =>
        TakeTick(outcome);
      case RateClosed(_) =>
        head, done := None, true;
      case StatsRead(_) =>
        Report();
      case Pushed(now, push) =>
        var r := ConfigPush(now, push);
        replies, head := replies + [r], None;
      case PushClosed(_) =>
        head, done := None, true;
      case Stopped(_) =>
        rateClock.StopClock();
    }

    /** `Send.Run` under any interleaving of ticks, reports, pushes and the clock. */
    method Run(events: seq<Event>)
      requires CanRun(Abs(), events)
      modifies this, rateClock
      ensures Abs() == AfterRun(old(Abs()), events)
    {
      ghost var s0 := Abs();
      for i := 0 to |events|
        invariant rateClock == old(rateClock)
        invariant Abs() == AfterRun(s0, events[..i])
      {
        CanRunPrefix(s0, events, i + 1);
        assert events[..i + 1][..i] == events[..i];
        Turn(events[i]);
      }
      assert events[..|events|] == events;
    }
  }

  lemma {:induction false} CanRunPrefix(s: State, events: seq<Event>, k: nat)
    requires CanRun(s, events) && k <= |events|
    ensures CanRun(s, events[..k])
  {
    if k < |events| {
      var n := |events| - 1;
      CanRunPrefix(s, events[..n], k);
      assert events[..n][..k] == events[..k];
    } else {
      assert events[..k] == events;
    }
  }
}
