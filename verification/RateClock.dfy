/** The pacing clock (udp/rate.go): ticks on an absolute schedule, reconfigured while it runs.
    Times are nanoseconds. */
module RateClock {
  import opened Words

  const SECOND := 1_000_000_000

  /** The last offset whose product with a second still fits an int64. */
  const MAX_OFFSET := 9_223_372_036

  datatype RateStats = RateStats(sleepDuration: int, underrunCount: Uint64, count: Uint64)

  /** Where the clock's goroutine is: at the head of its loop, sleeping until `due` and then
      waiting for its tick to be received, or finished with the channel closed. */
  datatype Phase = Head | Pending(due: int) | Closed

  datatype Clock = Clock(
    start: int,
    rate: Uint64,
    stop: Uint64,
    offset: Uint64,
    stats: RateStats,
    phase: Phase)

  /** The scheduled time of a tick after the start, in int64 arithmetic. */
  function Target(offset: Uint64, rate: Uint64): int
    requires rate != 0
  {
    var divisor := Int64(rate);
    QuoTrunc(Int64(Int64(offset) * SECOND), divisor)
  }

  predicate Running(c: Clock) {
    c.stop == 0 || c.offset < c.stop
  }

  /** From the loop's test to the offer of the tick, at time `now`. */
  function Schedule(c: Clock, now: int): Clock {
    if !Running(c) then c.(phase := Closed)
    else if c.rate == 0 then c.(phase := Pending(now))
    else
      var skew := Target(c.offset, c.rate) - (now - c.start);
      if skew > 0 then
        c.(phase := Pending(now + skew), stats := c.stats.(sleepDuration := c.stats.sleepDuration + skew))
      else
        c.(phase := Pending(now), stats := c.stats.(underrunCount := Add64(c.stats.underrunCount, 1)))
  }

  /** The tick is received, and counted. */
  function Deliver(c: Clock): Clock {
    c.(phase := Head, offset := Add64(c.offset, 1), stats := c.stats.(count := Add64(c.stats.count, 1)))
  }

  function Set(c: Clock, now: int, rate: Uint64, count: Uint64): Clock {
    c.(start := now, rate := rate, stop := count, offset := 0)
  }

  function Stop(c: Clock): Clock {
    c.(stop := c.offset)
  }

  function Started(now: int, rate: Uint64, count: Uint64, stats: RateStats): Clock {
    Clock(now, rate, count, 0, stats, Head)
  }

  function Min(a: int, b: int): int {
    if a < b then a else b
  }

  // Arithmetic of the schedule.

  lemma QuoTruncFloor(a: int, b: int)
    requires a >= 0 && b > 0
    ensures QuoTrunc(a, b) == a / b
  {
  }

  /** The scheduled time is exact until the product leaves the int64 range, and not beyond. */
  lemma ProductInRange(offset: Uint64)
    requires offset < TWO63
    ensures Int64(Int64(offset) * SECOND) == offset * SECOND <==> offset <= MAX_OFFSET
  {
  }

  lemma NonPositiveQuotient(a: int, b: int)
    requires a >= 0 && b < 0
    ensures QuoTrunc(a, b) <= 0
  {
  }

  lemma SmallQuotient(a: int, b: int)
    requires 0 <= a < b
    ensures a / b == 0
  {
  }

  /** A clock never schedules a tick before its share of time has passed; a rate beyond int64
      schedules every tick at once, which is what its share rounds down to. */
  lemma TargetExact(offset: Uint64, rate: Uint64)
    requires rate != 0 && offset <= MAX_OFFSET
    ensures rate < TWO63 ==> Target(offset, rate) == offset * SECOND / rate
    ensures rate >= TWO63 ==> Target(offset, rate) <= 0 == offset * SECOND / rate
  {
    ProductInRange(offset);
    if rate < TWO63 {
      QuoTruncFloor(offset * SECOND, rate);
    } else {
      SmallQuotient(offset * SECOND, rate);
      NonPositiveQuotient(offset * SECOND, Int64(rate));
    }
  }

  /** One tick past the range the product has wrapped, and the tick is due at once. */
  lemma ScheduleWraps()
    ensures Target(MAX_OFFSET + 1, 1) < 0 < (MAX_OFFSET + 1) * SECOND
  {
  }

  // ---------------------------------------------------------------------------------------------
  // Runs under reconfiguration.

  datatype Event =
    | AtHead(now: int)
    | Tick(now: int)
    | SetTo(now: int, rate: Uint64, count: Uint64)
    | StopNow

  predicate Enabled(c: Clock, e: Event) {
    match e
    case AtHead(now) => c.phase.Head?
    case Tick(now) => c.phase.Pending? && now >= c.phase.due
    case SetTo(_, _, _) => true
    case StopNow => true
  }

  function Next(c: Clock, e: Event): Clock {
    match e
    case AtHead(now) => Schedule(c, now)
    case Tick(now) => Deliver(c)
    case SetTo(now, rate, count) => Set(c, now, rate, count)
    case StopNow => Stop(c)
  }

  predicate Later(e: Event, now: int) {
    e.StopNow? || e.now >= now
  }

  function TimeOf(e: Event, now: int): int {
    if e.StopNow? then now else e.now
  }

  /** `events` can happen to `c` in this order, at times from `now` on. */
  predicate CanRun(c: Clock, now: int, events: seq<Event>)
    decreases |events|
  {
    events == [] ||
    (Enabled(c, events[0]) && Later(events[0], now)
     && CanRun(Next(c, events[0]), TimeOf(events[0], now), events[1..]))
  }

  function AfterRun(c: Clock, events: seq<Event>): Clock
    decreases |events|
  {
    if events == [] then c else AfterRun(Next(c, events[0]), events[1..])
  }

  function EndTime(now: int, events: seq<Event>): int
    decreases |events|
  {
    if events == [] then now else EndTime(TimeOf(events[0], now), events[1..])
  }

  function Ticks(events: seq<Event>): nat {
    if events == [] then 0 else (if events[0].Tick? then 1 else 0) + Ticks(events[1..])
  }

  /** The ticks since the last `Set`, if there were `since` before. */
  function TicksSince(since: nat, events: seq<Event>): nat
    decreases |events|
  {
    if events == [] then since
    else
      match events[0]
      case Tick(_) => TicksSince(since + 1, events[1..])
      case SetTo(_, _, _) => TicksSince(0, events[1..])
      case _ => TicksSince(since, events[1..])
  }

  /** The last `Set` of a run, or -1. */
  function LastSet(events: seq<Event>): (i: int)
    ensures -1 <= i < |events| && (i >= 0 ==> events[i].SetTo?)
    ensures forall j :: i < j < |events| ==> !events[j].SetTo?
  {
    var n := |events| - 1;
    if n < 0 || events[n].SetTo? then n else LastSet(events[..n])
  }

  /** When the clock was last set, if it was started at `now`. */
  function SetTime(now: int, events: seq<Event>): int {
    if LastSet(events) < 0 then now else events[LastSet(events)].now
  }

  /** And to which rate. */
  function SetRate(rate: Uint64, events: seq<Event>): Uint64 {
    if LastSet(events) < 0 then rate else events[LastSet(events)].rate
  }

  /** The last `Set` or `Stop`, or -1. */
  function LastLimit(events: seq<Event>): (i: int)
    ensures -1 <= i < |events| && (i >= 0 ==> events[i].SetTo? || events[i].StopNow?)
    ensures forall j :: i < j < |events| ==> !events[j].SetTo? && !events[j].StopNow?
  {
    var n := |events| - 1;
    if n < 0 || events[n].SetTo? || events[n].StopNow? then n else LastLimit(events[..n])
  }

  /** The limit: the count of the last `Set`, or the ticks out since then when `Stop` was called. */
  function Limit(stop: Uint64, since: nat, events: seq<Event>): Uint64 {
    var i := LastLimit(events);
    if i < 0 then stop
    else if events[i].SetTo? then events[i].count
    else TicksSince(since, events[..i]) % TWO64
  }

  predicate Undisturbed(events: seq<Event>) {
    forall i :: 0 <= i < |events| ==> events[i].AtHead? || events[i].Tick?
  }

  // Never early.

  /** The tick at `offset` may be released at time `t`. */
  predicate NotEarly(c: Clock, offset: int, t: int) {
    0 <= offset <= MAX_OFFSET && c.rate != 0 ==> t >= c.start + offset * SECOND / c.rate
  }

  /** At time `now`: the last tick since the last `Set` was not early, nor will the pending one be. */
  predicate OnSchedule(c: Clock, now: int) {
    && now >= c.start
    && (c.offset > 0 ==> NotEarly(c, c.offset - 1, now))
    && (c.phase.Pending? && c.offset > 0 ==> NotEarly(c, c.offset, c.phase.due))
  }

  lemma ZeroOnSchedule(c: Clock, t: int)
    requires t >= c.start
    ensures NotEarly(c, 0, t)
  {
    if c.rate != 0 {
      assert 0 * SECOND / c.rate == 0;
    }
  }

  lemma LaterNotEarly(c: Clock, offset: int, t: int, t': int)
    requires NotEarly(c, offset, t) && t <= t'
    ensures NotEarly(c, offset, t')
  {
  }

  lemma ScheduleOnSchedule(c: Clock, now: int)
    requires now >= c.start && Running(c)
    ensures Schedule(c, now).phase.Pending? && NotEarly(c, c.offset, Schedule(c, now).phase.due)
  {
    if c.rate != 0 && c.offset <= MAX_OFFSET {
      TargetExact(c.offset, c.rate);
      if c.rate < TWO63 {
        assert Schedule(c, now).phase.due >= c.start + Target(c.offset, c.rate);
      }
    }
  }

  lemma HeadOnSchedule(c: Clock, now: int, t: int)
    requires OnSchedule(c, now) && c.phase.Head? && t >= now
    ensures OnSchedule(Schedule(c, t), t)
  {
    ScheduleShape(c, t);
    if c.offset > 0 {
      LaterNotEarly(c, c.offset - 1, now, t);
    }
    if Running(c) {
      ScheduleOnSchedule(c, t);
    }
  }

  lemma TickOnSchedule(c: Clock, now: int, t: int)
    requires OnSchedule(c, now) && c.phase.Pending? && t >= now && t >= c.phase.due && c.offset < TWO64 - 1
    ensures OnSchedule(Deliver(c), t)
  {
    if c.offset > 0 {
      LaterNotEarly(c, c.offset, c.phase.due, t);
    } else {
      ZeroOnSchedule(c, t);
    }
  }

  lemma StepOnSchedule(c: Clock, now: int, e: Event)
    requires OnSchedule(c, now) && Enabled(c, e) && Later(e, now)
    requires e.Tick? ==> c.offset < TWO64 - 1
    ensures OnSchedule(Next(c, e), TimeOf(e, now))
  {
    match e
    case AtHead(t) => HeadOnSchedule(c, now, t);
    case Tick(t) => TickOnSchedule(c, now, t);
    case SetTo(t, _, _) =>
    case StopNow =>
  }

  lemma WaitOnSchedule(c: Clock, now: int, later: int)
    requires OnSchedule(c, now) && now <= later
    ensures OnSchedule(c, later)
  {
    if c.offset > 0 {
      LaterNotEarly(c, c.offset - 1, now, later);
    }
  }

  lemma StopOnSchedule(c: Clock, now: int, later: int)
    requires OnSchedule(c, now) && now <= later
    ensures OnSchedule(Stop(c), later)
  {
    WaitOnSchedule(c, now, later);
  }

  lemma OffsetStep(c: Clock, e: Event)
    requires e.Tick? ==> c.offset < TWO64 - 1
    ensures Next(c, e).offset == if e.SetTo? then 0 else c.offset + if e.Tick? then 1 else 0
  {
    if e.AtHead? {
      ScheduleShape(c, e.now);
    }
  }

  /** Whatever happens to the clock, no tick since its last `Set` was early, and the offset is their
      number, unless they have come to 2^64. */
  lemma {:induction false} RunOnSchedule(c: Clock, now: int, since: nat, events: seq<Event>)
    requires CanRun(c, now, events)
    requires since < TWO64 ==> OnSchedule(c, now) && c.offset == since
    ensures TicksSince(since, events) < TWO64 ==>
      OnSchedule(AfterRun(c, events), EndTime(now, events)) && AfterRun(c, events).offset == TicksSince(since, events)
    decreases |events|
  {
    if events != [] {
      var e := events[0];
      var more := if e.SetTo? then 0 else if e.Tick? then since + 1 else since;
      if more < TWO64 && !e.SetTo? {
        StepOnSchedule(c, now, e);
        OffsetStep(c, e);
      }
      RunOnSchedule(Next(c, e), TimeOf(e, now), more, events[1..]);
    }
  }

  function CeilDiv(a: int, b: int): int
    requires b > 0
  {
    -((-a) / b)
  }

  lemma FloorBelow(k: int, rate: int, t: int)
    requires k >= 0 && rate > 0 && k * SECOND / rate <= t
    ensures k + 1 <= CeilDiv((t + 1) * rate, SECOND)
  {
    var q := k * SECOND / rate;
    assert k * SECOND < (q + 1) * rate;
    assert (q + 1) * rate <= (t + 1) * rate;
    CeilAbove(k, (t + 1) * rate);
  }

  lemma CeilAbove(k: int, a: int)
    requires k * SECOND < a
    ensures k + 1 <= CeilDiv(a, SECOND)
  {
  }

  /** `n` ticks are no more than the rate allows from `start` to `now`. */
  predicate WithinRate(start: int, rate: Uint64, now: int, n: nat) {
    rate > 0 ==> n <= CeilDiv((now - start + 1) * rate, SECOND)
  }

  lemma FewerWithinRate(start: int, rate: Uint64, now: int, n: nat, fewer: nat)
    requires WithinRate(start, rate, now, n) && fewer <= n
    ensures WithinRate(start, rate, now, fewer)
  {
  }

  /** The rate bound: since the last `Set`, at a rate above zero, no more ticks have been delivered
      than the rate allows for the time that has passed. */
  lemma RateBound(c: Clock, now: int)
    requires OnSchedule(c, now) && c.offset <= MAX_OFFSET + 1
    ensures WithinRate(c.start, c.rate, now, c.offset)
  {
    if c.rate == 0 {
    } else if c.offset > 0 {
      FloorBelow(c.offset - 1, c.rate, now - c.start);
    } else {
      assert (now - c.start + 1) * c.rate > 0;
      CeilAbove(-1, (now - c.start + 1) * c.rate);
    }
  }

  lemma LastSetFirst(events: seq<Event>)
    requires events != []
    ensures LastSet(events) ==
      if LastSet(events[1..]) >= 0 then LastSet(events[1..]) + 1 else if events[0].SetTo? then 0 else -1
  {
    var i, j := LastSet(events), LastSet(events[1..]);
    assert i > 0 ==> events[1..][i - 1] == events[i];
    assert j >= 0 ==> events[1..][j] == events[j + 1];
  }

  lemma LastLimitFirst(events: seq<Event>)
    requires events != []
    ensures LastLimit(events) ==
      if LastLimit(events[1..]) >= 0 then LastLimit(events[1..]) + 1
      else if events[0].SetTo? || events[0].StopNow? then 0 else -1
  {
    var i, j := LastLimit(events), LastLimit(events[1..]);
    assert i > 0 ==> events[1..][i - 1] == events[i];
    assert j >= 0 ==> events[1..][j] == events[j + 1];
  }

  /** What a clock runs by is what it was last told. */
  lemma {:induction false} RunsAsSet(c: Clock, events: seq<Event>)
    ensures AfterRun(c, events).start == SetTime(c.start, events)
    ensures AfterRun(c, events).rate == SetRate(c.rate, events)
    decreases |events|
  {
    if events != [] {
      RunsAsSet(Next(c, events[0]), events[1..]);
      LastSetFirst(events);
      if events[0].AtHead? {
        ScheduleShape(c, events[0].now);
      }
    }
  }

  lemma LimitFirst(stop: Uint64, since: nat, events: seq<Event>, stop': Uint64, since': nat)
    requires events != []
    requires since' == match events[0]
                       case Tick(_) => since + 1
                       case SetTo(_, _, _) => 0
                       case _ => since
    requires stop' == match events[0]
                      case SetTo(_, _, count) => count
                      case StopNow => since % TWO64
                      case _ => stop
    ensures Limit(stop, since, events) == Limit(stop', since', events[1..])
  {
    LastLimitFirst(events);
    var j := LastLimit(events[1..]);
    if j >= 0 {
      assert events[..j + 1][1..] == events[1..][..j];
    } else {
      assert events[..0] == [];
    }
  }

  /** Its offset and its limit, too. */
  lemma {:induction false} LimitAsSet(c: Clock, since: nat, events: seq<Event>)
    requires c.offset == since % TWO64
    ensures AfterRun(c, events).offset == TicksSince(since, events) % TWO64
    ensures AfterRun(c, events).stop == Limit(c.stop, since, events)
    decreases |events|
  {
    if events != [] {
      var d, e := Next(c, events[0]), events[0];
      var since' := if e.Tick? then since + 1 else if e.SetTo? then 0 else since;
      if e.AtHead? {
        ScheduleShape(c, e.now);
      }
      LimitFirst(c.stop, since, events, d.stop, since');
      LimitAsSet(d, since', events[1..]);
    }
  }

  /** Only the loop's head measures; ticks are counted; a `Set` or `Stop` changes no statistics and recalls no
      tick. */
  lemma StatsKept(c: Clock, e: Event)
    requires !e.AtHead?
    ensures Next(c, e).stats == c.stats.(count := Add64(c.stats.count, if e.Tick? then 1 else 0))
    ensures Next(c, e).phase == if e.Tick? then Head else c.phase
  {
  }

  /** The count of the statistics is the number of ticks, whatever else happens. */
  lemma {:induction false} CountIsTicks(c: Clock, n: nat, events: seq<Event>)
    requires c.stats.count == n % TWO64
    ensures AfterRun(c, events).stats.count == (n + Ticks(events)) % TWO64
    decreases |events|
  {
    if events != [] {
      var e := events[0];
      if e.AtHead? {
        ScheduleShape(c, e.now);
      } else {
        StatsKept(c, e);
      }
      AddWraps(n, if e.Tick? then 1 else 0);
      CountIsTicks(Next(c, e), n + if e.Tick? then 1 else 0, events[1..]);
    }
  }

  /** From any started clock, over any run with any reconfiguration, however long: of the ticks since the
      last `Set`, as long as the schedule can count them. */
  lemma RunWithinRate(now: int, rate: Uint64, count: Uint64, stats: RateStats, events: seq<Event>)
    requires CanRun(Started(now, rate, count, stats), now, events)
    ensures TicksSince(0, events) <= MAX_OFFSET + 1 ==>
      WithinRate(SetTime(now, events), SetRate(rate, events), EndTime(now, events), TicksSince(0, events))
  {
    var c := Started(now, rate, count, stats);
    RunOnSchedule(c, now, 0, events);
    RunsAsSet(c, events);
    if TicksSince(0, events) <= MAX_OFFSET + 1 {
      RateBound(AfterRun(c, events), EndTime(now, events));
    }
  }

  /** No run that ends `n` ticks after the last `Set` has broken the bound. */
  ghost predicate AlwaysWithinRate(n: nat) {
    forall now, rate, count, stats, events ::
      CanRun(Started(now, rate, count, stats), now, events) && TicksSince(0, events) == n ==>
        WithinRate(SetTime(now, events), SetRate(rate, events), EndTime(now, events), n)
  }

  /** And not beyond: a wrapped schedule has every further tick due by the end of int64. */
  lemma RateBoundExactly(n: nat)
    ensures AlwaysWithinRate(n) <==> n <= MAX_OFFSET + 1
  {
    if n <= MAX_OFFSET + 1 {
      forall now, rate, count, stats, events | CanRun(Started(now, rate, count, stats), now, events)
        && TicksSince(0, events) == n
        ensures WithinRate(SetTime(now, events), SetRate(rate, events), EndTime(now, events), n)
      {
        RunWithinRate(now, rate, count, stats, events);
      }
    } else {
      var stats := RateStats(0, 0, 0);
      var c := Started(0, 1, 0, stats);
      var events := HastyRun(c, 0, 0, n);
      RunsAsSet(c, events);
      assert !WithinRate(SetTime(0, events), SetRate(1, events), EndTime(0, events), n);
    }
  }

  lemma TargetInRange(offset: Uint64)
    ensures Target(offset, 1) < TWO63
  {
  }

  predicate Hasty(c: Clock, now: int) {
    c.start == 0 && c.rate == 1 && c.stop == 0 && c.phase.Head? && now < TWO63
  }

  lemma HastyTick(c: Clock, now: int)
    requires Hasty(c, now)
    ensures var p := Schedule(c, now); p.phase.Pending? && p.phase.due >= now && Hasty(Deliver(p), p.phase.due)
  {
    TargetInRange(c.offset);
    ScheduleShape(c, now);
  }

  /** At one tick a second, any number of ticks by the end of int64. */
  lemma {:induction false} HastyRun(c: Clock, now: int, since: nat, n: nat) returns (events: seq<Event>)
    requires Hasty(c, now)
    ensures CanRun(c, now, events) && TicksSince(since, events) == since + n
    ensures Hasty(AfterRun(c, events), EndTime(now, events))
    decreases n
  {
    if n == 0 {
      events := [];
    } else {
      HastyTick(c, now);
      var p := Schedule(c, now);
      var tick := Tick(p.phase.due);
      var rest := HastyRun(Deliver(p), p.phase.due, since + 1, n - 1);
      var after := [tick] + rest;
      assert after[1..] == rest;
      assert CanRun(p, now, after) && AfterRun(p, after) == AfterRun(Deliver(p), rest);
      events := [AtHead(now)] + after;
      assert events[1..] == after;
    }
  }

  // How many ticks are still to come.

  /** The ticks a clock with a limit will still deliver if it is left alone. */
  function Budget(c: Clock): nat {
    match c.phase
    case Head => Max(0, c.stop - c.offset)
    case Pending(_) => Max(1, c.stop - c.offset)
    case Closed => 0
  }

  /** All that the loop's test changes. */
  lemma ScheduleShape(c: Clock, now: int)
    ensures var p := Schedule(c, now);
      && p == c.(phase := p.phase, stats := p.stats)
      && (if Running(c) then p.phase.Pending? else p.phase.Closed?)
      && p.stats.count == c.stats.count
  {
  }

  lemma BudgetStep(c: Clock, e: Event)
    requires c.stop >= 1 && c.offset < TWO64 - 1 && Enabled(c, e) && (e.AtHead? || e.Tick?)
    ensures Next(c, e).stop == c.stop
    ensures Next(c, e).offset < TWO64 - 1 || !Next(c, e).phase.Pending?
    ensures Budget(Next(c, e)) + (if e.Tick? then 1 else 0) == Budget(c)
  {
    if e.AtHead? {
      ScheduleShape(c, e.now);
    }
  }

  lemma {:induction false} TicksMeetBudget(c: Clock, now: int, events: seq<Event>)
    requires c.stop >= 1 && c.offset < TWO64 - 1
    requires CanRun(c, now, events) && Undisturbed(events)
    ensures Ticks(events) + Budget(AfterRun(c, events)) == Budget(c)
    decreases |events|
  {
    if events != [] {
      BudgetStep(c, events[0]);
      var d := Next(c, events[0]);
      if d.offset < TWO64 - 1 {
        TicksMeetBudget(d, TimeOf(events[0], now), events[1..]);
      } else {
        SpentAtLimit(d, TimeOf(events[0], now), events[1..]);
      }
    }
  }

  lemma {:induction false} SpentAtLimit(c: Clock, now: int, events: seq<Event>)
    requires c.offset == TWO64 - 1 && c.stop >= 1 && !c.phase.Pending?
    requires CanRun(c, now, events) && Undisturbed(events)
    ensures Ticks(events) + Budget(AfterRun(c, events)) == 0
    decreases |events|
  {
    if events != [] {
      SpentAtLimit(Next(c, events[0]), TimeOf(events[0], now), events[1..]);
    }
  }

  /** After `Set` with a count on a live clock exactly that many ticks are delivered before the
      channel closes, one already pending included. */
  lemma SetDeliversCount(c: Clock, now: int, rate: Uint64, count: Uint64, events: seq<Event>)
    requires !c.phase.Closed? && count >= 1
    requires CanRun(Set(c, now, rate, count), now, events) && Undisturbed(events)
    ensures Ticks(events) <= count
    ensures AfterRun(Set(c, now, rate, count), events).phase.Closed? ==> Ticks(events) == count
    ensures Ticks(events) == count ==> Budget(AfterRun(Set(c, now, rate, count), events)) == 0
  {
    TicksMeetBudget(Set(c, now, rate, count), now, events);
  }

  /** So does a clock that is started with a count. */
  lemma StartDeliversCount(now: int, rate: Uint64, count: Uint64, stats: RateStats, events: seq<Event>)
    requires count >= 1 && CanRun(Started(now, rate, count, stats), now, events) && Undisturbed(events)
    ensures Ticks(events) <= count
    ensures AfterRun(Started(now, rate, count, stats), events).phase.Closed? ==> Ticks(events) == count
  {
    TicksMeetBudget(Started(now, rate, count, stats), now, events);
  }

  /** A clock left alone is never stuck, and its events alternate: the loop's head leads to a tick, or
      to the end exactly if the limit is reached, and a tick back to the head. */
  lemma LiveClockMoves(c: Clock, now: int)
    ensures !c.phase.Closed? ==> exists e: Event :: (e.AtHead? || e.Tick?) && Enabled(c, e) && Later(e, now)
    ensures forall e: Event :: Enabled(c, e) && e.AtHead? ==>
      if Running(c) then Next(c, e).phase.Pending? else Next(c, e).phase.Closed?
    ensures forall e: Event :: Enabled(c, e) && e.Tick? ==> Next(c, e).phase.Head?
  {
    match c.phase
    case Head => assert Enabled(c, AtHead(now)) && Later(AtHead(now), now);
    case Pending(due) =>
      var t := Max(due, now);
      assert Enabled(c, Tick(t)) && Later(Tick(t), now);
    case Closed =>
  }

  /** Without a limit the clock runs as long as anyone likes. */
  lemma {:induction false} EndlessRun(c: Clock, now: int, n: nat) returns (events: seq<Event>)
    requires c.stop == 0 && !c.phase.Closed?
    ensures CanRun(c, now, events) && Undisturbed(events) && Ticks(events) == n
    decreases n, c.phase.Head?
  {
    if n == 0 {
      events := [];
    } else if c.phase.Head? {
      var e := AtHead(now);
      var rest := EndlessRun(Next(c, e), now, n);
      events := [e] + rest;
      assert events[1..] == rest;
    } else {
      var e := Tick(Max(c.phase.due, now));
      var rest := EndlessRun(Next(c, e), e.now, n - 1);
      events := [e] + rest;
      assert events[1..] == rest;
    }
  }

  ghost predicate AtMostOneMore(c: Clock) {
    forall now, events :: CanRun(c, now, events) && Undisturbed(events) ==> Ticks(events) <= 1
  }

  /** `Stop` ends a live clock within one tick exactly if a tick was counted before: at offset 0 it
      sets the limit to 0, which means no limit. */
  lemma StopEndsClock(c: Clock)
    requires !c.phase.Closed? && c.offset < TWO64 - 1
    ensures AtMostOneMore(Stop(c)) <==> c.offset >= 1
  {
    if c.offset >= 1 {
      forall now, events | CanRun(Stop(c), now, events) && Undisturbed(events)
        ensures Ticks(events) <= 1
      {
        TicksMeetBudget(Stop(c), now, events);
      }
    } else {
      var events := EndlessRun(Stop(c), 0, 2);
      assert CanRun(Stop(c), 0, events);
    }
  }

  // ---------------------------------------------------------------------------------------------
  // The schedule of an undisturbed clock. `delays[k]` is how long tick k waits to be received.

  function Sum(d: seq<nat>): nat {
    if d == [] then 0 else Sum(d[..|d| - 1]) + d[|d| - 1]
  }

  lemma {:induction false} SumSplit(d: seq<nat>, j: nat, k: nat)
    requires j <= k < |d|
    ensures Sum(d[j..k + 1]) == Sum(d[j..k]) + d[k]
  {
    assert d[j..k + 1][..k - j] == d[j..k];
  }

  /** When tick `k` from now is scheduled. */
  function Due(c: Clock, k: nat): int
    requires c.offset + k < TWO64
  {
    c.start + if c.rate == 0 then 0 else Target(c.offset + k, c.rate)
  }

  /** When the clock turns to tick `k`, having started its loop at `t0`. */
  function ArriveAt(c: Clock, t0: int, delays: seq<nat>, k: nat): int
    requires k <= |delays| && c.offset + |delays| < TWO64
    decreases k, 0
  {
    if k == 0 then t0 else ReleaseAt(c, t0, delays, k - 1) + delays[k - 1]
  }

  /** When tick `k` is released. */
  function ReleaseAt(c: Clock, t0: int, delays: seq<nat>, k: nat): int
    requires k <= |delays| && c.offset + |delays| < TWO64
    decreases k, 1
  {
    if c.rate == 0 then ArriveAt(c, t0, delays, k)
    else Max(Due(c, k), ArriveAt(c, t0, delays, k))
  }

  /** A time tick `k` cannot be released before: tick `j` on schedule, then every delay since; and
      for `j` = -1 the start of the loop, then every delay. */
  function Bound(c: Clock, t0: int, delays: seq<nat>, j: int, k: nat): int
    requires -1 <= j <= k <= |delays| && c.offset + |delays| < TWO64
  {
    if j < 0 then t0 + Sum(delays[..k]) else Due(c, j) + Sum(delays[j..k])
  }

  /** Lateness is repaid: a release is late by the delays since some tick that was on time, never
      by more. The closed form is the largest of the bounds. */
  lemma {:induction false} MaxPlus(c: Clock, t0: int, delays: seq<nat>, k: nat)
    requires k <= |delays| && c.offset + |delays| < TWO64 && c.rate != 0
    ensures forall j :: -1 <= j <= k ==> ReleaseAt(c, t0, delays, k) >= Bound(c, t0, delays, j, k)
    ensures exists j :: -1 <= j <= k && ReleaseAt(c, t0, delays, k) == Bound(c, t0, delays, j, k)
  {
    assert delays[k..k] == [];
    assert Bound(c, t0, delays, k, k) == Due(c, k);
    if k == 0 {
      assert delays[..0] == [];
      assert Bound(c, t0, delays, -1, 0) == t0;
    } else {
      MaxPlus(c, t0, delays, k - 1);
      forall j | -1 <= j < k
        ensures Bound(c, t0, delays, j, k) == Bound(c, t0, delays, j, k - 1) + delays[k - 1]
      {
        SumSplit(delays, if j < 0 then 0 else j, k - 1);
        assert delays[0..k] == delays[..k] && delays[0..k - 1] == delays[..k - 1];
      }
      var j :| -1 <= j <= k - 1 && ReleaseAt(c, t0, delays, k - 1) == Bound(c, t0, delays, j, k - 1);
      assert ArriveAt(c, t0, delays, k) == Bound(c, t0, delays, j, k);
    }
  }

  function Late(c: Clock, t0: int, delays: seq<nat>, n: nat): set<nat>
    requires n <= |delays| && c.offset + |delays| < TWO64
  {
    set k: nat | k < n && c.rate != 0 && ArriveAt(c, t0, delays, k) >= Due(c, k)
  }

  lemma LateStep(c: Clock, t0: int, delays: seq<nat>, n: nat)
    requires n < |delays| && c.offset + |delays| < TWO64
    ensures |Late(c, t0, delays, n + 1)| ==
      |Late(c, t0, delays, n)| + if c.rate != 0 && ArriveAt(c, t0, delays, n) >= Due(c, n) then 1 else 0
  {
    var more := c.rate != 0 && ArriveAt(c, t0, delays, n) >= Due(c, n);
    assert Late(c, t0, delays, n + 1) == Late(c, t0, delays, n) + if more then {n} else {};
  }

  /** The clock as it turns to tick `n`, left alone since `t0`, and the time. */
  function LeftAlone(c: Clock, t0: int, delays: seq<nat>, n: nat): (Clock, int)
    requires n <= |delays|
  {
    if n == 0 then (c, t0)
    else
      var (d, now) := LeftAlone(c, t0, delays, n - 1);
      if !Running(d) then (d, now)
      else
        var p := Schedule(d, now);
        (Deliver(p), p.phase.due + delays[n - 1])
  }

  /** How many of `n` ticks the limit leaves to an undisturbed clock. */
  function Allowed(c: Clock, n: nat): nat {
    if c.stop == 0 then n else Min(n, Max(0, c.stop - c.offset))
  }

  lemma ScheduleSplit(c: Clock, now: int)
    requires Running(c) && c.stats.underrunCount < TWO64 - 1
    ensures var p := Schedule(c, now);
      && p == c.(phase := p.phase, stats := p.stats)
      && p.phase.Pending?
      && p.phase.due == (if c.rate == 0 then now else Max(Due(c, 0), now))
      && p.stats.sleepDuration == c.stats.sleepDuration + p.phase.due - now
      && p.stats.underrunCount == c.stats.underrunCount + (if c.rate != 0 && now >= Due(c, 0) then 1 else 0)
      && p.stats.count == c.stats.count
  {
    if c.rate != 0 {
      assert Due(c, 0) == c.start + Target(c.offset, c.rate);
    }
  }

  /** Each release is at its max-plus time, the time not slept is the time waited for the consumer,
      and every tick was either slept for or an underrun. */
  ghost predicate Accounted(c: Clock, t0: int, delays: seq<nat>, n: nat, d: Clock, now: int)
    requires n <= |delays| && c.offset + |delays| < TWO64
  {
    && d == c.(offset := c.offset + n, stats := d.stats)
    && now == ArriveAt(c, t0, delays, n)
    && d.stats.sleepDuration - c.stats.sleepDuration == now - t0 - Sum(delays[..n])
    && |Late(c, t0, delays, n)| <= n
    && d.stats.underrunCount == c.stats.underrunCount + |Late(c, t0, delays, n)|
    && d.stats.count == c.stats.count + n
  }

  lemma DeliverShape(p: Clock)
    requires p.offset < TWO64 - 1 && p.stats.count < TWO64 - 1
    ensures Deliver(p) == p.(phase := Head, offset := p.offset + 1, stats := p.stats.(count := p.stats.count + 1))
  {
  }

  /** What one tick adds, whatever its schedule. */
  lemma TickAdds(c: Clock, n: nat, d: Clock, p: Clock, late: nat)
    requires c.offset + n < TWO64 - 1 && c.phase.Head? && d == c.(offset := c.offset + n, stats := d.stats)
    requires p == d.(phase := p.phase, stats := p.stats)
    requires p.stats.underrunCount == d.stats.underrunCount + late && p.stats.count == d.stats.count < TWO64 - 1
    ensures var e := Deliver(p);
      && e == c.(offset := c.offset + n + 1, stats := e.stats)
      && e.stats.underrunCount == d.stats.underrunCount + late
      && e.stats.count == d.stats.count + 1
      && e.stats.sleepDuration == p.stats.sleepDuration
  {
    DeliverShape(p);
  }

  lemma SleepStep(delays: seq<nat>, n: nat, slept: int, passed: int, more: int)
    requires n < |delays| && slept == passed - Sum(delays[..n])
    ensures slept + more == passed + more + delays[n] - Sum(delays[..n + 1])
  {
    SumSplit(delays, 0, n);
    assert delays[0..n] == delays[..n] && delays[0..n + 1] == delays[..n + 1];
  }

  lemma AccountedStep(c: Clock, t0: int, delays: seq<nat>, n: nat, d: Clock, now: int)
    requires n < |delays| && c.offset + |delays| < TWO64 && c.phase.Head?
    requires c.stats.underrunCount + |delays| < TWO64 && c.stats.count + |delays| < TWO64
    requires Accounted(c, t0, delays, n, d, now) && Running(d)
    ensures var p := Schedule(d, now);
      && p.phase.due == ReleaseAt(c, t0, delays, n)
      && Accounted(c, t0, delays, n + 1, Deliver(p), p.phase.due + delays[n])
  {
    var p := Schedule(d, now);
    ScheduleSplit(d, now);
    assert Due(d, 0) == Due(c, n);
    var late := if c.rate != 0 && now >= Due(c, n) then 1 else 0;
    TickAdds(c, n, d, p, late);
    LateStep(c, t0, delays, n);
    SleepStep(delays, n, d.stats.sleepDuration - c.stats.sleepDuration, now - t0, p.phase.due - now);
  }

  lemma {:induction false} LeftAloneAccounted(c: Clock, t0: int, delays: seq<nat>, n: nat)
    requires n <= |delays| && c.offset + |delays| < TWO64 && c.phase.Head?
    requires c.stats.underrunCount + |delays| < TWO64 && c.stats.count + |delays| < TWO64
    requires n <= Allowed(c, |delays|)
    ensures var (d, now) := LeftAlone(c, t0, delays, n); Accounted(c, t0, delays, n, d, now)
  {
    if n == 0 {
      assert delays[..0] == [];
      assert Late(c, t0, delays, 0) == {};
    } else {
      LeftAloneAccounted(c, t0, delays, n - 1);
      var (d, now) := LeftAlone(c, t0, delays, n - 1);
      AccountedStep(c, t0, delays, n - 1, d, now);
    }
  }

  class RateClock {
    var start: int
    var rate: Uint64
    var stop: Uint64
    var offset: Uint64
    var stats: RateStats

    ghost function Abs(phase: Phase): Clock
      reads this
    {
      Clock(start, rate, stop, offset, stats, phase)
    }

    /** `init` and `Start`. */
    constructor (now: int, rate: Uint64, count: Uint64)
      ensures Abs(Head) == Started(now, rate, count, RateStats(0, 0, 0))
    {
      this.stats := RateStats(0, 0, 0);
      this.start, this.rate, this.stop, this.offset := now, rate, count, 0;
    }

    method SetRate(now: int, rate: Uint64, count: Uint64)
      modifies this
      ensures forall phase :: Abs(phase) == Set(old(Abs(phase)), now, rate, count)
    {
      this.start := now;
      this.rate := rate;
      this.stop := count;
      this.offset := 0;
    }

    method StopClock()
      modifies this
      ensures forall phase :: Abs(phase) == Stop(old(Abs(phase)))
    {
      stop := offset;
    }

    /** The body of `run` up to the offer of the tick, started at `now`. */
    method Sleep(now: int) returns (due: int)
      requires Running(Abs(Head))
      modifies this`stats
      ensures Abs(Pending(due)) == Schedule(old(Abs(Head)), now)
    {
      due := now;
      if rate != 0 {
        var targetClock := QuoTrunc(Int64(Int64(offset) * SECOND), Int64(rate));
        var currentClock := now - start;
        var skew := targetClock - currentClock;
        if skew > 0 {
          due := now + skew;
          stats := stats.(sleepDuration := stats.sleepDuration + skew);
        } else {
          stats := stats.(underrunCount := Add64(stats.underrunCount, 1));
        }
      }
    }

    /** The test of `run`'s loop, and its body up to the offer of the tick. */
    method TurnHead(now: int) returns (phase: Phase)
      modifies this`stats
      ensures Abs(phase) == Schedule(old(Abs(Head)), now)
    {
      if stop == 0 || offset < stop {
        var due := Sleep(now);
        phase := Pending(due);
      } else {
        phase := Closed;
      }
    }

    /** The rest of the body: the tick has been received. */
    method Received()
      modifies this`stats, this`offset
      ensures forall due :: Abs(Head) == Deliver(old(Abs(Pending(due))))
    {
      stats := stats.(count := Add64(stats.count, 1));
      offset := Add64(offset, 1);
    }

    /** The sender clears the statistics it shares with the clock after reporting them. */
    method ResetStats()
      modifies this`stats
      ensures forall phase :: Abs(phase) == old(Abs(phase)).(stats := RateStats(0, 0, 0))
    {
      stats := RateStats(0, 0, 0);
    }

    /** `RateClock.run` left alone: tick k is received `delays[k]` after its release. */
    method Run(t0: int, delays: seq<nat>) returns (releases: seq<int>, closed: bool)
      requires offset + |delays| < TWO64 && stats.underrunCount + |delays| < TWO64 && stats.count + |delays| < TWO64
      modifies this
      ensures |releases| == Allowed(old(Abs(Head)), |delays|)
      ensures closed == !Running(Abs(Head))
      ensures forall k :: 0 <= k < |releases| ==> releases[k] == ReleaseAt(old(Abs(Head)), t0, delays, k)
      ensures exists now :: Accounted(old(Abs(Head)), t0, delays, |releases|, Abs(Head), now)
    {
      releases := [];
      ghost var c := Abs(Head);
      var now := t0;
      LeftAloneAccounted(c, t0, delays, 0);
      while (stop == 0 || offset < stop) && |releases| < |delays|
        invariant |releases| <= Allowed(c, |delays|)
        invariant Accounted(c, t0, delays, |releases|, Abs(Head), now)
        invariant forall k :: 0 <= k < |releases| ==> releases[k] == ReleaseAt(c, t0, delays, k)
        decreases |delays| - |releases|
      {
        AccountedStep(c, t0, delays, |releases|, Abs(Head), now);
        var due := Sleep(now);
        Received();
        now := due + delays[|releases|];
        releases := releases + [due];
      }
      closed := !(stop == 0 || offset < stop);
    }
  }
}
