/** The ICMP pinger's table of echo requests in flight (icmp/ping.go). Sequence numbers have 16 bits
    (RFC 792, "Echo or Echo Reply Message"). */
module Icmp {
  import opened Wrappers

  const WRAP := 0x1_0000

  /** A request as it was sent: at which tick, and when. */
  datatype Ping = Ping(tick: nat, time: int)

  datatype PingStats = PingStats(sent: Ping, recvTime: int)

  datatype Event =
    | Tick(time: int, ok: bool)             // the timer, and whether `Send` succeeded
    | Recv(seqNo: nat, time: int)
    | Push                                  // always rejected
    | Closed                                // the receiver's or the configuration's channel

  datatype State = State(
    ticks: nat,
    seqNo: nat,
    packets: map<nat, Ping>,
    stats: seq<PingStats>,
    sent: nat,
    overwritten: seq<Ping>,
    done: bool)

  const START := State(0, 0, map[], [], 0, [], false)

  function Next(s: State, e: Event): State {
    if s.done then s else
    match e
    case Tick(time, ok) =>
      var n, p := (s.seqNo + 1) % WRAP, Ping(s.ticks + 1, time);
      if !ok then s.(ticks := s.ticks + 1, seqNo := n)
      else s.(ticks := s.ticks + 1, seqNo := n, packets := s.packets[n := p], sent := s.sent + 1,
              overwritten := if n in s.packets then s.overwritten + [s.packets[n]] else s.overwritten)
    case Recv(seqNo, time) =>
      if seqNo in s.packets
      then s.(packets := s.packets - {seqNo}, stats := s.stats + [PingStats(s.packets[seqNo], time)])
      else s
    case Push => s
    case Closed => s.(done := true)
  }

  function After(events: seq<Event>): State {
    if events == [] then START
    else
      var n := |events| - 1;
      Next(After(events[..n]), events[n])
  }

  /** Every successful request was matched once, or is in flight, or was overwritten. */
  predicate Accounted(s: State) {
    s.sent == |s.stats| + |s.packets| + |s.overwritten|
  }

  /** What is in flight under a number was sent with that number; what was overwritten was sent a whole
      wrap earlier. */
  ghost predicate Numbered(s: State) {
    && s.seqNo == s.ticks % WRAP
    && (forall n :: n in s.packets ==> s.packets[n].tick <= s.ticks && s.packets[n].tick % WRAP == n)
    && (forall p :: p in s.overwritten ==> p.tick + WRAP <= s.ticks)
  }

  lemma Put(m: map<nat, Ping>, n: nat, p: Ping)
    ensures |m[n := p]| == if n in m then |m| else |m| + 1
  {
    assert m[n := p].Keys == m.Keys + {n};
    assert |m.Keys| == |m| && |m[n := p].Keys| == |m[n := p]|;
  }

  lemma Removed(m: map<nat, Ping>, n: nat)
    requires n in m
    ensures |m - {n}| == |m| - 1
  {
    assert (m - {n}).Keys == m.Keys - {n};
    assert |m.Keys| == |m| && |(m - {n}).Keys| == |m - {n}|;
  }

  lemma AccountedStep(s: State, e: Event)
    requires Accounted(s)
    ensures Accounted(Next(s, e))
  {
    if e.Tick? {
      Put(s.packets, (s.seqNo + 1) % WRAP, Ping(s.ticks + 1, e.time));
    } else if e.Recv? && e.seqNo in s.packets {
      Removed(s.packets, e.seqNo);
    }
  }

  /** Two different ticks with the same number are a whole wrap apart. */
  lemma WrapApart(a: nat, b: nat)
    requires a < b && a % WRAP == b % WRAP
    ensures a + WRAP <= b
  {
    assert (b - a) % WRAP == 0;
  }

  lemma NumberedStep(s: State, e: Event)
    requires Numbered(s)
    ensures Numbered(Next(s, e))
  {
    if e.Tick? && e.ok && (s.seqNo + 1) % WRAP in s.packets {
      WrapApart(s.packets[(s.seqNo + 1) % WRAP].tick, s.ticks + 1);
    }
  }

  lemma {:induction false} EveryPingAccounted(events: seq<Event>)
    ensures Accounted(After(events)) && Numbered(After(events))
  {
    if events != [] {
      var n := |events| - 1;
      EveryPingAccounted(events[..n]);
      AccountedStep(After(events[..n]), events[n]);
      NumberedStep(After(events[..n]), events[n]);
    }
  }

  lemma OverwrittenLate(s: State)
    requires Numbered(s) && forall p :: p in s.overwritten ==> p.tick > 0
    ensures s.overwritten != [] ==> s.ticks > WRAP
  {
    if s.overwritten != [] {
      assert s.overwritten[0] in s.overwritten;
    }
  }

  /** Before the first wrap nothing is overwritten: every successful request is matched or in flight. */
  lemma NoneLostBeforeWrap(events: seq<Event>)
    requires After(events).ticks <= WRAP
    ensures var s := After(events); s.sent == |s.stats| + |s.packets|
  {
    EveryPingAccounted(events);
    FirstTick(events);
    OverwrittenLate(After(events));
  }

  lemma {:induction false} FirstTick(events: seq<Event>)
    ensures var s := After(events);
      (forall n :: n in s.packets ==> s.packets[n].tick > 0) && (forall p :: p in s.overwritten ==> p.tick > 0)
  {
    if events != [] {
      FirstTick(events[..|events| - 1]);
    }
  }

  // What is in flight and what was matched, by the events.

  function TicksIn(events: seq<Event>): nat {
    if events == [] then 0
    else TicksIn(events[..|events| - 1]) + if events[|events| - 1].Tick? then 1 else 0
  }

  function Successes(events: seq<Event>): nat {
    if events == [] then 0
    else
      var e := events[|events| - 1];
      Successes(events[..|events| - 1]) + if e.Tick? && e.ok then 1 else 0
  }

  /** The last request that was sent with this number, if no reply has come since. */
  function InFlight(events: seq<Event>, n: nat): Option<Ping> {
    if events == [] then None
    else
      var before := events[..|events| - 1];
      match events[|events| - 1]
      case Tick(time, ok) =>
        if ok && TicksIn(events) % WRAP == n then Some(Ping(TicksIn(events), time)) else InFlight(before, n)
      case Recv(seqNo, _) => if seqNo == n then None else InFlight(before, n)
      case _ => InFlight(before, n)
  }

  /** The replies that found their request, each with the one that was in flight under its number. */
  function Matched(events: seq<Event>): seq<PingStats> {
    if events == [] then []
    else
      var before, e := events[..|events| - 1], events[|events| - 1];
      Matched(before)
      + if e.Recv? && InFlight(before, e.seqNo).Some? then [PingStats(InFlight(before, e.seqNo).value, e.time)] else []
  }

  predicate Has(packets: map<nat, Ping>, n: nat, p: Option<Ping>) {
    (n in packets <==> p.Some?) && (n in packets ==> packets[n] == p.value)
  }

  ghost predicate TellsAll(s: State, events: seq<Event>) {
    && !s.done && s.ticks == TicksIn(events) && s.seqNo == TicksIn(events) % WRAP && s.sent == Successes(events)
    && s.stats == Matched(events)
    && forall n :: Has(s.packets, n, InFlight(events, n))
  }

  lemma NextNumber(ticks: nat)
    ensures (ticks % WRAP + 1) % WRAP == (ticks + 1) % WRAP
  {
  }

  lemma TellsStep(s: State, events: seq<Event>, e: Event)
    requires TellsAll(s, events) && !e.Closed?
    ensures TellsAll(Next(s, e), events + [e])
  {
    assert (events + [e])[..|events|] == events;
    NextNumber(TicksIn(events));
    if e.Recv? {
      assert Has(s.packets, e.seqNo, InFlight(events, e.seqNo));
    }
    forall n
      ensures Has(Next(s, e).packets, n, InFlight(events + [e], n))
    {
      assert Has(s.packets, n, InFlight(events, n));
    }
  }

  /** Until a channel is closed, what is in flight under a number is the last request with it that was not
      answered, and every statistic pairs a reply with the request that was in flight. */
  lemma {:induction false} PingsTell(events: seq<Event>)
    requires Closed !in events
    ensures TellsAll(After(events), events)
  {
    if events != [] {
      var n := |events| - 1;
      PingsTell(events[..n]);
      assert events[..n] + [events[n]] == events && events[n] in events;
      TellsStep(After(events[..n]), events[..n], events[n]);
    }
  }

  /** After that nothing happens. */
  lemma {:induction false} ClosedEnds(events: seq<Event>, i: nat)
    requires i < |events| && events[i].Closed? && Closed !in events[..i]
    ensures After(events) == After(events[..i]).(done := true)
  {
    PingsTell(events[..i]);
    assert events[..i + 1][..i] == events[..i];
    StaysDone(events, i + 1);
  }

  class Pinger {
    var packets: map<nat, Ping>
    var stats: seq<PingStats>

    constructor ()
      ensures packets == map[] && stats == []
    {
      packets, stats := map[], [];
    }

    /** `Pinger.Run`. */
    method Run(events: seq<Event>)
      requires packets == map[] && stats == []
      modifies this
      ensures packets == After(events).packets && stats == After(events).stats
    {
      var seqNo: nat, ticks: nat := 0, 0;
      var i := 0;
      while i < |events|
        invariant 0 <= i <= |events|
        invariant var s := After(events[..i]);
          !s.done && s.packets == packets && s.stats == stats && s.seqNo == seqNo && s.ticks == ticks
      {
        assert events[..i + 1][..i] == events[..i];
        match events[i] {
          case Tick(time, ok) =>
            seqNo, ticks := (seqNo + 1) % WRAP, ticks + 1;
            if ok {
              packets := packets[seqNo := Ping(ticks, time)];
            }
          case Recv(n, time) =>
            if n in packets {
              var sent := packets[n];
              packets := packets - {n};
              stats := stats + [PingStats(sent, time)];
            }
          case Push =>
          case Closed =>
            StaysDone(events, i + 1);
            return;
        }
        i := i + 1;
      }
      assert events[..i] == events;
    }
  }

  lemma {:induction false} StaysDone(events: seq<Event>, i: nat)
    requires i <= |events| && After(events[..i]).done
    ensures After(events) == After(events[..i])
    decreases |events| - i
  {
    if i == |events| {
      assert events[..i] == events;
    } else {
      assert events[..i + 1][..i] == events[..i];
      StaysDone(events, i + 1);
    }
  }
}
