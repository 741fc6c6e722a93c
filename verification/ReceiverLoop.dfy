/** `Recv.Run` (udp/recv.go:146): many senders at once, and the statistics timer. */
module ReceiverLoop {
  import opened Words
  import opened Wire
  import opened Receiver
  import opened Wrappers

  datatype Event = Received(packet: Packet, now: int) | StatsTick(now: int, next: int)

  /** What became of one sender ID: its finished lifetimes, and the current one. */
  datatype Track = Track(done: seq<Life>, cur: Option<Life>)

  function Advance(t: Track, id: ID, e: Event): Track {
    match e
    case Received(p, now) =>
      if p.payload.id != id then t
      else if t.cur.None? then t.(cur := Some(Life(id, p.payload.seqNo, p.payloadSize, now, [])))
      else
        var l := t.cur.value;
        t.(cur := Some(l.(steps := l.steps + [Arrive(p.payload.seqNo, p.payloadSize, now)])))
    case StatsTick(now, next) =>
      if t.cur.None? then t
      else
        var l := t.cur.value;
        if Alive(StateOf(l)) then t.(cur := Some(l.(steps := l.steps + [Take(now, next)])))
        else Track(t.done + [l], None)
  }

  function TrackOf(events: seq<Event>, id: ID): Track {
    if events == [] then Track([], None)
    else Advance(TrackOf(events[..|events| - 1], id), id, events[|events| - 1])
  }

  function LivesReports(lives: seq<Life>): seq<RecvStats> {
    if lives == [] then [] else LivesReports(lives[..|lives| - 1]) + Reports(lives[|lives| - 1])
  }

  /** All windows a track has reported, over all its lifetimes. */
  function TrackReports(t: Track): seq<RecvStats> {
    LivesReports(t.done) + if t.cur.Some? then Reports(t.cur.value) else []
  }

  /** The reports in `sent` that are about `id`. */
  function About(sent: seq<RecvStats>, id: ID): seq<RecvStats> {
    if sent == [] then []
    else
      var r := sent[|sent| - 1];
      About(sent[..|sent| - 1], id) + if r.id == id then [r] else []
  }

  lemma AboutAppend(sent: seq<RecvStats>, r: RecvStats, id: ID)
    ensures About(sent + [r], id) == About(sent, id) + if r.id == id then [r] else []
  {
    assert (sent + [r])[..|sent|] == sent;
  }

  ghost predicate GoodLife(l: Life, id: ID) {
    l.id == id && WellTimed(l)
  }

  ghost predicate GoodTrack(t: Track, id: ID) {
    && (forall i :: 0 <= i < |t.done| ==> GoodLife(t.done[i], id) && !Alive(StateOf(t.done[i])))
    && (t.cur.Some? ==> GoodLife(t.cur.value, id))
  }

  lemma AdvanceSteps(l: Life, s: Step)
    ensures l.(steps := l.steps + [s]).Before() == l
    ensures l.(steps := l.steps + [s]).Last() == s
  {
    assert (l.steps + [s])[..|l.steps|] == l.steps;
  }

  /** What an event is to a live state under its ID. */
  function StepOf(e: Event): Step {
    match e
    case Received(p, now) => Arrive(p.payload.seqNo, p.payloadSize, now)
    case StatsTick(now, next) => Take(now, next)
  }

  /** Whatever arrives, every lifetime belongs to its ID, takes statistics only when alive, and
      ends only after a window without progress. */
  lemma {:induction false} TracksAreGood(events: seq<Event>, id: ID)
    ensures GoodTrack(TrackOf(events, id), id)
  {
    if events != [] {
      TracksAreGood(events[..|events| - 1], id);
      var t := TrackOf(events[..|events| - 1], id);
      if t.cur.Some? {
        AdvanceSteps(t.cur.value, StepOf(events[|events| - 1]));
      }
    }
  }

  // Lifetimes, by the events.

  /** The packets of one ID, as steps. */
  function Told(events: seq<Event>, id: ID): seq<Step> {
    if events == [] then []
    else
      var e := events[|events| - 1];
      Told(events[..|events| - 1], id) + if e.Received? && e.packet.payload.id == id then [StepOf(e)] else []
  }

  function ArrivesIn(steps: seq<Step>): seq<Step> {
    if steps == [] then []
    else
      var s := steps[|steps| - 1];
      ArrivesIn(steps[..|steps| - 1]) + if s.Arrive? then [s] else []
  }

  /** The packets of one lifetime. */
  function Heard(l: Life): seq<Step> {
    [Arrive(l.first, l.size, l.created)] + ArrivesIn(l.steps)
  }

  function HeardBy(lives: seq<Life>): seq<Step> {
    if lives == [] then [] else HeardBy(lives[..|lives| - 1]) + Heard(lives[|lives| - 1])
  }

  function Lives(t: Track): seq<Life> {
    t.done + if t.cur.Some? then [t.cur.value] else []
  }

  lemma HeardMore(l: Life, s: Step)
    ensures Heard(l.(steps := l.steps + [s])) == Heard(l) + if s.Arrive? then [s] else []
  {
    assert (l.steps + [s])[..|l.steps|] == l.steps;
  }

  lemma HeardEnd(done: seq<Life>, l: Life)
    ensures HeardBy(done + [l]) == HeardBy(done) + Heard(l)
  {
    assert (done + [l])[..|done|] == done;
  }

  lemma AdvanceHears(t: Track, id: ID, e: Event)
    ensures HeardBy(Lives(Advance(t, id, e))) ==
      if e.Received? && e.packet.payload.id == id then HeardBy(Lives(t)) + [StepOf(e)] else HeardBy(Lives(t))
  {
    var u, done := Advance(t, id, e), HeardBy(t.done);
    if t.cur.Some? {
      var l := t.cur.value;
      HeardEnd(t.done, l);
      if u.cur.Some? {
        HeardEnd(t.done, u.cur.value);
        HeardMore(l, StepOf(e));
        assert (done + Heard(l)) + [StepOf(e)] == done + (Heard(l) + [StepOf(e)]);
        assert Heard(l) + [] == Heard(l);
      } else {
        assert Lives(u) == t.done + [l];
      }
    } else {
      assert Lives(t) == t.done;
      if u.cur.Some? {
        HeardEnd(t.done, u.cur.value);
        assert Heard(u.cur.value) == [StepOf(e)];
      }
    }
  }

  /** Each packet of an ID is heard in exactly one of its lifetimes, in order. */
  lemma {:induction false} TracksHear(events: seq<Event>, id: ID)
    ensures HeardBy(Lives(TrackOf(events, id))) == Told(events, id)
  {
    if events != [] {
      TracksHear(events[..|events| - 1], id);
      AdvanceHears(TrackOf(events[..|events| - 1], id), id, events[|events| - 1]);
    }
  }

  /** What the events are to a state under this ID, from the moment it exists. */
  function StepsIn(events: seq<Event>, id: ID): seq<Step> {
    if events == [] then []
    else
      var e := events[|events| - 1];
      StepsIn(events[..|events| - 1], id)
      + if e.StatsTick? || e.packet.payload.id == id then [StepOf(e)] else []
  }

  /** The current lifetime has every packet of its ID and every tick since the packet that began it. */
  lemma {:induction false} CurrentLife(events: seq<Event>, id: ID) returns (a: nat)
    requires TrackOf(events, id).cur.Some?
    ensures a < |events| && events[a].Received? && events[a].packet.payload.id == id
    ensures var Received(p, now) := events[a];
      TrackOf(events, id).cur.value == Life(id, p.payload.seqNo, p.payloadSize, now, StepsIn(events[a + 1..], id))
  {
    var n := |events| - 1;
    if TrackOf(events[..n], id).cur.None? {
      a := n;
      assert events[a + 1..] == [];
    } else {
      a := CurrentLife(events[..n], id);
      assert events[a + 1..][..n - a - 1] == events[..n][a + 1..];
    }
  }

  /** And an earlier one was the current one when the tick came that ended it. */
  lemma {:induction false} EndedLife(events: seq<Event>, id: ID, i: nat) returns (b: nat)
    requires i < |TrackOf(events, id).done|
    ensures b < |events| && events[b].StatsTick?
    ensures TrackOf(events[..b], id) == Track(TrackOf(events, id).done[..i], Some(TrackOf(events, id).done[i]))
  {
    var n := |events| - 1;
    if i < |TrackOf(events[..n], id).done| {
      b := EndedLife(events[..n], id, i);
      assert events[..n][..b] == events[..b];
    } else {
      b := n;
    }
  }

  // Times.

  /** When the last event was over. */
  function EndOf(events: seq<Event>): int
    requires events != []
  {
    var e := events[|events| - 1];
    if e.StatsTick? then e.next else e.now
  }

  /** Time passes. */
  predicate Passing(events: seq<Event>) {
    events != [] ==>
      var before, e := events[..|events| - 1], events[|events| - 1];
      && Passing(before) && (before != [] ==> EndOf(before) <= e.now)
      && (e.StatsTick? ==> e.now <= e.next)
  }

  ghost predicate InOrder(t: Track, events: seq<Event>) {
    && (forall i :: 0 <= i < |t.done| ==> Ordered(t.done[i]))
    && (t.cur.Some? ==> Ordered(t.cur.value) && events != [] && LastTime(t.cur.value) <= EndOf(events))
  }

  /** So are all lifetimes in order of time, and with `WindowsInTime` their windows. */
  lemma {:induction false} TracksInOrder(events: seq<Event>, id: ID)
    requires Passing(events)
    ensures InOrder(TrackOf(events, id), events)
  {
    if events != [] {
      var before, e := events[..|events| - 1], events[|events| - 1];
      TracksInOrder(before, id);
      var t := TrackOf(before, id);
      if t.cur.Some? {
        AdvanceSteps(t.cur.value, StepOf(e));
      }
    }
  }

  /** The effect of one event on one track's state and reports. */
  lemma AdvanceEffect(t: Track, id: ID, e: Event)
    requires GoodTrack(t, id)
    ensures var u := Advance(t, id, e);
      match e
      case Received(p, now) =>
        && TrackReports(u) == TrackReports(t)
        && (p.payload.id != id ==> u == t)
        && (p.payload.id == id ==>
            && u.cur.Some?
            && StateOf(u.cur.value) == (if t.cur.None? then MakeState(p.payload, now)
                                        else Handle(StateOf(t.cur.value), p.payload.seqNo, p.payloadSize, now)))
      case StatsTick(now, next) =>
        if t.cur.Some? && Alive(StateOf(t.cur.value)) then
          && u.cur.Some? && StateOf(u.cur.value) == Reset(StateOf(t.cur.value), next)
          && TrackReports(u) == TrackReports(t) + [Taken(StateOf(t.cur.value), now)]
        else
          u.cur.None? && TrackReports(u) == TrackReports(t)
  {
    if t.cur.Some? {
      var l := t.cur.value;
      AdvanceSteps(l, StepOf(e));
      assert (t.done + [l])[..|t.done|] == t.done;
    }
  }

  lemma StateIds(events: seq<Event>, id: ID)
    ensures var t := TrackOf(events, id);
      t.cur.Some? ==> StateOf(t.cur.value).id == StateOf(t.cur.value).stats.id == id
  {
    TracksAreGood(events, id);
    var t := TrackOf(events, id);
    if t.cur.Some? {
      Conservation(t.cur.value);
    }
  }

  // The receiver's table. Each state knows its own ID, so no two keys share a state.

  ghost predicate Keyed(states: map<ID, RecvState>) {
    forall id :: id in states ==> states[id].id == id
  }

  ghost function View(states: map<ID, RecvState>): map<ID, State>
    reads states.Values
  {
    map id | id in states :: states[id].Abs()
  }

  function OwnWindow(view: map<ID, State>, id: ID, now: int): seq<RecvStats> {
    if id in view && Alive(view[id]) then [Taken(view[id], now)] else []
  }

  /** The table after a tick: idle states are gone, the others start a new window. */
  function AfterTick(view: map<ID, State>, next: int): map<ID, State> {
    map id | id in view && Alive(view[id]) :: Reset(view[id], next)
  }

  /** `sent` extends `sent0` by the live windows of exactly the IDs no longer in `todo`. */
  ghost predicate Reported(sent0: seq<RecvStats>, sent: seq<RecvStats>, view: map<ID, State>, todo: set<ID>, now: int) {
    forall id :: About(sent, id) == About(sent0, id) + if id in todo then [] else OwnWindow(view, id, now)
  }

  lemma ReportedOne(sent: seq<RecvStats>, view: map<ID, State>, id: ID, other: ID, now: int)
    requires id in view && view[id].stats.id == id
    ensures About(sent + OwnWindow(view, id, now), other)
            == About(sent, other) + if other == id then OwnWindow(view, id, now) else []
  {
    if Alive(view[id]) {
      AboutAppend(sent, Taken(view[id], now), other);
    } else {
      assert sent + [] == sent;
    }
  }

  lemma ReportedMore(sent0: seq<RecvStats>, sent: seq<RecvStats>, view: map<ID, State>, todo: set<ID>, id: ID,
                     now: int)
    requires Reported(sent0, sent, view, todo, now) && id in todo
    requires id in view && view[id].stats.id == id
    ensures Reported(sent0, sent + OwnWindow(view, id, now), view, todo - {id}, now)
  {
    forall other {
      ReportedOne(sent, view, id, other, now);
    }
  }

  /** The table half way through a tick: the IDs in `todo` have not been visited. */
  function MidTick(view: map<ID, State>, todo: set<ID>, next: int): map<ID, State> {
    map id | id in view && (id in todo || Alive(view[id])) :: if id in todo then view[id] else Reset(view[id], next)
  }

  /** One turn of the timer's loop over the table. */
  method ReportOne(states0: map<ID, RecvState>, sent0: seq<RecvStats>, id: ID, now: int, next: int)
    returns (states: map<ID, RecvState>, sent: seq<RecvStats>)
    requires Keyed(states0) && id in states0
    modifies states0[id]
    ensures states == if old(Alive(states0[id].Abs())) then states0 else states0 - {id}
    ensures View(states) == if old(Alive(states0[id].Abs()))
                            then old(View(states0)[id := Reset(states0[id].Abs(), next)])
                            else old(View(states0)) - {id}
    ensures sent == sent0 + OwnWindow(old(View(states0)), id, now)
  {
    states, sent := states0, sent0;
    if states[id].stats.packetSeq > states[id].stats.packetStart {
      var taken := states[id].TakeStats(now, next);
      sent := sent + [taken];
    } else {
      states := states - {id};
      assert sent + [] == sent;
    }
  }

  lemma MidTickStep(view: map<ID, State>, todo: set<ID>, id: ID, next: int)
    requires id in todo && id in view
    ensures id in MidTick(view, todo, next) && MidTick(view, todo, next)[id] == view[id]
    ensures MidTick(view, todo - {id}, next) ==
      if Alive(view[id]) then MidTick(view, todo, next)[id := Reset(view[id], next)]
      else MidTick(view, todo, next) - {id}
  {
  }

  /** The statistics timer, for any order of the map iteration. */
  method ReportAll(states0: map<ID, RecvState>, sent0: seq<RecvStats>, now: int, next: int)
    returns (states: map<ID, RecvState>, sent: seq<RecvStats>)
    requires Keyed(states0) && forall id :: id in states0 ==> states0[id].stats.id == id
    modifies states0.Values
    ensures states.Keys <= states0.Keys && forall id :: id in states ==> states[id] == states0[id]
    ensures View(states) == AfterTick(old(View(states0)), next)
    ensures Reported(sent0, sent, old(View(states0)), {}, now)
  {
    states, sent := states0, sent0;
    ghost var v0 := View(states0);
    var todo := states0.Keys;
    assert MidTick(v0, todo, next) == v0;
    while todo != {}
      invariant todo <= states.Keys <= states0.Keys
      invariant forall id :: id in states ==> states[id] == states0[id]
      invariant View(states) == MidTick(v0, todo, next)
      invariant Reported(sent0, sent, v0, todo, now)
      decreases todo
    {
      var id :| id in todo;
      ReportedMore(sent0, sent, v0, todo, id, now);
      MidTickStep(v0, todo, id, next);
      states, sent := ReportOne(states, sent, id, now, next);
      todo := todo - {id};
    }
    assert MidTick(v0, {}, next) == AfterTick(v0, next);
  }

  ghost predicate Follows(view: map<ID, State>, sent: seq<RecvStats>, events: seq<Event>, id: ID) {
    var t := TrackOf(events, id);
    && (id in view <==> t.cur.Some?)
    && (id in view ==> view[id] == StateOf(t.cur.value))
    && About(sent, id) == TrackReports(t)
  }

  lemma FollowsTick(view: map<ID, State>, sent: seq<RecvStats>, sent': seq<RecvStats>, events: seq<Event>, id: ID,
                    now: int, next: int)
    requires Follows(view, sent, events, id)
    requires About(sent', id) == About(sent, id) + OwnWindow(view, id, now)
    ensures Follows(AfterTick(view, next), sent', events + [StatsTick(now, next)], id)
  {
    assert (events + [StatsTick(now, next)])[..|events|] == events;
    TracksAreGood(events, id);
    AdvanceEffect(TrackOf(events, id), id, StatsTick(now, next));
  }

  /** The table after a packet. */
  function AfterPacket(view: map<ID, State>, p: Packet, now: int): map<ID, State> {
    var id := p.payload.id;
    view[id := if id in view then Handle(view[id], p.payload.seqNo, p.payloadSize, now) else MakeState(p.payload, now)]
  }

  lemma FollowsPacket(view: map<ID, State>, sent: seq<RecvStats>, events: seq<Event>, p: Packet, now: int, id: ID)
    requires Follows(view, sent, events, id)
    ensures Follows(AfterPacket(view, p, now), sent, events + [Received(p, now)], id)
  {
    assert (events + [Received(p, now)])[..|events|] == events;
    TracksAreGood(events, id);
    AdvanceEffect(TrackOf(events, id), id, Received(p, now));
  }

  /** The receiver's main loop over a sequence of packets and ticks. For every sender ID, whatever
      the other senders do and in whatever order the table is walked, the table holds the state of
      the ID's current lifetime, and the reports about it are those of all its lifetimes in turn. */
  method Run(events: seq<Event>) returns (sent: seq<RecvStats>, live: map<ID, State>)
    ensures forall id :: Follows(live, sent, events, id)
  {
    var recvStates: map<ID, RecvState> := map[];
    sent, live := [], map[];
    for i := 0 to |events|
      invariant Keyed(recvStates) && forall id :: id in recvStates ==> fresh(recvStates[id])
      invariant live == View(recvStates)
      invariant forall id :: Follows(live, sent, events[..i], id)
    {
      ghost var seen := events[..i];
      assert events[..i + 1] == seen + [events[i]];
      match events[i]
      case Received(packet, now) => {
        var id := packet.payload.id;
        if id !in recvStates {
          var created := new RecvState(packet, now);
          recvStates := recvStates[id := created];
        } else {
          recvStates[id].HandlePacket(packet, now);
        }
        ghost var view := live;
        forall id {
          FollowsPacket(view, sent, seen, packet, now, id);
        }
        live := live[id := State(recvStates[id].id, recvStates[id].seqNo, recvStates[id].stats)];
        assert live == AfterPacket(view, packet, now);
      }
      case StatsTick(now, next) => {
        forall id
          ensures id in recvStates ==> recvStates[id].stats.id == id
        {
          StateIds(seen, id);
          assert Follows(live, sent, seen, id);
          assert id in recvStates ==> live[id] == recvStates[id].Abs();
        }
        ghost var view, before := live, sent;
        recvStates, sent := ReportAll(recvStates, sent, now, next);
        forall id
          ensures Follows(AfterTick(view, next), sent, seen + [StatsTick(now, next)], id)
        {
          assert Follows(view, before, seen, id);
          FollowsTick(view, before, sent, seen, id, now, next);
        }
        live := map id | id in live && Alive(live[id]) :: Reset(live[id], next);
      }
    }
    assert events[..|events|] == events;
  }
}
