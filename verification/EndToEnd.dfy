/** A sender, a network that loses, repeats and reorders datagrams but never invents one, other
    traffic under other IDs, and a receiver. */
module EndToEnd {
  import opened Words
  import opened Wire
  import S = Sender
  import opened Receiver
  import opened ReceiverLoop
  import opened Wrappers

  const PACKET_MTU := 1500

  datatype World = World(
    sender: S.State,
    wire: seq<seq<Byte>>,    // every datagram ever put on the network
    sent: seq<Uint64>,       // sequence numbers of the sender's successful sends
    heard: seq<Event>)       // what the receiver's loop has seen

  datatype Action =
    | Sending(e: S.Event)
    | Stranger(datagram: seq<Byte>)   // someone else sends
    | Arriving(k: nat, now: int)      // a datagram arrives: any one, any number of times, or never
    | Ticking(now: int, next: int)    // the receiver's statistics timer

  function Start(sender: S.State): World {
    World(sender, [], [], [])
  }

  predicate Possible(w: World, a: Action) {
    match a
    case Sending(e) => S.Enabled(w.sender, e)
    case Stranger(b) => Decode(b).Some? ==> Decode(b).value.id != w.sender.id
    case Arriving(k, _) => k < |w.wire|
    case Ticking(_, _) => true
  }

  /** What is left of a datagram in the receive buffer. */
  function Cut(datagram: seq<Byte>): seq<Byte> {
    if |datagram| <= PACKET_MTU then datagram else datagram[..PACKET_MTU]
  }

  /** What `SockUDP.recv` makes of it; an undecodable one is dropped. */
  function Unpacked(datagram: seq<Byte>): Option<Packet> {
    match Decode(Cut(datagram))
    case Some(p) => Some(Packet(p, |Cut(datagram)|))
    case None => None
  }

  function After(w: World, a: Action): World {
    match a
    case Sending(e) =>
      var sender := S.Next(w.sender, e);
      if e.RateTick? && e.outcome.Sent? then
        var datagram := Encode(Payload(w.sender.id, w.sender.seqNo), w.sender.config.size);
        w.(sender := sender, wire := w.wire + [datagram], sent := w.sent + [w.sender.seqNo])
      else w.(sender := sender)
    case Stranger(b) => w.(wire := w.wire + [b])
    case Arriving(k, now) =>
      if k < |w.wire| && Unpacked(w.wire[k]).Some?
      then w.(heard := w.heard + [Received(Unpacked(w.wire[k]).value, now)])
      else w
    case Ticking(now, next) => w.(heard := w.heard + [StatsTick(now, next)])
  }

  predicate CanHappen(w: World, acts: seq<Action>) {
    acts == [] || (var n := |acts| - 1; CanHappen(w, acts[..n]) && Possible(AfterAll(w, acts[..n]), acts[n]))
  }

  function AfterAll(w: World, acts: seq<Action>): World {
    if acts == [] then w
    else
      var n := |acts| - 1;
      After(AfterAll(w, acts[..n]), acts[n])
  }

  // What is on the wire and what is heard, by the actions alone.

  function SendingsIn(acts: seq<Action>): seq<S.Event> {
    if acts == [] then []
    else
      var a := acts[|acts| - 1];
      SendingsIn(acts[..|acts| - 1]) + if a.Sending? then [a.e] else []
  }

  /** The action puts a packet on the wire. */
  predicate Success(a: Action) {
    a.Sending? && a.e.RateTick? && a.e.outcome.Sent?
  }

  /** The number of the packet that is sent after these actions. */
  function NumberAfter(acts: seq<Action>): Uint64 {
    S.Sends(SendingsIn(acts)) % TWO64
  }

  /** The numbers that were sent, in order. */
  function SentIn(acts: seq<Action>): seq<Uint64> {
    if acts == [] then []
    else
      var n := |acts| - 1;
      SentIn(acts[..n]) + if Success(acts[n]) then [NumberAfter(acts[..n])] else []
  }

  /** All datagrams: each of the sender's is its ID with the number, of the size last pushed. */
  function WireOf(id: ID, config: S.SendConfig, acts: seq<Action>): seq<seq<Byte>> {
    if acts == [] then []
    else
      var n := |acts| - 1;
      WireOf(id, config, acts[..n])
      + if Success(acts[n]) then
          [Encode(Payload(id, NumberAfter(acts[..n])), S.HeldSize(config, S.PushesIn(SendingsIn(acts[..n]))))]
        else if acts[n].Stranger? then [acts[n].datagram]
        else []
  }

  /** What an action brings the receiver, with this on the wire. */
  function Brings(wire: seq<seq<Byte>>, a: Action): seq<Event> {
    match a
    case Arriving(k, now) =>
      if k < |wire| && Decode(Cut(wire[k])).Some?
      then [Received(Packet(Decode(Cut(wire[k])).value, |Cut(wire[k])|), now)]
      else []
    case Ticking(now, next) => [StatsTick(now, next)]
    case _ => []
  }

  /** The arrivals and the ticks, in order. */
  function ArrivalsIn(wire: seq<seq<Byte>>, acts: seq<Action>): seq<Event> {
    if acts == [] then []
    else ArrivalsIn(wire, acts[..|acts| - 1]) + Brings(wire, acts[|acts| - 1])
  }

  /** A longer wire brings what was brought. */
  lemma {:induction false} ArrivalsStay(w: World, acts: seq<Action>, more: seq<seq<Byte>>)
    requires CanHappen(w, acts) && AfterAll(w, acts).wire <= more
    ensures ArrivalsIn(more, acts) == ArrivalsIn(AfterAll(w, acts).wire, acts)
  {
    if acts != [] {
      var n := |acts| - 1;
      var v := AfterAll(w, acts[..n]);
      WireGrows(v, acts[n]);
      ArrivalsStay(w, acts[..n], more);
      ArrivalsStay(w, acts[..n], AfterAll(w, acts).wire);
    }
  }

  lemma WireGrows(w: World, a: Action)
    ensures w.wire <= After(w, a).wire
  {
  }

  lemma HeardStep(w: World, a: Action)
    requires Possible(w, a)
    ensures After(w, a).heard == w.heard + Brings(w.wire, a)
    ensures !Success(a) && !a.Stranger? ==> After(w, a).wire == w.wire
    ensures Success(a) || a.Stranger? ==> Brings(w.wire, a) == Brings(After(w, a).wire, a) == []
  {
  }

  /** What was heard is what arrived: each datagram as it was put on the wire, at its time. */
  lemma {:induction false} HeardIsArrived(w0: World, acts: seq<Action>)
    requires w0.heard == [] && CanHappen(w0, acts)
    ensures AfterAll(w0, acts).heard == ArrivalsIn(AfterAll(w0, acts).wire, acts)
  {
    if acts != [] {
      var n := |acts| - 1;
      HeardIsArrived(w0, acts[..n]);
      var w := AfterAll(w0, acts[..n]);
      HeardStep(w, acts[n]);
      WireGrows(w, acts[n]);
      ArrivalsStay(w0, acts[..n], After(w, acts[n]).wire);
    }
  }

  lemma {:induction false} SenderRuns(s: S.State, acts: seq<Action>)
    requires CanHappen(Start(s), acts)
    ensures AfterAll(Start(s), acts).sender == S.AfterRun(s, SendingsIn(acts)) && S.CanRun(s, SendingsIn(acts))
  {
    if acts != [] {
      var n := |acts| - 1;
      SenderRuns(s, acts[..n]);
      var before := SendingsIn(acts[..n]);
      if acts[n].Sending? {
        assert (before + [acts[n].e])[..|before|] == before;
      } else {
        assert before + [] == before;
      }
    }
  }

  lemma SentStep(w: World, a: Action)
    ensures var t := After(w, a);
      if Success(a) then
        && t.sent == w.sent + [w.sender.seqNo]
        && t.wire == w.wire + [Encode(Payload(w.sender.id, w.sender.seqNo), w.sender.config.size)]
      else t.sent == w.sent && t.wire == w.wire + if a.Stranger? then [a.datagram] else []
  {
  }

  /** The sender after these actions: its ID, the next number and the size. */
  predicate SenderAt(s: S.State, id: ID, config: S.SendConfig, acts: seq<Action>) {
    && s.id == id && s.seqNo == NumberAfter(acts)
    && s.config.size == S.HeldSize(config, S.PushesIn(SendingsIn(acts)))
  }

  lemma {:induction false} IDStays(s: S.State, events: seq<S.Event>)
    ensures S.AfterRun(s, events).id == s.id
  {
    if events != [] {
      var n := |events| - 1;
      IDStays(s, events[..n]);
      S.StepShape(S.AfterRun(s, events[..n]), events[n]);
    }
  }

  lemma SenderThen(s: S.State, acts: seq<Action>)
    requires s.seqNo == 0 && s.send == S.NO_PACKETS && s.replies == [] && CanHappen(Start(s), acts)
    ensures SenderAt(AfterAll(Start(s), acts).sender, s.id, s.config, acts)
  {
    SenderRuns(s, acts);
    S.CountersTell(s, SendingsIn(acts));
    S.ConfigHeld(s, SendingsIn(acts));
    IDStays(s, SendingsIn(acts));
  }

  lemma WireStep(w: World, id: ID, config: S.SendConfig, before: seq<Action>, a: Action)
    requires w.wire == WireOf(id, config, before) && w.sent == SentIn(before) && SenderAt(w.sender, id, config, before)
    ensures After(w, a).wire == WireOf(id, config, before + [a]) && After(w, a).sent == SentIn(before + [a])
  {
    assert (before + [a])[..|before|] == before;
    SentStep(w, a);
  }

  /** And the wire has what was sent: the sender's packets under its ID, numbered as they were sent. */
  lemma {:induction false} WireIsSent(s: S.State, acts: seq<Action>)
    requires s.seqNo == 0 && s.send == S.NO_PACKETS && s.replies == [] && CanHappen(Start(s), acts)
    ensures AfterAll(Start(s), acts).wire == WireOf(s.id, s.config, acts)
    ensures AfterAll(Start(s), acts).sent == SentIn(acts)
  {
    if acts != [] {
      var n := |acts| - 1;
      WireIsSent(s, acts[..n]);
      SenderThen(s, acts[..n]);
      WireStep(AfterAll(Start(s), acts[..n]), s.id, s.config, acts[..n], acts[n]);
      assert acts[..n] + [acts[n]] == acts;
    }
  }

  // The network never invents.

  /** Everything under the sender's ID that is on the wire, or was heard, the sender sent. */
  ghost predicate Honest(w: World) {
    && (forall k :: 0 <= k < |w.wire| ==> HonestDatagram(w, w.wire[k]))
    && HeardOnly(w.heard, w.sender.id, w.sent)
  }

  ghost predicate HonestDatagram(w: World, b: seq<Byte>) {
    var packet := Unpacked(b);
    packet.Some? && packet.value.payload.id == w.sender.id ==> packet.value.payload.seqNo in w.sent
  }

  ghost predicate HeardOnly(events: seq<Event>, id: ID, sent: seq<Uint64>) {
    forall i :: 0 <= i < |events| && events[i].Received? && events[i].packet.payload.id == id
      ==> events[i].packet.payload.seqNo in sent
  }

  lemma SentDatagramHeard(p: Payload, size: nat)
    ensures var packet := Unpacked(Encode(p, size)); packet.Some? && packet.value.payload == p
  {
    var k := if BufferSize(size) <= PACKET_MTU then BufferSize(size) else PACKET_MTU;
    TruncatedRoundTrip(p, size, k);
    assert Encode(p, size)[..BufferSize(size)] == Encode(p, size);
  }

  lemma StrangerHeard(b: seq<Byte>)
    ensures Unpacked(b).Some? ==> Decode(b).Some? && Unpacked(b).value.payload == Decode(b).value
  {
    if |b| > PACKET_MTU {
      assert b[..PACKET_MTU][0..8] == b[0..8] && b[..PACKET_MTU][8..16] == b[8..16];
    }
  }

  lemma HonestStep(w: World, a: Action)
    requires Honest(w) && Possible(w, a)
    ensures Honest(After(w, a))
  {
    var v := After(w, a);
    match a
    case Sending(e) =>
      assert v.sender.id == w.sender.id;
      if e.RateTick? && e.outcome.Sent? {
        SentDatagramHeard(Payload(w.sender.id, w.sender.seqNo), w.sender.config.size);
        assert forall n :: n in w.sent ==> n in v.sent;
        assert w.sender.seqNo in v.sent;
        assert forall k | 0 <= k < |w.wire| :: v.wire[k] == w.wire[k] && HonestDatagram(w, w.wire[k]);
      }
    case Stranger(b) =>
      StrangerHeard(b);
      assert HonestDatagram(v, b);
      assert forall k | 0 <= k < |w.wire| :: v.wire[k] == w.wire[k] && HonestDatagram(w, w.wire[k]);
    case Arriving(k, _) =>
      assert HonestDatagram(w, w.wire[k]);
    case Ticking(_, _) =>
  }

  // The sender's own count of its successes.

  /** Successes were counted, one by one; the counters of its windows may have wrapped. */
  ghost predicate SuccessesCounted(w: World) {
    && S.Packets(w.sender) <= |w.sent|
    && (|w.sent| - S.Packets(w.sender)) % TWO64 == 0
  }

  lemma PacketsStep(s: S.State, e: S.Event)
    ensures var d := S.Packets(S.Next(s, e)) - S.Packets(s);
      if e.RateTick? && e.outcome.Sent? then d == 1 || d == 1 - TWO64 else d == 0
  {
    if e.StatsRead? {
      S.SumsAppend(s.reports, S.Window(s));
    } else {
      assert S.Next(s, e).reports == s.reports;
    }
  }

  lemma SuccessesStep(w: World, a: Action)
    requires SuccessesCounted(w)
    ensures SuccessesCounted(After(w, a))
  {
    if a.Sending? {
      PacketsStep(w.sender, a.e);
    }
  }

  lemma {:induction false} RunIsHonest(s: S.State, acts: seq<Action>)
    requires s.reports == [] && s.send == S.NO_PACKETS
    requires CanHappen(Start(s), acts)
    ensures var w := AfterAll(Start(s), acts); Honest(w) && SuccessesCounted(w) && w.sender.id == s.id
  {
    if acts != [] {
      var n := |acts| - 1;
      RunIsHonest(s, acts[..n]);
      HonestStep(AfterAll(Start(s), acts[..n]), acts[n]);
      SuccessesStep(AfterAll(Start(s), acts[..n]), acts[n]);
    }
  }

  // The receiver only counts what it heard.

  ghost predicate ArrivedOnly(t: Track, sent: seq<Uint64>) {
    forall i :: 0 <= i < |Lives(t)| ==> Within(Arrivals(Lives(t)[i]), sent)
  }

  ghost predicate Within(a: seq<Uint64>, sent: seq<Uint64>) {
    forall i :: 0 <= i < |a| ==> a[i] in sent
  }

  lemma ArrivalsMore(l: Life, step: Step, sent: seq<Uint64>)
    requires Within(Arrivals(l), sent) && (step.Arrive? ==> step.seqNo in sent)
    ensures Within(Arrivals(l.(steps := l.steps + [step])), sent)
  {
    AdvanceSteps(l, step);
  }

  lemma AdvanceArrivals(t: Track, id: ID, e: Event, sent: seq<Uint64>)
    requires ArrivedOnly(t, sent)
    requires e.Received? && e.packet.payload.id == id ==> e.packet.payload.seqNo in sent
    ensures ArrivedOnly(Advance(t, id, e), sent)
  {
    var u := Advance(t, id, e);
    if t.cur.Some? {
      assert Lives(t)[|t.done|] == t.cur.value;
      if e.StatsTick? || e.packet.payload.id == id {
        ArrivalsMore(t.cur.value, StepOf(e), sent);
      }
    }
    forall i | 0 <= i < |Lives(u)|
      ensures Within(Arrivals(Lives(u)[i]), sent)
    {
      if i < |t.done| {
        assert Lives(u)[i] == Lives(t)[i];
      }
    }
  }

  lemma {:induction false} TrackArrivals(events: seq<Event>, id: ID, sent: seq<Uint64>)
    requires HeardOnly(events, id, sent)
    ensures ArrivedOnly(TrackOf(events, id), sent)
  {
    if events != [] {
      var n := |events| - 1;
      TrackArrivals(events[..n], id, sent);
      AdvanceArrivals(TrackOf(events[..n], id), id, events[n], sent);
    }
  }

  /** The values of the first arrival and of the running maxima after it. */
  function Leaders(a: seq<Uint64>): set<Uint64> {
    if a == [] then {}
    else Leaders(a[..|a| - 1]) + if Leads(a, |a| - 1) then {a[|a| - 1]} else {}
  }

  lemma {:induction false} LeadersCount(a: seq<Uint64>)
    requires a != []
    ensures |Leaders(a)| == |Records(a)| + 1
    ensures forall n :: n in Leaders(a) ==> n in a
  {
    var b, x := a[..|a| - 1], a[|a| - 1];
    assert a == b + [x];
    if b == [] {
      assert Records(a) == {};
    } else {
      LeadersCount(b);
      var m := Largest(b);
      RecordsStep(b, m, x);
      LeadsAtEnd(b, m, x);
    }
  }

  lemma {:induction false} Largest(a: seq<Uint64>) returns (m: Uint64)
    requires a != []
    ensures IsMaximum(a, m)
  {
    if |a| == 1 {
      m := a[0];
    } else {
      var b := a[..|a| - 1];
      m := Largest(b);
      MaximumStep(b, m, a[|a| - 1]);
      assert b + [a[|a| - 1]] == a;
      m := Max(m, a[|a| - 1]);
    }
  }

  lemma {:induction false} SubsetFits(x: set<Uint64>, s: seq<Uint64>)
    requires forall n :: n in x ==> n in s
    ensures |x| <= |s|
  {
    if s == [] {
      assert x == {};
    } else {
      var last := s[|s| - 1];
      SubsetFits(x - {last}, s[..|s| - 1]);
      assert x <= (x - {last}) + {last};
      if last in x {
        assert x == (x - {last}) + {last};
      } else {
        assert x - {last} == x;
      }
    }
  }

  /** The statistics of one lifetime that heard only what was sent. */
  ghost predicate Sound(l: Life, sent: seq<Uint64>) {
    var a, top := Arrivals(l), StateOf(l).seqNo;
    && IsMaximum(a, top)
    && Within(a, sent)
    && SumSkips(Windows(l)) == |Missed(a, top)|
    && SumCounts(Windows(l)) + SumSkips(Windows(l)) == top - a[0]
    && SumCounts(Windows(l)) < |sent|
  }

  lemma LifeIsSound(l: Life, sent: seq<Uint64>)
    requires Within(Arrivals(l), sent)
    ensures Sound(l, sent)
  {
    var a := Arrivals(l);
    Conservation(l);
    LeadersCount(a);
    SubsetFits(Leaders(a), sent);
  }

  ghost predicate AllSound(lives: seq<Life>, sent: seq<Uint64>) {
    forall i :: 0 <= i < |lives| ==> Sound(lives[i], sent)
  }

  lemma HeardIsSound(heard: seq<Event>, id: ID, sent: seq<Uint64>)
    requires HeardOnly(heard, id, sent)
    ensures AllSound(Lives(TrackOf(heard, id)), sent)
  {
    TrackArrivals(heard, id, sent);
    var lives := Lives(TrackOf(heard, id));
    forall i | 0 <= i < |lives|
      ensures Sound(lives[i], sent)
    {
      LifeIsSound(lives[i], sent);
    }
  }

  lemma SuccessesExact(w: World)
    requires SuccessesCounted(w) && |w.sent| < TWO64
    ensures S.Packets(w.sender) == |w.sent|
  {
  }

  /** What the receiver's statistics mean. Whatever is sent, lost, repeated and reordered, let `heard` be
      the datagrams that arrived, as they were sent, with the ticks. For every lifetime of the sender's
      record: the skips summed over its windows are exactly the numbers after the first that never arrived
      or arrived only after a larger one, and the packets counted are fewer than the sender's successful
      sends, which are what the sender's own windows count. Each arrival is in one lifetime. */
  lemma LossStatistics(id: ID, config: S.SendConfig, reporting: bool, interval: int, now: int, acts: seq<Action>)
    requires CanHappen(Start(S.Init(id, config, reporting, interval, now)), acts)
    ensures var heard := ArrivalsIn(WireOf(id, config, acts), acts);
      && AllSound(Lives(TrackOf(heard, id)), SentIn(acts))
      && HeardBy(Lives(TrackOf(heard, id))) == Told(heard, id)
    ensures var w := AfterAll(Start(S.Init(id, config, reporting, interval, now)), acts);
      && w.heard == ArrivalsIn(WireOf(id, config, acts), acts)
      && (|SentIn(acts)| < TWO64 ==> S.Packets(w.sender) == |SentIn(acts)|)
  {
    var s := S.Init(id, config, reporting, interval, now);
    var w := AfterAll(Start(s), acts);
    RunIsHonest(s, acts);
    WireIsSent(s, acts);
    HeardIsArrived(Start(s), acts);
    HeardIsSound(w.heard, id, w.sent);
    TracksHear(w.heard, id);
    if |w.sent| < TWO64 {
      SuccessesExact(w);
    }
  }

  /** And a number that never reached the receiver counts as skipped as soon as a larger one has. */
  lemma LostCountsAsSkipped(l: Life, n: Uint64)
    requires l.first < n <= StateOf(l).seqNo && n !in Arrivals(l)
    ensures n in Missed(Arrivals(l), StateOf(l).seqNo)
  {
  }
}
