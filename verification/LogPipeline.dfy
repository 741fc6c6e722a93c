/** The log goroutines interleaved: `Logs.run` sending into bounded channels, one `logFollower.run`
    per subscriber, and readers that may be slow or stuck (logs/logs.go, logs/follower.go). */
module LogPipeline {
  import opened Logs

  /** One follower: its two buffered channels, and what has gone through them. */
  datatype Follower = Follower(
    msgChan: seq<LogMsg>,
    msgClosed: bool,
    taken: seq<LogMsg>,        // received from msgChan by the follower's goroutine
    drops: nat,
    writeChan: seq<LogMsg>,
    writeClosed: bool,
    read: seq<LogMsg>)         // received from writeChan by the reader
  {
    /** Everything ever sent to the follower. */
    function Sent(): seq<LogMsg> {
      taken + msgChan
    }

    /** Everything it ever passed on. */
    function Written(): seq<LogMsg> {
      read + writeChan
    }

    predicate MsgFull() {
      |msgChan| >= LOGS_BUFFER
    }

    predicate WriteFull() {
      |writeChan| >= LOGS_BUFFER
    }
  }

  const NEW_FOLLOWER := Follower([], false, [], 0, [], false, [])

  function SendTo(f: Follower, m: LogMsg): Follower {
    f.(msgChan := f.msgChan + [m])
  }

  /** One message through `logFollower.run`: written if there is room, dropped if not. */
  function ForwardOne(f: Follower): Follower
    requires f.msgChan != []
  {
    var m := f.msgChan[0];
    var g := f.(msgChan := f.msgChan[1..], taken := f.taken + [m]);
    if f.WriteFull() then g.(drops := f.drops + 1)
    else g.(drops := 0, writeChan := f.writeChan + [m.(dropped := f.drops)])
  }

  function ReadOne(f: Follower): Follower
    requires f.writeChan != []
  {
    f.(read := f.read + [f.writeChan[0]], writeChan := f.writeChan[1..])
  }

  /** Where `Logs.run` is: waiting in its select, in the middle of a broadcast to `todo`, replaying
      the history to a new channel, or dead of closing a closed channel. */
  datatype Pc = Idle | Broadcasting(todo: set<nat>) | Replaying(chan: nat, next: nat) | Panicked

  datatype System = System(history: seq<LogMsg>, subscribers: set<nat>, pc: Pc, followers: seq<Follower>)

  const INITIAL := System([], {}, Idle, [])

  datatype Event =
    // Logs.run accepts a request when it is idle
    | Ask(request: Request)
    // the rest of Logs.run
    | BroadcastTo(chan: nat)
    | ReplayNext
    | BackToSelect
    // the follower's goroutine, and its reader
    | ForwardMsg(chan: nat)
    | Exit(chan: nat)
    | Read(chan: nat)

  predicate Enabled(s: System, e: Event) {
    var n := |s.followers|;
    match e
    case Ask(r) => s.pc.Idle? && (r.Unsubscribe? ==> r.chan < n)
    case BroadcastTo(c) => s.pc.Broadcasting? && c in s.pc.todo && c < n && !s.followers[c].MsgFull()
    case ReplayNext => s.pc.Replaying? && s.pc.next < |s.history| && s.pc.chan < n && !s.followers[s.pc.chan].MsgFull()
    case BackToSelect => (s.pc.Broadcasting? && s.pc.todo == {}) || (s.pc.Replaying? && s.pc.next == |s.history|)
    case ForwardMsg(c) => c < n && s.followers[c].msgChan != []
    case Exit(c) => c < n && s.followers[c].msgChan == [] && s.followers[c].msgClosed && !s.followers[c].writeClosed
    case Read(c) => c < n && s.followers[c].writeChan != []
  }

  function With(s: System, c: nat, f: Follower): System
    requires c < |s.followers|
  {
    s.(followers := s.followers[c := f])
  }

  function Next(s: System, e: Event): System
    requires Enabled(s, e)
  {
    match e
    case Ask(WriteLine(line)) => s.(history := s.history + [LogMsg(line, 0)], pc := Broadcasting(s.subscribers))
    case Ask(Subscribe) =>
      var c := |s.followers|;
      s.(subscribers := s.subscribers + {c}, followers := s.followers + [NEW_FOLLOWER], pc := Replaying(c, 0))
    case Ask(Unsubscribe(c)) =>
      if s.followers[c].msgClosed then s.(subscribers := s.subscribers - {c}, pc := Panicked)
      else With(s, c, s.followers[c].(msgClosed := true)).(subscribers := s.subscribers - {c})
    case BroadcastTo(c) =>
      if s.history == [] then s
      else With(s, c, SendTo(s.followers[c], s.history[|s.history| - 1])).(pc := Broadcasting(s.pc.todo - {c}))
    case ReplayNext =>
      var c, i := s.pc.chan, s.pc.next;
      With(s, c, SendTo(s.followers[c], s.history[i])).(pc := Replaying(c, i + 1))
    case BackToSelect => s.(pc := Idle)
    case ForwardMsg(c) => With(s, c, ForwardOne(s.followers[c]))
    case Exit(c) => With(s, c, s.followers[c].(writeClosed := true))
    case Read(c) => With(s, c, ReadOne(s.followers[c]))
  }

  // Safety.

  ghost predicate FollowerOk(f: Follower) {
    && |f.msgChan| <= LOGS_BUFFER && |f.writeChan| <= LOGS_BUFFER
    && Accounts(f.Written(), f.taken, f.drops)
    && (f.writeClosed ==> f.msgClosed && f.msgChan == [])
  }

  /** A channel's history: a prefix of what was logged, and `progress` of it while it subscribes. */
  ghost predicate ChannelOk(f: Follower, history: seq<LogMsg>, subscribed: bool, progress: nat) {
    && f.Sent() <= history
    && (if subscribed then !f.msgClosed && |f.Sent()| == progress else f.msgClosed)
  }

  /** How much of a history of length `n` channel `c` has been sent when `Logs.run` is at `pc`. */
  function Progress(pc: Pc, n: nat, c: nat): int {
    match pc
    case Broadcasting(todo) => if c in todo then n - 1 else n
    case Replaying(d, next) => if c == d then next else n
    case _ => n
  }

  ghost predicate PcOk(pc: Pc, subscribers: set<nat>, n: nat) {
    match pc
    case Idle => true
    case Broadcasting(todo) => n > 0 && todo <= subscribers
    case Replaying(c, next) => c in subscribers && next <= n
    case Panicked => true
  }

  /** What a channel was sent is a prefix of the history, all of it when `Logs.run` is back at its
      select, and nothing is ever sent on a closed channel. */
  ghost predicate Routed(s: System) {
    && PcOk(s.pc, s.subscribers, |s.history|)
    && (forall c :: c in s.subscribers ==> c < |s.followers|)
    && forall c :: 0 <= c < |s.followers| ==> RoutedTo(s, c)
  }

  ghost predicate RoutedTo(s: System, c: nat)
    requires c < |s.followers|
  {
    var p := Progress(s.pc, |s.history|, c);
    p >= 0 && ChannelOk(s.followers[c], s.history, c in s.subscribers, p)
  }

  /** Every follower's messages are accounted for. */
  ghost predicate Buffered(followers: seq<Follower>) {
    forall c :: 0 <= c < |followers| ==> FollowerOk(followers[c])
  }

  // Each channel's buffers.

  lemma SendOk(f: Follower, m: LogMsg)
    requires FollowerOk(f) && !f.MsgFull() && !f.msgClosed
    ensures FollowerOk(SendTo(f, m)) && SendTo(f, m).Sent() == f.Sent() + [m]
  {
    assert SendTo(f, m).Written() == f.Written();
  }

  lemma ForwardAccounts(f: Follower)
    requires Accounts(f.Written(), f.taken, f.drops) && f.msgChan != []
    ensures Accounts(ForwardOne(f).Written(), ForwardOne(f).taken, ForwardOne(f).drops)
  {
    var m := f.msgChan[0];
    if f.WriteFull() {
      AccountsDrop(f.Written(), f.taken, f.drops, m);
    } else {
      AccountsWrite(f.Written(), f.taken, f.drops, m);
      assert f.read + (f.writeChan + [m.(dropped := f.drops)]) == f.Written() + [m.(dropped := f.drops)];
    }
  }

  lemma ForwardOk(f: Follower)
    requires FollowerOk(f) && f.msgChan != []
    ensures FollowerOk(ForwardOne(f))
  {
    ForwardAccounts(f);
  }

  lemma ForwardSent(f: Follower)
    requires f.msgChan != []
    ensures ForwardOne(f).Sent() == f.Sent()
  {
    assert f.msgChan == [f.msgChan[0]] + f.msgChan[1..];
  }

  lemma ReadOk(f: Follower)
    requires FollowerOk(f) && f.writeChan != []
    ensures FollowerOk(ReadOne(f)) && ReadOne(f).Sent() == f.Sent()
  {
    assert f.writeChan == [f.writeChan[0]] + f.writeChan[1..];
    assert ReadOne(f).Written() == f.Written();
  }

  lemma CloseOk(f: Follower)
    requires FollowerOk(f)
    ensures FollowerOk(f.(msgClosed := true))
    ensures f.msgClosed && f.msgChan == [] ==> FollowerOk(f.(writeClosed := true))
  {
    assert f.(msgClosed := true).Written() == f.(writeClosed := true).Written() == f.Written();
  }

  lemma BufferedUpdate(followers: seq<Follower>, c: nat, f: Follower)
    requires Buffered(followers) && c < |followers| && FollowerOk(f)
    ensures Buffered(followers[c := f])
  {
  }

  lemma BufferedStep(s: System, e: Event)
    requires Buffered(s.followers) && Routed(s) && Enabled(s, e)
    ensures Buffered(Next(s, e).followers)
  {
    match e
    case Ask(WriteLine(_)) =>
    case Ask(Subscribe) =>
      assert FollowerOk(NEW_FOLLOWER);
    case Ask(Unsubscribe(c)) =>
      CloseOk(s.followers[c]);
      BufferedUpdate(s.followers, c, s.followers[c].(msgClosed := true));
    case BroadcastTo(c) =>
      assert RoutedTo(s, c);
      SendOk(s.followers[c], s.history[|s.history| - 1]);
      BufferedUpdate(s.followers, c, SendTo(s.followers[c], s.history[|s.history| - 1]));
    case ReplayNext =>
      var c := s.pc.chan;
      assert RoutedTo(s, c);
      SendOk(s.followers[c], s.history[s.pc.next]);
      BufferedUpdate(s.followers, c, SendTo(s.followers[c], s.history[s.pc.next]));
    case BackToSelect =>
    case ForwardMsg(c) =>
      ForwardOk(s.followers[c]);
      BufferedUpdate(s.followers, c, ForwardOne(s.followers[c]));
    case Exit(c) =>
      CloseOk(s.followers[c]);
      BufferedUpdate(s.followers, c, s.followers[c].(writeClosed := true));
    case Read(c) =>
      ReadOk(s.followers[c]);
      BufferedUpdate(s.followers, c, ReadOne(s.followers[c]));
  }

  // What is sent to whom.

  /** A step of one channel, the others and the broadcaster's obligations to them unchanged. */
  lemma OneChannel(s: System, t: System, c: nat)
    requires Routed(s) && c < |s.followers| && |t.followers| == |s.followers| && t.history == s.history
    requires forall d :: 0 <= d < |s.followers| && d != c ==> t.followers[d] == s.followers[d]
    requires forall d :: d != c ==> (d in t.subscribers <==> d in s.subscribers)
    requires forall d :: d != c ==> Progress(t.pc, |t.history|, d) == Progress(s.pc, |s.history|, d)
    requires PcOk(t.pc, t.subscribers, |t.history|) && RoutedTo(t, c)
    ensures Routed(t)
  {
    forall d | 0 <= d < |t.followers|
      ensures RoutedTo(t, d)
    {
      if d != c {
        assert RoutedTo(s, d);
      }
    }
  }

  lemma WriteRouted(s: System, line: string)
    requires Routed(s) && s.pc.Idle?
    ensures Routed(Next(s, Ask(WriteLine(line))))
  {
    var t := Next(s, Ask(WriteLine(line)));
    forall c | 0 <= c < |t.followers|
      ensures RoutedTo(t, c)
    {
      assert RoutedTo(s, c);
    }
  }

  lemma SubscribeRouted(s: System)
    requires Routed(s) && s.pc.Idle?
    ensures Routed(Next(s, Ask(Subscribe)))
  {
    var t := Next(s, Ask(Subscribe));
    forall c | 0 <= c < |t.followers|
      ensures RoutedTo(t, c)
    {
      if c < |s.followers| {
        assert RoutedTo(s, c);
      }
    }
  }

  lemma UnsubscribeRouted(s: System, c: nat)
    requires Routed(s) && s.pc.Idle? && c < |s.followers|
    ensures Routed(Next(s, Ask(Unsubscribe(c))))
  {
    assert RoutedTo(s, c);
    OneChannel(s, Next(s, Ask(Unsubscribe(c))), c);
  }

  lemma BroadcastRouted(s: System, c: nat)
    requires Routed(s) && Enabled(s, BroadcastTo(c))
    ensures Routed(Next(s, BroadcastTo(c)))
  {
    assert RoutedTo(s, c);
    var f, n := s.followers[c], |s.history|;
    assert f.Sent() == s.history[..n - 1];
    assert f.Sent() + [s.history[n - 1]] == s.history;
    OneChannel(s, Next(s, BroadcastTo(c)), c);
  }

  lemma ReplayRouted(s: System)
    requires Routed(s) && Enabled(s, ReplayNext)
    ensures Routed(Next(s, ReplayNext))
  {
    var c, i := s.pc.chan, s.pc.next;
    assert RoutedTo(s, c);
    var f := s.followers[c];
    assert f.Sent() == s.history[..i];
    assert f.Sent() + [s.history[i]] == s.history[..i + 1];
    OneChannel(s, Next(s, ReplayNext), c);
  }

  lemma BackRouted(s: System)
    requires Routed(s) && Enabled(s, BackToSelect)
    ensures Routed(Next(s, BackToSelect))
  {
    var t := Next(s, BackToSelect);
    forall c | 0 <= c < |t.followers|
      ensures RoutedTo(t, c)
    {
      assert RoutedTo(s, c);
    }
  }

  lemma GoroutineRouted(s: System, e: Event, c: nat)
    requires Routed(s) && Enabled(s, e) && (e == ForwardMsg(c) || e == Exit(c) || e == Read(c))
    ensures Routed(Next(s, e))
  {
    assert RoutedTo(s, c);
    if e.ForwardMsg? {
      ForwardSent(s.followers[c]);
    }
    OneChannel(s, Next(s, e), c);
  }

  lemma RoutedStep(s: System, e: Event)
    requires Routed(s) && Enabled(s, e)
    ensures Routed(Next(s, e))
  {
    match e
    case Ask(WriteLine(line)) => WriteRouted(s, line);
    case Ask(Subscribe) => SubscribeRouted(s);
    case Ask(Unsubscribe(c)) => UnsubscribeRouted(s, c);
    case BroadcastTo(c) => BroadcastRouted(s, c);
    case ReplayNext => ReplayRouted(s);
    case BackToSelect => BackRouted(s);
    case ForwardMsg(c) => GoroutineRouted(s, e, c);
    case Exit(c) => GoroutineRouted(s, e, c);
    case Read(c) => GoroutineRouted(s, e, c);
  }

  // Runs.

  predicate CanRun(s: System, events: seq<Event>)
    decreases |events|, 0
  {
    events == [] || (var n := |events| - 1; CanRun(s, events[..n]) && Enabled(AfterRun(s, events[..n]), events[n]))
  }

  function AfterRun(s: System, events: seq<Event>): System
    requires CanRun(s, events)
    decreases |events|, 1
  {
    if events == [] then s
    else
      var n := |events| - 1;
      Next(AfterRun(s, events[..n]), events[n])
  }

  function Requests(events: seq<Event>): seq<Request> {
    if events == [] then []
    else
      var e := events[|events| - 1];
      Requests(events[..|events| - 1]) + if e.Ask? then [e.request] else []
  }

  /** However the goroutines interleave, and however slow the readers are. */
  lemma {:induction false} RunIsSafe(events: seq<Event>)
    requires CanRun(INITIAL, events)
    ensures var s := AfterRun(INITIAL, events); Routed(s) && Buffered(s.followers)
  {
    if events != [] {
      var n := |events| - 1;
      RunIsSafe(events[..n]);
      BufferedStep(AfterRun(INITIAL, events[..n]), events[n]);
      RoutedStep(AfterRun(INITIAL, events[..n]), events[n]);
    }
  }

  /** What a reader sees of the log: each message is the one its drop counts place it at, in order,
      and at the select of `Logs.run` every message logged is written, dropped or still buffered. */
  lemma ReaderSees(s: System, c: nat)
    requires Routed(s) && Buffered(s.followers) && c < |s.followers|
    ensures var w, h := s.followers[c].Written(), s.history;
      forall i :: 0 <= i < |w| ==>
        0 <= Position(w, i) < |h| && w[i] == h[Position(w, i)].(dropped := w[i].dropped)
    ensures c in s.subscribers && s.pc.Idle? ==>
      var f := s.followers[c]; Span(f.Written()) + f.drops + |f.msgChan| == |s.history|
    ensures s.followers[c].drops <= |s.history|
  {
    var f := s.followers[c];
    assert RoutedTo(s, c) && FollowerOk(f);
    assert f.taken <= f.Sent() <= s.history;
  }

  // What is written, sent and read, by the events.

  function Reads(events: seq<Event>, c: nat): nat {
    if events == [] then 0 else Reads(events[..|events| - 1], c) + if events[|events| - 1] == Read(c) then 1 else 0
  }

  function Trues(s: seq<bool>): nat {
    if s == [] then 0 else Trues(s[..|s| - 1]) + if s[|s| - 1] then 1 else 0
  }

  /** For each message that follower `c` took, in order: whether fewer than `LOGS_BUFFER` of those it had
      written were still unread. */
  function Room(events: seq<Event>, c: nat): seq<bool> {
    if events == [] then []
    else
      var before := events[..|events| - 1];
      if events[|events| - 1] == ForwardMsg(c)
      then Room(before, c) + [Trues(Room(before, c)) - Reads(before, c) < LOGS_BUFFER]
      else Room(before, c)
  }

  /** `room` says which of the messages taken were written, and `seen` how many of those were read. */
  ghost predicate WroteThose(f: Follower, room: seq<bool>, seen: nat) {
    && |f.taken| == |room| && |f.Written()| == Trues(room) && |f.read| == seen
    && forall k :: 0 <= k < |room| ==> (room[k] <==> Kept(f.Written(), k))
  }

  lemma TruesAppend(s: seq<bool>, b: bool)
    ensures Trues(s + [b]) == Trues(s) + if b then 1 else 0
  {
    assert (s + [b])[..|s|] == s;
  }

  lemma ForwardWrites(f: Follower, room: seq<bool>, seen: nat)
    requires FollowerOk(f) && f.msgChan != [] && WroteThose(f, room, seen)
    ensures WroteThose(ForwardOne(f), room + [Trues(room) - seen < LOGS_BUFFER], seen)
  {
    var g, b := ForwardOne(f), Trues(room) - seen < LOGS_BUFFER;
    TruesAppend(room, b);
    KeptBelow(f.Written(), f.taken, f.drops);
    if b {
      var m := f.msgChan[0].(dropped := f.drops);
      assert g.Written() == f.Written() + [m];
      forall k: nat {
        KeptAppend(f.Written(), m, k);
      }
    } else {
      assert g.Written() == f.Written();
    }
  }

  lemma ReadWrites(f: Follower, room: seq<bool>, seen: nat)
    requires f.writeChan != [] && WroteThose(f, room, seen)
    ensures WroteThose(ReadOne(f), room, seen + 1)
  {
    assert f.writeChan == [f.writeChan[0]] + f.writeChan[1..];
    assert ReadOne(f).Written() == f.Written();
  }

  /** What the follower's own goroutine and its reader do, nobody else does. */
  lemma OthersWriteNothing(s: System, e: Event, c: nat)
    requires Enabled(s, e) && c < |s.followers| && e != ForwardMsg(c) && e != Read(c)
    ensures var f, g := s.followers[c], Next(s, e).followers[c];
      g.taken == f.taken && g.read == f.read && g.writeChan == f.writeChan && g.drops == f.drops
  {
  }

  lemma WroteStep(s: System, e: Event, c: nat, room: seq<bool>, seen: nat)
    requires Buffered(s.followers) && Enabled(s, e) && c < |s.followers|
    requires WroteThose(s.followers[c], room, seen)
    ensures var room' := if e == ForwardMsg(c) then room + [Trues(room) - seen < LOGS_BUFFER] else room;
      WroteThose(Next(s, e).followers[c], room', if e == Read(c) then seen + 1 else seen)
  {
    var f := s.followers[c];
    if e == ForwardMsg(c) {
      assert FollowerOk(f);
      ForwardWrites(f, room, seen);
    } else if e == Read(c) {
      ReadWrites(f, room, seen);
    } else {
      OthersWriteNothing(s, e, c);
      SameWrites(f, Next(s, e).followers[c], room, seen);
    }
  }

  lemma SameWrites(f: Follower, g: Follower, room: seq<bool>, seen: nat)
    requires WroteThose(f, room, seen) && g.taken == f.taken && g.read == f.read && g.writeChan == f.writeChan
    ensures WroteThose(g, room, seen)
  {
    assert g.Written() == f.Written();
  }

  ghost predicate WroteAt(s: System, c: nat, room: seq<bool>, seen: nat) {
    if c < |s.followers| then WroteThose(s.followers[c], room, seen) else room == [] && seen == 0
  }

  lemma NewWrote()
    ensures WroteThose(NEW_FOLLOWER, [], 0)
  {
    assert NEW_FOLLOWER.Written() == [];
  }

  lemma Channels(s: System, e: Event, c: nat)
    requires Enabled(s, e)
    ensures |Next(s, e).followers| >= |s.followers|
    ensures c >= |s.followers| ==> e != ForwardMsg(c) && e != Read(c)
    ensures |s.followers| <= c < |Next(s, e).followers| ==> Next(s, e).followers[c] == NEW_FOLLOWER
  {
  }

  lemma WroteAtStep(s: System, e: Event, c: nat, room: seq<bool>, seen: nat)
    requires Buffered(s.followers) && Enabled(s, e) && WroteAt(s, c, room, seen)
    ensures var room' := if e == ForwardMsg(c) then room + [Trues(room) - seen < LOGS_BUFFER] else room;
      WroteAt(Next(s, e), c, room', if e == Read(c) then seen + 1 else seen)
  {
    Channels(s, e, c);
    if c < |s.followers| {
      WroteStep(s, e, c, room, seen);
    } else {
      NewWrote();
    }
  }

  /** Exactly the messages that found room are written; what is read is what was written, in order. */
  lemma {:induction false} WritesWhatFits(events: seq<Event>, c: nat)
    requires CanRun(INITIAL, events)
    ensures WroteAt(AfterRun(INITIAL, events), c, Room(events, c), Reads(events, c))
  {
    if events != [] {
      var n := |events| - 1;
      WritesWhatFits(events[..n], c);
      RunIsSafe(events[..n]);
      WroteAtStep(AfterRun(INITIAL, events[..n]), events[n], c, Room(events[..n], c), Reads(events[..n], c));
    }
  }

  lemma {:induction false} AllTrues(s: seq<bool>)
    requires forall k :: 0 <= k < |s| ==> s[k]
    ensures Trues(s) == |s|
  {
    if s != [] {
      AllTrues(s[..|s| - 1]);
    }
  }

  lemma {:induction false} SpanFits(written: seq<LogMsg>)
    ensures Span(written) >= |written|
    ensures Span(written) == |written| ==>
      forall i :: 0 <= i < |written| ==> Position(written, i) == i && written[i].dropped == 0
  {
    if written != [] {
      var n := |written| - 1;
      SpanFits(written[..n]);
      forall i | 0 <= i < |written| && Span(written) == |written|
        ensures Position(written, i) == i && written[i].dropped == 0
      {
        if i < n {
          assert written[..n][..i + 1] == written[..i + 1];
          assert Position(written[..n], i) == Position(written, i) && written[..n][i] == written[i];
        } else {
          assert written[..i + 1] == written;
        }
      }
    }
  }

  lemma {:induction false} LoggedFresh(events: seq<Event>)
    requires CanRun(INITIAL, events)
    ensures forall m :: m in AfterRun(INITIAL, events).history ==> m.dropped == 0
  {
    if events != [] {
      LoggedFresh(events[..|events| - 1]);
    }
  }

  /** So a follower whose reader always leaves room writes every message it takes, and drops none. */
  lemma RoomyWritesAll(events: seq<Event>, c: nat)
    requires CanRun(INITIAL, events) && c < |AfterRun(INITIAL, events).followers|
    requires forall k :: 0 <= k < |Room(events, c)| ==> Room(events, c)[k]
    ensures var f := AfterRun(INITIAL, events).followers[c]; f.Written() == f.taken && f.drops == 0
  {
    var s := AfterRun(INITIAL, events);
    var f := s.followers[c];
    WritesWhatFits(events, c);
    RunIsSafe(events);
    LoggedFresh(events);
    AllTrues(Room(events, c));
    SpanFits(f.Written());
    assert RoutedTo(s, c) && FollowerOk(f);
    assert f.taken <= f.Sent() <= s.history;
    assert forall i | 0 <= i < |f.taken| :: f.taken[i] == s.history[i] && s.history[i] in s.history;
  }

  function Subscribed(events: seq<Event>): nat {
    Subscriptions(Requests(events))
  }

  /** How many messages were sent to channel `c`; a replay is to the channel that subscribed last. */
  function SentTo(events: seq<Event>, c: nat): nat {
    if events == [] then 0
    else
      var before, e := events[..|events| - 1], events[|events| - 1];
      SentTo(before, c) + if e == BroadcastTo(c) || (e == ReplayNext && Subscribed(before) == c + 1) then 1 else 0
  }

  ghost predicate Numbered(s: System, events: seq<Event>) {
    && |s.followers| == Subscribed(events)
    && (s.pc.Replaying? ==> s.pc.chan + 1 == |s.followers|)
  }

  lemma NumberedStep(s: System, events: seq<Event>, e: Event)
    requires Numbered(s, events) && Enabled(s, e)
    ensures Numbered(Next(s, e), events + [e])
  {
    assert (events + [e])[..|events|] == events;
    var before := Requests(events);
    if e.Ask? {
      assert (before + [e.request])[..|before|] == before;
    } else {
      assert before + [] == before;
    }
  }

  lemma SentStep(s: System, e: Event, c: nat)
    requires Routed(s) && Enabled(s, e) && c < |s.followers|
    ensures |Next(s, e).followers[c].Sent()| ==
      |s.followers[c].Sent()| + if e == BroadcastTo(c) || (e == ReplayNext && s.pc.chan == c) then 1 else 0
  {
    if e == ForwardMsg(c) {
      ForwardSent(s.followers[c]);
    }
  }

  /** Nothing that was sent is lost before the follower takes it, subscribed or not. */
  lemma {:induction false} AllSentKept(events: seq<Event>, c: nat)
    requires CanRun(INITIAL, events)
    ensures Numbered(AfterRun(INITIAL, events), events)
    ensures var s := AfterRun(INITIAL, events);
      if c < |s.followers| then |s.followers[c].Sent()| == SentTo(events, c) else SentTo(events, c) == 0
  {
    if events != [] {
      var n := |events| - 1;
      AllSentKept(events[..n], c);
      RunIsSafe(events[..n]);
      var s := AfterRun(INITIAL, events[..n]);
      assert events[..n] + [events[n]] == events;
      NumberedStep(s, events[..n], events[n]);
      if c < |s.followers| {
        SentStep(s, events[n], c);
      }
    }
  }

  // Panics, and agreement with the broadcaster on its own.

  ghost predicate Agrees(s: System, requests: seq<Request>) {
    && (s.pc.Panicked? <==> !ClosesOnce(requests))
    && (!s.pc.Panicked? ==> Booked(requests, s.history, s.subscribers, |s.followers|))
  }

  lemma AgreesStep(s: System, requests: seq<Request>, r: Request)
    requires Routed(s) && s.pc.Idle? && (r.Unsubscribe? ==> r.chan < |s.followers|)
    requires Agrees(s, requests)
    ensures Agrees(Next(s, Ask(r)), requests + [r])
  {
    BookedStep(requests, r, s.history, s.subscribers, |s.followers|);
    if r.Unsubscribe? {
      assert RoutedTo(s, r.chan);
    }
  }

  lemma OthersKeep(s: System, e: Event)
    requires Enabled(s, e) && !e.Ask?
    ensures var t := Next(s, e);
      && t.history == s.history && t.subscribers == s.subscribers && |t.followers| == |s.followers|
      && t.pc.Panicked? == s.pc.Panicked?
  {
  }

  lemma RequestsLast(events: seq<Event>)
    requires events != []
    ensures var n := |events| - 1;
      Requests(events) == if events[n].Ask? then Requests(events[..n]) + [events[n].request] else Requests(events[..n])
  {
  }

  /** Two closings of one follower panic `Logs.run`, and nothing else does; the documentation says
      closing is safe from several goroutines. Otherwise the interleaved system has exactly the
      history and subscribers of `Distribute` on its requests. */
  lemma {:induction false} PanicsExactlyOnDoubleClose(events: seq<Event>)
    requires CanRun(INITIAL, events)
    ensures Agrees(AfterRun(INITIAL, events), Requests(events))
  {
    if events != [] {
      var n := |events| - 1;
      PanicsExactlyOnDoubleClose(events[..n]);
      RunIsSafe(events[..n]);
      RequestsLast(events);
      var s, e := AfterRun(INITIAL, events[..n]), events[n];
      if e.Ask? {
        AgreesStep(s, Requests(events[..n]), e.request);
      } else {
        OthersKeep(s, e);
      }
    }
  }

  /** One follower closed from two goroutines. */
  lemma DoubleClosePanics()
    ensures var events := [Ask(Subscribe), BackToSelect, Ask(Unsubscribe(0)), Ask(Unsubscribe(0))];
      CanRun(INITIAL, events) && AfterRun(INITIAL, events).pc.Panicked?
  {
    var events := [Ask(Subscribe), BackToSelect, Ask(Unsubscribe(0)), Ask(Unsubscribe(0))];
    assert events[..3] == [Ask(Subscribe), BackToSelect, Ask(Unsubscribe(0))];
    assert events[..3][..2] == [Ask(Subscribe), BackToSelect];
    assert events[..3][..2][..1] == [Ask(Subscribe)];
    assert events[..3][..2][..1][..0] == [];
    assert CanRun(INITIAL, events[..3][..2][..1]) && AfterRun(INITIAL, events[..3][..2][..1]).pc == Replaying(0, 0);
    assert CanRun(INITIAL, events[..3][..2]) && AfterRun(INITIAL, events[..3][..2]).pc.Idle?;
    assert CanRun(INITIAL, events[..3]) && AfterRun(INITIAL, events[..3]).followers[0].msgClosed;
  }

  // Progress: a stuck reader stalls nobody.

  function Buffers(followers: seq<Follower>): nat {
    if followers == [] then 0 else Buffers(followers[..|followers| - 1]) + |followers[|followers| - 1].msgChan|
  }

  lemma {:induction false} BuffersUpdate(followers: seq<Follower>, c: nat, f: Follower)
    requires c < |followers|
    ensures Buffers(followers[c := f]) == Buffers(followers) - |followers[c].msgChan| + |f.msgChan|
  {
    var n := |followers| - 1;
    if c < n {
      BuffersUpdate(followers[..n], c, f);
      assert followers[c := f][..n] == followers[..n][c := f];
    } else {
      assert followers[c := f][..n] == followers[..n];
    }
  }

  /** Sends that the current broadcast or replay still has to make. */
  function Remaining(s: System): nat {
    match s.pc
    case Broadcasting(todo) => |todo|
    case Replaying(_, next) => if next <= |s.history| then |s.history| - next else 0
    case _ => 0
  }

  predicate Busy(s: System) {
    s.pc.Broadcasting? || s.pc.Replaying?
  }

  /** What bounds the work until `Logs.run` is back at its select. */
  function Work(s: System): nat {
    2 * Remaining(s) + Buffers(s.followers)
  }

  predicate IsWork(e: Event) {
    e.BroadcastTo? || e.ReplayNext? || e.ForwardMsg?
  }

  lemma WorkShrinks(s: System, e: Event)
    requires Routed(s) && Busy(s) && Enabled(s, e) && e != BackToSelect
    ensures Work(Next(s, e)) == Work(s) - if IsWork(e) then 1 else 0
    ensures Busy(Next(s, e))
  {
    var t := Next(s, e);
    match e
    case BroadcastTo(c) => BuffersUpdate(s.followers, c, t.followers[c]);
    case ReplayNext => BuffersUpdate(s.followers, s.pc.chan, t.followers[s.pc.chan]);
    case ForwardMsg(c) => BuffersUpdate(s.followers, c, t.followers[c]);
    case Exit(c) => BuffersUpdate(s.followers, c, t.followers[c]);
    case Read(c) => BuffersUpdate(s.followers, c, t.followers[c]);
  }

  /** A broadcast or replay is over within `Work` sends and forwards, in whatever order and whether
      or not any reader ever reads. */
  lemma {:induction false} BusyRunEnds(s: System, events: seq<Event>)
    requires Routed(s) && Busy(s) && CanRun(s, events) && BackToSelect !in events
    ensures var t := AfterRun(s, events);
      Routed(t) && Busy(t) && WorkDone(events) + Work(t) == Work(s)
  {
    if events != [] {
      var n := |events| - 1;
      BusyRunEnds(s, events[..n]);
      WorkShrinks(AfterRun(s, events[..n]), events[n]);
      RoutedStep(AfterRun(s, events[..n]), events[n]);
    }
  }

  function WorkDone(events: seq<Event>): nat {
    if events == [] then 0 else WorkDone(events[..|events| - 1]) + if IsWork(events[|events| - 1]) then 1 else 0
  }

  /** And until then there is work to do that needs no reader: on each channel `Logs.run` waits for,
      either the send goes through or that channel's follower can make room. */
  lemma NeverStalled(s: System)
    requires Routed(s) && Busy(s)
    ensures s.pc.Broadcasting? ==>
      if s.pc.todo == {} then Enabled(s, BackToSelect)
      else forall c :: c in s.pc.todo ==> Enabled(s, BroadcastTo(c)) || Enabled(s, ForwardMsg(c))
    ensures s.pc.Broadcasting? ==>
      forall c :: c in s.pc.todo ==> (Enabled(s, BroadcastTo(c)) <==> |s.followers[c].msgChan| < LOGS_BUFFER)
    ensures s.pc.Replaying? ==>
      if s.pc.next == |s.history| then Enabled(s, BackToSelect)
      else Enabled(s, ReplayNext) || Enabled(s, ForwardMsg(s.pc.chan))
  {
  }

  // Closing.

  /** Steps of its own that an unsubscribed follower still has to make. */
  function Left(f: Follower): nat {
    |f.msgChan| + if f.writeClosed then 0 else 1
  }

  /** After one unsubscribe the follower always has a step until its write channel is closed, each
      brings that nearer, and no other step undoes it. */
  lemma UnsubscribedFollowerFinishes(s: System, c: nat, e: Event)
    requires Routed(s) && Buffered(s.followers) && c < |s.followers| && c !in s.subscribers
    ensures Left(s.followers[c]) > 0 ==> Enabled(s, ForwardMsg(c)) || Enabled(s, Exit(c))
    ensures Enabled(s, e) ==>
      Left(Next(s, e).followers[c]) == Left(s.followers[c]) - if e == ForwardMsg(c) || e == Exit(c) then 1 else 0
  {
    assert RoutedTo(s, c) && FollowerOk(s.followers[c]);
  }

  /** Once it is closed, every message it was sent has been offered to the reader: written, or
      counted as dropped. */
  lemma ClosedMeansOffered(s: System, c: nat)
    requires Routed(s) && Buffered(s.followers) && c < |s.followers| && s.followers[c].writeClosed
    ensures var f := s.followers[c]; Accounts(f.Written(), f.Sent(), f.drops)
  {
    var f := s.followers[c];
    assert FollowerOk(f);
    assert f.Sent() == f.taken;
  }

  function Exits(events: seq<Event>, c: nat): nat {
    if events == [] then 0 else Exits(events[..|events| - 1], c) + if events[|events| - 1] == Exit(c) then 1 else 0
  }

  /** The write channel is closed at most once in any run. */
  lemma {:induction false} ClosedOnce(events: seq<Event>, c: nat)
    requires CanRun(INITIAL, events)
    ensures var s := AfterRun(INITIAL, events);
      Exits(events, c) == if c < |s.followers| && s.followers[c].writeClosed then 1 else 0
  {
    if events != [] {
      var n := |events| - 1;
      ClosedOnce(events[..n], c);
    }
  }
}
