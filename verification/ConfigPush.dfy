/** The push handshake (config/config.go, config/sub.go): the registration's goroutine hands a push to the
    worker's loop over one channel and gets the reply on another, made for that push. Each channel
    operation is a step; the goroutines interleave in any order. */
module ConfigPush {
  import opened Sender

  /** `self.register`, waiting for a push; inside `apply`, before and after the worker took it; and
      storing the configuration of the reply. A push is known by the number of its return channel. */
  datatype Sub = Waiting | Sending(chan: nat, push: Push) | Awaiting(chan: nat, push: Push)
               | Storing(config: SendConfig)

  /** The worker's loop; inside `ApplyFunc` or `Reject`, before the reply, and before the close. */
  datatype Worker = Looping | Applying(chan: nat, push: Push) | Answering(chan: nat, push: Push, reply: Reply)
                  | Closing(chan: nat) | Exited

  datatype Exchange = Exchange(push: Push, reply: Reply)

  datatype Sys = Sys(
    sub: Sub,
    worker: Worker,
    running: SendConfig,      // the worker's
    stored: SendConfig,       // in Redis
    behind: bool,             // the last accepted configuration could not be stored
    chans: nat,               // return channels made
    closed: set<nat>,
    reached: seq<Push>,       // what the worker took
    log: seq<Exchange>)       // what was answered

  function Start(config: SendConfig): Sys {
    Sys(Waiting, Looping, config, config, false, 0, {}, [], [])
  }

  datatype Step =
    | Arrive(push: Push)      // from Redis
    | HandOver                // `configChan <- self`
    | Apply                   // the worker runs its function
    | Decline                 // `Reject` instead
    | Answer                  // `retChan <- ...`
    | Close                   // `close(retChan)`
    | Store(ok: bool)
    | NoReturn                // the return channel was closed without a reply
    | Exit                    // the worker's loop ends

  predicate Can(s: Sys, e: Step) {
    match e
    case Arrive(_) => s.sub.Waiting?
    case HandOver => s.sub.Sending? && s.worker.Looping?
    case Apply => s.worker.Applying?
    case Decline => s.worker.Applying?
    case Answer => s.worker.Answering? && s.sub.Awaiting? && s.sub.chan == s.worker.chan && s.worker.chan !in s.closed
    case Close => s.worker.Closing?
    case Store(_) => s.sub.Storing?
    case NoReturn => s.sub.Awaiting? && s.sub.chan in s.closed
    case Exit => s.worker.Looping?
  }

  function Do(s: Sys, e: Step): Sys {
    if !Can(s, e) then s else
    match e
    case Arrive(push) => s.(sub := Sending(s.chans, push), chans := s.chans + 1)
    case HandOver =>
      s.(sub := Awaiting(s.sub.chan, s.sub.push),
         worker := Applying(s.sub.chan, s.sub.push),
         reached := s.reached + [s.sub.push])
    case Apply =>
      s.(worker := Answering(s.worker.chan, s.worker.push, Applied(s.running, s.worker.push)),
         running := ConfigAfter(s.running, s.worker.push))
    case Decline => s.(worker := Answering(s.worker.chan, s.worker.push, Rejected))
    case Answer =>
      s.(sub := if s.worker.reply.Accepted? then Storing(s.worker.reply.config) else Waiting,
         worker := Closing(s.worker.chan),
         log := s.log + [Exchange(s.worker.push, s.worker.reply)])
    case Close => s.(worker := Looping, closed := s.closed + {s.worker.chan})
    case Store(ok) => s.(sub := Waiting, stored := if ok then s.sub.config else s.stored, behind := !ok)
    case NoReturn => s.(sub := Waiting)
    case Exit => s.(worker := Exited)
  }

  predicate Runs(s: Sys, steps: seq<Step>) {
    steps == [] || (var n := |steps| - 1; Runs(s, steps[..n]) && Can(After(s, steps[..n]), steps[n]))
  }

  function After(s: Sys, steps: seq<Step>): Sys {
    if steps == [] then s
    else
      var n := |steps| - 1;
      Do(After(s, steps[..n]), steps[n])
  }

  // What every step keeps.

  /** Who has which channel: a push in the worker's hands is the one its sender awaits, on a channel
      that is open; a channel is closed once. */
  predicate Paired(s: Sys) {
    && (forall c :: c in s.closed ==> c < s.chans)
    && (s.sub.Sending? ==> s.sub.chan < s.chans && s.sub.chan !in s.closed)
    && (s.sub.Awaiting? <==> s.worker.Applying? || s.worker.Answering?)
    && (s.sub.Awaiting? ==> s.sub.chan == s.worker.chan && s.sub.push == s.worker.push)
    && (s.sub.Awaiting? ==> s.sub.chan < s.chans && s.sub.chan !in s.closed)
    && (s.worker.Closing? ==> s.worker.chan < s.chans && s.worker.chan !in s.closed)
    && (s.worker.Closing? && s.sub.Sending? ==> s.worker.chan != s.sub.chan)
  }

  /** Redis has the running configuration, except between the worker's change and the store. */
  predicate Agrees(s: Sys) {
    && (s.sub.Storing? ==> s.running == s.sub.config)
    && (s.worker.Answering? && s.worker.reply.Accepted? ==> s.running == s.worker.reply.config)
    && (!s.sub.Storing? && !(s.worker.Answering? && s.worker.reply.Accepted?) && !s.behind ==> s.stored == s.running)
  }

  function Pushes(log: seq<Exchange>): seq<Push> {
    if log == [] then [] else Pushes(log[..|log| - 1]) + [log[|log| - 1].push]
  }

  /** The configuration after the exchanges of the log. */
  function Settled(c: SendConfig, log: seq<Exchange>): SendConfig {
    if log == [] then c
    else
      var last := log[|log| - 1];
      if last.reply.Accepted? then last.reply.config else Settled(c, log[..|log| - 1])
  }

  /** Each reply was the right one for the configuration at the time, or a refusal. */
  predicate RightReplies(c: SendConfig, log: seq<Exchange>) {
    log == [] || (
      var n := |log| - 1;
      && RightReplies(c, log[..n])
      && (log[n].reply.Accepted? ==> log[n].reply == Applied(Settled(c, log[..n]), log[n].push)))
  }

  /** The log, with the exchange that the worker is in the middle of. */
  function Exchanges(s: Sys): seq<Exchange> {
    if s.worker.Answering? then s.log + [Exchange(s.worker.push, s.worker.reply)] else s.log
  }

  /** Every push that reached the worker was answered once, in order, except the one in its hands. */
  predicate Answered(s: Sys, c: SendConfig) {
    && s.reached == (if s.worker.Applying? then Pushes(s.log) + [s.worker.push] else Pushes(Exchanges(s)))
    && RightReplies(c, Exchanges(s))
    && s.running == Settled(c, Exchanges(s))
  }

  lemma PairedStep(s: Sys, e: Step)
    requires Paired(s) && Can(s, e)
    ensures Paired(Do(s, e)) && e != NoReturn
  {
  }

  lemma AgreesStep(s: Sys, e: Step)
    requires Paired(s) && Agrees(s) && Can(s, e)
    ensures Agrees(Do(s, e))
  {
  }

  lemma LogAppend(c: SendConfig, log: seq<Exchange>, x: Exchange)
    ensures Pushes(log + [x]) == Pushes(log) + [x.push]
    ensures Settled(c, log + [x]) == if x.reply.Accepted? then x.reply.config else Settled(c, log)
    ensures RightReplies(c, log + [x]) <==>
      RightReplies(c, log) && (x.reply.Accepted? ==> x.reply == Applied(Settled(c, log), x.push))
  {
    assert (log + [x])[..|log|] == log;
  }

  lemma AnsweredStep(s: Sys, c: SendConfig, e: Step)
    requires Paired(s) && Answered(s, c) && Can(s, e)
    ensures Answered(Do(s, e), c)
  {
    if e.Apply? {
      LogAppend(c, s.log, Exchange(s.worker.push, Applied(s.running, s.worker.push)));
    } else if e.Decline? {
      LogAppend(c, s.log, Exchange(s.worker.push, Rejected));
    }
  }

  predicate Sound(s: Sys, c: SendConfig) {
    Paired(s) && Agrees(s) && Answered(s, c)
  }

  lemma SoundStep(s: Sys, c: SendConfig, e: Step)
    requires Sound(s, c) && Can(s, e)
    ensures Sound(Do(s, e), c) && e != NoReturn
  {
    PairedStep(s, e);
    AgreesStep(s, e);
    AnsweredStep(s, c, e);
  }

  /** Over every interleaving: no push goes without a reply, every push that reached the worker is
      answered exactly once, and what runs is what the accepted pushes made of the first configuration. */
  lemma {:induction false} EveryPushAnswered(c: SendConfig, steps: seq<Step>)
    requires Runs(Start(c), steps)
    ensures Sound(After(Start(c), steps), c)
    ensures NoReturn !in steps
  {
    if steps != [] {
      var n := |steps| - 1;
      EveryPushAnswered(c, steps[..n]);
      SoundStep(After(Start(c), steps[..n]), c, steps[n]);
      assert steps == steps[..n] + [steps[n]];
    }
  }

  // What was answered, what runs and what is stored, by the steps.

  /** The pushes that came from Redis. */
  function Arrived(steps: seq<Step>): seq<Push> {
    if steps == [] then []
    else
      var e := steps[|steps| - 1];
      Arrived(steps[..|steps| - 1]) + if e.Arrive? then [e.push] else []
  }

  /** For each push that was answered, whether the worker applied or declined it. */
  function Verdicts(steps: seq<Step>): seq<bool> {
    if steps == [] then []
    else
      var e := steps[|steps| - 1];
      Verdicts(steps[..|steps| - 1]) + if e.Apply? then [true] else if e.Decline? then [false] else []
  }

  /** The pushes that were applied. */
  function Chosen(xs: seq<Exchange>, verdicts: seq<bool>): seq<Push>
    requires |xs| == |verdicts|
  {
    if xs == [] then []
    else
      var n := |xs| - 1;
      Chosen(xs[..n], verdicts[..n]) + if verdicts[n] then [xs[n].push] else []
  }

  /** Each push was answered by what it made of the ones applied before, if it was applied itself and could
      be read under the same ID, and was refused otherwise. */
  ghost predicate Tells(c: SendConfig, xs: seq<Exchange>, verdicts: seq<bool>) {
    && |xs| == |verdicts|
    && forall i :: 0 <= i < |xs| ==>
         xs[i].reply == if verdicts[i] && Readable(xs[i].push, c.id)
                        then Accepted(Held(c, Chosen(xs[..i + 1], verdicts[..i + 1]))) else Rejected
  }

  lemma TellsAppend(c: SendConfig, xs: seq<Exchange>, verdicts: seq<bool>, x: Exchange, verdict: bool)
    requires Tells(c, xs, verdicts)
    requires var chosen := Chosen(xs, verdicts) + if verdict then [x.push] else [];
      x.reply == if verdict && Readable(x.push, c.id) then Accepted(Held(c, chosen)) else Rejected
    ensures Tells(c, xs + [x], verdicts + [verdict])
    ensures Chosen(xs + [x], verdicts + [verdict]) == Chosen(xs, verdicts) + if verdict then [x.push] else []
  {
    var ys, vs := xs + [x], verdicts + [verdict];
    assert ys[..|xs|] == xs && vs[..|xs|] == verdicts;
    forall i | 0 <= i < |ys|
      ensures ys[i].reply == if vs[i] && Readable(ys[i].push, c.id)
                             then Accepted(Held(c, Chosen(ys[..i + 1], vs[..i + 1]))) else Rejected
    {
      if i < |xs| {
        assert ys[..i + 1] == xs[..i + 1] && vs[..i + 1] == verdicts[..i + 1];
      } else {
        assert ys[..i + 1] == ys && vs[..i + 1] == vs;
      }
    }
  }

  ghost predicate Told(s: Sys, c: SendConfig, verdicts: seq<bool>) {
    Tells(c, Exchanges(s), verdicts) && s.running == Held(c, Chosen(Exchanges(s), verdicts))
  }

  lemma ToldStep(s: Sys, c: SendConfig, verdicts: seq<bool>, e: Step)
    requires Paired(s) && Can(s, e) && Told(s, c, verdicts)
    ensures Told(Do(s, e), c, verdicts + if e.Apply? then [true] else if e.Decline? then [false] else [])
  {
    assert verdicts + [] == verdicts;
    if e.Apply? {
      var chosen := Chosen(s.log, verdicts);
      AppliedHolds(c, chosen, s.worker.push);
      TellsAppend(c, s.log, verdicts, Exchange(s.worker.push, Applied(s.running, s.worker.push)), true);
    } else if e.Decline? {
      TellsAppend(c, s.log, verdicts, Exchange(s.worker.push, Rejected), false);
      assert Chosen(s.log, verdicts) + [] == Chosen(s.log, verdicts);
    }
  }

  /** Over every interleaving: every reply, and what runs, are those of the pushes that were applied. */
  lemma {:induction false} PushesTell(c: SendConfig, steps: seq<Step>)
    requires Runs(Start(c), steps)
    ensures Told(After(Start(c), steps), c, Verdicts(steps))
  {
    if steps == [] {
      assert c == Held(c, []);
    } else {
      var n := |steps| - 1;
      PushesTell(c, steps[..n]);
      EveryPushAnswered(c, steps[..n]);
      ToldStep(After(Start(c), steps[..n]), c, Verdicts(steps[..n]), steps[n]);
    }
  }

  /** The pushes that reached the worker, and the one that is being sent. */
  function Coming(s: Sys): seq<Push> {
    s.reached + if s.sub.Sending? then [s.sub.push] else []
  }

  lemma ComingStep(s: Sys, e: Step)
    requires Paired(s) && Can(s, e)
    ensures Coming(Do(s, e)) == Coming(s) + if e.Arrive? then [e.push] else []
  {
  }

  /** Every push from Redis reaches the worker, in order, except the one that is being sent. */
  lemma {:induction false} ArrivedReaches(c: SendConfig, steps: seq<Step>)
    requires Runs(Start(c), steps)
    ensures Arrived(steps) == Coming(After(Start(c), steps))
  {
    if steps != [] {
      var n := |steps| - 1;
      ArrivedReaches(c, steps[..n]);
      EveryPushAnswered(c, steps[..n]);
      ComingStep(After(Start(c), steps[..n]), steps[n]);
    }
  }

  /** The last store, or -1; or the last one that succeeded. */
  function LastStore(steps: seq<Step>, succeeded: bool): (i: int)
    ensures -1 <= i < |steps| && (i >= 0 ==> steps[i].Store? && (succeeded ==> steps[i].ok))
  {
    var n := |steps| - 1;
    if n < 0 || (steps[n].Store? && (succeeded ==> steps[n].ok)) then n else LastStore(steps[..n], succeeded)
  }

  lemma StoreStep(s: Sys, e: Step)
    requires Agrees(s) && Can(s, e)
    ensures var t := Do(s, e);
      if e.Store? then t.behind == !e.ok && t.stored == (if e.ok then s.running else s.stored)
      else t.behind == s.behind && t.stored == s.stored
  {
  }

  /** Redis has what ran when it was last stored; it is behind exactly if the last store failed. */
  lemma {:induction false} StoredTells(c: SendConfig, steps: seq<Step>)
    requires Runs(Start(c), steps)
    ensures var s, i, k := After(Start(c), steps), LastStore(steps, false), LastStore(steps, true);
      && (s.behind <==> i >= 0 && !steps[i].ok)
      && s.stored == if k < 0 then c else After(Start(c), steps[..k]).running
  {
    if steps != [] {
      var n := |steps| - 1;
      StoredTells(c, steps[..n]);
      EveryPushAnswered(c, steps[..n]);
      var k := LastStore(steps[..n], true);
      assert k >= 0 ==> steps[..n][..k] == steps[..k];
      StoreStep(After(Start(c), steps[..n]), steps[n]);
    }
  }

  /** Whenever the registration waits for a push, Redis has what the worker runs, unless the last
      accepted configuration could not be stored. */
  lemma StoredIsRunning(c: SendConfig, steps: seq<Step>)
    requires Runs(Start(c), steps)
    ensures var s := After(Start(c), steps); s.sub.Waiting? && !s.behind ==> s.stored == s.running
  {
    EveryPushAnswered(c, steps);
  }

  lemma {:induction false} SettledID(c: SendConfig, log: seq<Exchange>)
    requires RightReplies(c, log)
    ensures Settled(c, log).id == c.id
  {
    if log != [] {
      SettledID(c, log[..|log| - 1]);
    }
  }

  /** No push ever changes the ID. */
  lemma IDConstant(c: SendConfig, steps: seq<Step>)
    requires Runs(Start(c), steps)
    ensures After(Start(c), steps).running.id == c.id
  {
    EveryPushAnswered(c, steps);
    var s := After(Start(c), steps);
    SettledID(c, Exchanges(s));
  }

  /** A push that is rejected changes nothing: not from the moment it reaches the worker to the moment
      it was answered, in Redis or in the worker. */
  lemma RejectedChangesNothing(c: SendConfig, steps: seq<Step>, e: Step)
    requires Runs(Start(c), steps) && e in {Apply, Decline} && Can(After(Start(c), steps), e)
    requires Do(After(Start(c), steps), e).worker.reply.Rejected?
    ensures var s := After(Start(c), steps); var t := Do(s, e);
      && t.running == s.running && t.stored == s.stored
      && Can(t, Answer) && Do(t, Answer).sub == Waiting
      && Do(t, Answer).running == s.running && Do(t, Answer).stored == s.stored
  {
    EveryPushAnswered(c, steps);
  }

  /** An exchange never gets stuck, and the return channel is never closed twice. */
  predicate Moves(s: Sys) {
    && (s.sub.Awaiting? ==> Can(s, Apply) || Can(s, Answer))
    && (s.sub.Sending? && !s.worker.Exited? ==> Can(s, HandOver) || Can(s, Close))
    && (s.worker.Closing? ==> s.worker.chan !in s.closed)
  }

  lemma PairedMoves(s: Sys)
    requires Paired(s)
    ensures Moves(s)
  {
  }

  lemma ExchangeMoves(c: SendConfig, steps: seq<Step>)
    requires Runs(Start(c), steps)
    ensures Moves(After(Start(c), steps))
  {
    EveryPushAnswered(c, steps);
    PairedMoves(After(Start(c), steps));
  }
}
