/** Log distribution (logs/logs.go, logs/follower.go): one broadcaster, bounded channels, and
    followers that drop what their reader is too slow for, and say how much. */
module Logs {
  const LOGS_BUFFER := 100

  datatype LogMsg = LogMsg(line: string, dropped: nat)

  // ---------------------------------------------------------------------------------------------
  // What a follower passes on.

  /** How many messages `written` accounts for: itself, and those it reports dropped. */
  function Span(written: seq<LogMsg>): nat {
    if written == [] then 0 else Span(written[..|written| - 1]) + 1 + written[|written| - 1].dropped
  }

  /** Where message `i` of `written` stood among the messages taken. */
  function Position(written: seq<LogMsg>, i: nat): int
    requires i < |written|
  {
    Span(written[..i + 1]) - 1
  }

  /** Each message written is the one taken at its position, and the drops fill the gaps. */
  ghost predicate Accounts(written: seq<LogMsg>, taken: seq<LogMsg>, drops: nat) {
    && Span(written) + drops == |taken|
    && forall i :: 0 <= i < |written| ==>
         && 0 <= Position(written, i) < |taken|
         && written[i] == taken[Position(written, i)].(dropped := written[i].dropped)
  }

  lemma SpanAppend(written: seq<LogMsg>, m: LogMsg)
    ensures Span(written + [m]) == Span(written) + 1 + m.dropped
    ensures forall i :: 0 <= i < |written| ==> Position(written + [m], i) == Position(written, i)
    ensures Position(written + [m], |written|) == Span(written) + m.dropped
  {
    assert (written + [m])[..|written|] == written;
    assert (written + [m])[..|written| + 1] == written + [m];
    forall i | 0 <= i < |written|
      ensures Position(written + [m], i) == Position(written, i)
    {
      assert (written + [m])[..i + 1] == written[..i + 1];
    }
  }

  lemma {:induction false} SpanGrows(written: seq<LogMsg>, i: nat, j: nat)
    requires i <= j <= |written|
    ensures Span(written[..i]) + (j - i) <= Span(written[..j])
  {
    if i < j {
      SpanGrows(written, i, j - 1);
      assert written[..j][..j - 1] == written[..j - 1];
    }
  }

  /** Messages are written in the order they were taken. */
  lemma PositionsIncrease(written: seq<LogMsg>, i: nat, j: nat)
    requires i < j < |written|
    ensures Position(written, i) < Position(written, j)
  {
    SpanGrows(written, i + 1, j + 1);
  }

  lemma AccountsWrite(written: seq<LogMsg>, taken: seq<LogMsg>, drops: nat, m: LogMsg)
    requires Accounts(written, taken, drops)
    ensures Accounts(written + [m.(dropped := drops)], taken + [m], 0)
  {
    SpanAppend(written, m.(dropped := drops));
  }

  lemma AccountsDrop(written: seq<LogMsg>, taken: seq<LogMsg>, drops: nat, m: LogMsg)
    requires Accounts(written, taken, drops)
    ensures Accounts(written, taken + [m], drops + 1)
  {
  }

  /** Some written message is message `k` of those taken. */
  ghost predicate Kept(written: seq<LogMsg>, k: nat) {
    exists i :: 0 <= i < |written| && Position(written, i) == k
  }

  lemma KeptAppend(written: seq<LogMsg>, m: LogMsg, k: nat)
    ensures Kept(written + [m], k) <==> Kept(written, k) || k == Span(written) + m.dropped
  {
    SpanAppend(written, m);
    if Kept(written, k) {
      var i :| 0 <= i < |written| && Position(written, i) == k;
      assert Position(written + [m], i) == k;
    }
    if k == Span(written) + m.dropped {
      assert Position(written + [m], |written|) == k;
    }
  }

  lemma KeptBelow(written: seq<LogMsg>, taken: seq<LogMsg>, drops: nat)
    requires Accounts(written, taken, drops)
    ensures !Kept(written, |taken|)
  {
  }

  /** `logFollower.run` over what it receives; `writable[k]` says whether the write channel has room
      for message k. What is written is exactly the writable messages, each at its position. */
  method Forward(msgs: seq<LogMsg>, writable: seq<bool>) returns (written: seq<LogMsg>, drops: nat)
    requires |writable| == |msgs|
    ensures Accounts(written, msgs, drops)
    ensures forall k :: 0 <= k < |msgs| ==> (writable[k] <==> Kept(written, k))
  {
    written, drops := [], 0;
    for n := 0 to |msgs|
      invariant Accounts(written, msgs[..n], drops)
      invariant forall k :: 0 <= k < n ==> (writable[k] <==> Kept(written, k))
    {
      var msg := msgs[n].(dropped := drops);
      assert msgs[..n + 1] == msgs[..n] + [msgs[n]];
      KeptBelow(written, msgs[..n], drops);
      if writable[n] {
        AccountsWrite(written, msgs[..n], drops, msgs[n]);
        forall k: nat | k <= n {
          KeptAppend(written, msg, k);
        }
        written := written + [msg];
        drops := 0;
      } else {
        AccountsDrop(written, msgs[..n], drops, msgs[n]);
        drops := drops + 1;
      }
    }
    assert msgs[..|msgs|] == msgs;
  }

  // ---------------------------------------------------------------------------------------------
  // The broadcaster on its own, as if every send succeeded at once.

  datatype Request = WriteLine(line: string) | Subscribe | Unsubscribe(chan: nat)

  /** Every open channel has been sent the history, every other one a prefix of it. */
  ghost predicate Delivered(history: seq<LogMsg>, subscribers: set<nat>, out: seq<seq<LogMsg>>) {
    && (forall c :: c in subscribers ==> c < |out| && out[c] == history)
    && (forall c :: 0 <= c < |out| ==> out[c] <= history)
  }

  /** The loop over the subscribers, in any order of the map iteration. */
  method Broadcast(history: seq<LogMsg>, subscribers: set<nat>, out0: seq<seq<LogMsg>>, msg: LogMsg)
    returns (out: seq<seq<LogMsg>>)
    requires Delivered(history, subscribers, out0)
    ensures |out| == |out0| && Delivered(history + [msg], subscribers, out)
    ensures forall c :: 0 <= c < |out| && c !in subscribers ==> out[c] == out0[c]
  {
    out := out0;
    var todo := subscribers;
    while todo != {}
      invariant todo <= subscribers && |out| == |out0|
      invariant forall c :: c in subscribers ==> out[c] == if c in todo then history else history + [msg]
      invariant forall c :: 0 <= c < |out| && c !in subscribers ==> out[c] == out0[c]
      decreases todo
    {
      var c :| c in todo;
      out := out[c := out[c] + [msg]];
      todo := todo - {c};
    }
  }

  /** A new channel is sent the history, message by message. */
  method Replay(history: seq<LogMsg>, subscribers: set<nat>, out0: seq<seq<LogMsg>>) returns (out: seq<seq<LogMsg>>)
    requires Delivered(history, subscribers, out0)
    ensures |out| == |out0| + 1 && Delivered(history, subscribers + {|out0|}, out)
    ensures forall c :: 0 <= c < |out0| ==> out[c] == out0[c]
  {
    var c := |out0|;
    out := out0 + [[]];
    for i := 0 to |history|
      invariant |out| == c + 1 && out[c] == history[..i]
      invariant forall d :: 0 <= d < c ==> out[d] == out0[d]
    {
      out := out[c := out[c] + [history[i]]];
    }
    assert history[..|history|] == history;
  }

  /** The messages of the lines that were written; none says that any was dropped. */
  function Logged(requests: seq<Request>): seq<LogMsg> {
    if requests == [] then []
    else
      var r := requests[|requests| - 1];
      Logged(requests[..|requests| - 1]) + if r.WriteLine? then [LogMsg(r.line, 0)] else []
  }

  /** What a channel is due: everything logged until it unsubscribed. */
  function DueTo(requests: seq<Request>, c: nat): seq<LogMsg> {
    if requests == [] then []
    else
      var before := requests[..|requests| - 1];
      if Unsubscribe(c) in before then DueTo(before, c) else Logged(requests)
  }

  function Subscriptions(requests: seq<Request>): nat {
    if requests == [] then 0
    else Subscriptions(requests[..|requests| - 1]) + if requests[|requests| - 1] == Subscribe then 1 else 0
  }

  /** After `before`, `r` would close a channel that is not open: unknown, or closed already. */
  predicate BadClose(before: seq<Request>, r: Request) {
    r.Unsubscribe? && (r.chan >= Subscriptions(before) || r in before)
  }

  /** No channel is closed twice. */
  predicate ClosesOnce(requests: seq<Request>)
  {
    requests != [] ==>
      var n := |requests| - 1;
      ClosesOnce(requests[..n]) && !BadClose(requests[..n], requests[n])
  }

  lemma {:induction false} PrefixClosesOnce(requests: seq<Request>, n: nat)
    requires ClosesOnce(requests) && n <= |requests|
    ensures ClosesOnce(requests[..n])
  {
    if n < |requests| {
      var m := |requests| - 1;
      PrefixClosesOnce(requests[..m], n);
      assert requests[..m][..n] == requests[..n];
    } else {
      assert requests[..n] == requests;
    }
  }

  lemma {:induction false} NotYetClosed(requests: seq<Request>, c: nat)
    requires ClosesOnce(requests) && c >= Subscriptions(requests)
    ensures Unsubscribe(c) !in requests
  {
    if requests != [] {
      var n := |requests| - 1;
      NotYetClosed(requests[..n], c);
      assert requests == requests[..n] + [requests[n]];
    }
  }

  /** What is left of a clean run of requests. */
  ghost predicate Booked(requests: seq<Request>, history: seq<LogMsg>, subscribers: set<nat>, channels: nat) {
    && ClosesOnce(requests)
    && history == Logged(requests)
    && channels == Subscriptions(requests)
    && forall c: nat :: c in subscribers <==> c < channels && Unsubscribe(c) !in requests
  }

  lemma BookedStep(requests: seq<Request>, r: Request, history: seq<LogMsg>, subscribers: set<nat>, channels: nat)
    requires Booked(requests, history, subscribers, channels)
    ensures match r
      case WriteLine(line) => Booked(requests + [r], history + [LogMsg(line, 0)], subscribers, channels)
      case Subscribe => Booked(requests + [r], history, subscribers + {channels}, channels + 1)
      case Unsubscribe(c) => if c in subscribers then Booked(requests + [r], history, subscribers - {c}, channels)
                             else !ClosesOnce(requests + [r])
  {
    var after := requests + [r];
    assert after[..|requests|] == requests;
    match r
    case WriteLine(line) =>
    case Subscribe =>
      NotYetClosed(requests, channels);
    case Unsubscribe(c) =>
  }

  /** Every channel has been sent what it is due. */
  ghost predicate Served(requests: seq<Request>, out: seq<seq<LogMsg>>) {
    forall c :: 0 <= c < |out| ==> out[c] == DueTo(requests, c)
  }

  lemma ServedStep(requests: seq<Request>, r: Request, history: seq<LogMsg>, subscribers: set<nat>,
                   out0: seq<seq<LogMsg>>, out: seq<seq<LogMsg>>)
    requires Booked(requests, history, subscribers, |out0|) && Served(requests, out0) && |out0| <= |out|
    requires forall c :: 0 <= c < |out| && c !in subscribers && c < |out0| ==> out[c] == out0[c]
    requires forall c :: 0 <= c < |out| && (c in subscribers || c >= |out0|) ==> out[c] == Logged(requests + [r])
    ensures Served(requests + [r], out)
  {
    assert (requests + [r])[..|requests|] == requests;
    forall c: nat | c < |out|
      ensures out[c] == DueTo(requests + [r], c)
    {
      if c >= |out0| {
        NotYetClosed(requests, c);
      }
    }
  }

  /** One turn of the select. */
  method Serve(ghost before: seq<Request>, r: Request, history0: seq<LogMsg>, subscribers0: set<nat>,
               out0: seq<seq<LogMsg>>)
    returns (history: seq<LogMsg>, subscribers: set<nat>, out: seq<seq<LogMsg>>, panicked: bool)
    requires Delivered(history0, subscribers0, out0)
    requires Booked(before, history0, subscribers0, |out0|) && Served(before, out0)
    ensures Delivered(history, subscribers, out)
    ensures panicked <==> !ClosesOnce(before + [r])
    ensures !panicked ==> Booked(before + [r], history, subscribers, |out|) && Served(before + [r], out)
  {
    history, subscribers, out, panicked := history0, subscribers0, out0, false;
    BookedStep(before, r, history, subscribers, |out|);
    match r
    case WriteLine(line) =>
      out := Broadcast(history, subscribers, out, LogMsg(line, 0));
      history := history + [LogMsg(line, 0)];
      ServedStep(before, r, history0, subscribers0, out0, out);
    case Subscribe =>
      out := Replay(history, subscribers, out);
      subscribers := subscribers + {|out0|};
      ServedStep(before, r, history0, subscribers0, out0, out);
    case Unsubscribe(c) =>
      panicked := c !in subscribers;
      subscribers := subscribers - {c};
      if !panicked {
        ServedStep(before, r, history0, subscribers0, out0, out);
      }
  }

  /** `Logs.run`. Channels are numbered as they subscribe; `out[c]` is all that was sent to channel
      c. Between requests every subscriber has been sent the whole history, and every channel that
      unsubscribed has been sent a prefix of it. Closing a channel twice panics. */
  method Distribute(requests: seq<Request>)
    returns (history: seq<LogMsg>, subscribers: set<nat>, out: seq<seq<LogMsg>>, panicked: bool)
    ensures Delivered(history, subscribers, out)
    ensures panicked <==> !ClosesOnce(requests)
    ensures !panicked ==> Booked(requests, history, subscribers, |out|) && Served(requests, out)
  {
    history, subscribers, out, panicked := [], {}, [], false;
    for n := 0 to |requests|
      invariant !panicked && Delivered(history, subscribers, out)
      invariant Booked(requests[..n], history, subscribers, |out|) && Served(requests[..n], out)
    {
      assert requests[..n + 1] == requests[..n] + [requests[n]];
      history, subscribers, out, panicked := Serve(requests[..n], requests[n], history, subscribers, out);
      if panicked {
        if ClosesOnce(requests) {
          PrefixClosesOnce(requests, n + 1);
        }
        return;
      }
    }
    assert requests[..|requests|] == requests;
  }
}
