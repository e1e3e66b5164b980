/**
 `_BrokerTunnelTransport` (src/server/tunnel.py): writes and the close become asyncio tasks, and what reaches the broker
 depends on when each task first runs. The event loop is a list of tasks that have not run yet.
 */
module TunnelTransport {
  import opened Text

  datatype Task = WriteTask(data: Bytes, cancelled: bool) | CloseTask

  /** A call that reached the broker, in order; `ok` is false when `send_data` raised before writing a frame. */
  datatype Call = Send(data: Bytes, ok: bool) | CloseCall

  /** `accepted` is every payload that `write` did not ignore; `closeStarted` tells `close` from an end of stream. */
  datatype Transport = Transport(
    closing: bool,
    closeStarted: bool,
    ready: seq<Task>,
    streamClosed: bool,
    calls: seq<Call>,
    accepted: seq<Bytes>)

  datatype Action =
    | Write(data: Bytes)
    | Close
    | WriteFailed              // `_write_done` for a task that raised
    | EndOfStream              // the read loop finds the stream at its end
    | FeedEof                  // the broker marks the stream closed
    | RunTask(i: nat, ok: bool)

  function Initial(): Transport {
    Transport(false, false, [], false, [], [])
  }

  function Cancelled(t: Task): Task {
    match t
    case WriteTask(data, _) => WriteTask(data, true)
    case CloseTask => CloseTask
  }

  function CancelAll(ready: seq<Task>): seq<Task> {
    if ready == [] then [] else [Cancelled(ready[0])] + CancelAll(ready[1..])
  }

  function Closed(t: Transport): Transport {
    if t.closing then t
    else t.(closing := true, closeStarted := true, ready := CancelAll(t.ready) + [CloseTask])
  }

  /** The first step of a task: a cancelled one raises at once, and the stream closes at most once. */
  function Ran(t: Transport, task: Task, ok: bool): Transport {
    match task
    case WriteTask(data, cancelled) => if cancelled then t else t.(calls := t.calls + [Send(data, ok)])
    case CloseTask => if t.streamClosed then t else t.(streamClosed := true, calls := t.calls + [CloseCall])
  }

  predicate Possible(t: Transport, a: Action) {
    a.RunTask? ==> a.i < |t.ready|
  }

  function Step(t: Transport, a: Action): Transport
    requires Possible(t, a)
  {
    match a
    case Write(data) =>
      if t.closing || data == [] then t
      else t.(ready := t.ready + [WriteTask(data, false)], accepted := t.accepted + [data])
    case Close => Closed(t)
    case WriteFailed => Closed(t)
    case EndOfStream => t.(closing := true)
    case FeedEof => t.(streamClosed := true)
    case RunTask(i, ok) => Ran(t.(ready := t.ready[..i] + t.ready[i + 1..]), t.ready[i], ok)
  }

  // ---------------------------------------------------------------- the object

  /** The transport as it is updated in place. */
  class BrokerTunnelTransport {
    var closing: bool
    var ready: seq<Task>
    var streamClosed: bool
    var calls: seq<Call>
    ghost var closeStarted: bool
    ghost var accepted: seq<Bytes>

    ghost function View(): Transport
      reads this
    {
      Transport(closing, closeStarted, ready, streamClosed, calls, accepted)
    }

    constructor ()
      ensures View() == Initial()
    {
      closing, ready, streamClosed, calls := false, [], false, [];
      closeStarted, accepted := false, [];
    }

    method Write(data: Bytes)
      modifies this
      ensures View() == Step(old(View()), Action.Write(data))
      ensures closing == old(closing) && streamClosed == old(streamClosed) && calls == old(calls)
      ensures ready == if old(closing) || data == [] then old(ready) else old(ready) + [WriteTask(data, false)]
    {
      if closing || data == [] { return; }
      ready := ready + [WriteTask(data, false)];
      accepted := accepted + [data];
    }

    /** The close task is created first; then every write task that has not run is cancelled. */
    method Close()
      modifies this
      ensures View() == Step(old(View()), Action.Close)
      ensures closing && streamClosed == old(streamClosed) && calls == old(calls)
      ensures old(closing) ==> ready == old(ready)
      ensures !old(closing) ==>
                |ready| == |old(ready)| + 1 && ready[|old(ready)|] == CloseTask
                && forall i :: 0 <= i < |old(ready)| ==>
                     ready[i] == if old(ready)[i].WriteTask? then WriteTask(old(ready)[i].data, true) else old(ready)[i]
    {
      if closing { return; }
      closing, closeStarted := true, true;
      var tasks := ready;
      ready := ready + [CloseTask];
      var i := 0;
      while i < |tasks|
        invariant 0 <= i <= |tasks| && |ready| == |tasks| + 1 && ready[|tasks|] == CloseTask
        invariant forall k :: 0 <= k < |tasks| ==> ready[k] == if k < i then Cancelled(tasks[k]) else tasks[k]
        invariant closing && closeStarted && streamClosed == old(streamClosed) && calls == old(calls)
        invariant accepted == old(accepted)
      {
        ready := ready[i := Cancelled(ready[i])];
        i := i + 1;
      }
      CancelAllLength(tasks);
      assert ready == CancelAll(tasks) + [CloseTask];
    }

    /** `_write_done`, for a task that was not cancelled. */
    method WriteDone(raised: bool)
      modifies this
      ensures View() == if raised then Step(old(View()), WriteFailed) else old(View())
      ensures closing == (old(closing) || raised) && calls == old(calls)
    {
      if raised { Close(); }
    }

    /** The event loop gives a task its first step. */
    method Run(i: nat, ok: bool)
      requires i < |ready|
      modifies this
      ensures View() == Step(old(View()), RunTask(i, ok))
      ensures ready == old(ready)[..i] + old(ready)[i + 1..] && closing == old(closing)
      ensures old(ready)[i].WriteTask? ==>
                streamClosed == old(streamClosed)
                && calls == if old(ready)[i].cancelled then old(calls) else old(calls) + [Send(old(ready)[i].data, ok)]
      ensures old(ready)[i].CloseTask? ==>
                streamClosed && calls == if old(streamClosed) then old(calls) else old(calls) + [CloseCall]
    {
      var task := ready[i];
      ready := ready[..i] + ready[i + 1..];
      match task {
        case WriteTask(data, cancelled) =>
          if !cancelled { calls := calls + [Send(data, ok)]; }
        case CloseTask =>
          if !streamClosed {
            streamClosed := true;
            calls := calls + [CloseCall];
          }
      }
    }
  }

  lemma {:induction false} CancelAllLength(ready: seq<Task>)
    ensures |CancelAll(ready)| == |ready|
    ensures forall i :: 0 <= i < |ready| ==> CancelAll(ready)[i] == Cancelled(ready[i])
  {
    if ready != [] { CancelAllLength(ready[1..]); }
  }

  /** The end of the stream stops writes and makes a close call come to nothing, and does nothing to what waits. */
  lemma EndOfStreamStops(t: Transport, data: Bytes)
    ensures var u := Step(t, EndOfStream);
            u.ready == t.ready && u.calls == t.calls
            && Step(u, Write(data)) == u && Step(u, Close) == u && Step(u, WriteFailed) == u
  {
  }

  /** A stream that the broker has ended is not closed once more. */
  lemma FeedEofStops(t: Transport, i: nat, ok: bool)
    requires i < |t.ready| && t.ready[i] == CloseTask
    ensures Step(t, FeedEof).ready == t.ready && Step(t, FeedEof).closing == t.closing
    ensures Step(Step(t, FeedEof), RunTask(i, ok)).calls == t.calls
  {
  }

  // ---------------------------------------------------------------- runs under any schedule

  predicate IsRun(t: Transport, actions: seq<Action>)
    decreases |actions|
  {
    actions == [] || (Possible(t, actions[0]) && IsRun(Step(t, actions[0]), actions[1..]))
  }

  function After(t: Transport, actions: seq<Action>): Transport
    requires IsRun(t, actions)
    decreases |actions|
  {
    if actions == [] then t else After(Step(t, actions[0]), actions[1..])
  }

  predicate HasClose(calls: seq<Call>) {
    CloseCall in calls
  }

  /** Nothing is sent once the close has reached the broker, and it reaches it at most once. */
  predicate CloseIsLast(calls: seq<Call>) {
    forall i :: 0 <= i < |calls| && calls[i] == CloseCall ==> i == |calls| - 1
  }

  /** After `close`, every write that has not run is cancelled; before it there is no close task. */
  ghost predicate Orderly(t: Transport) {
    && CloseIsLast(t.calls)
    && (HasClose(t.calls) ==> t.closeStarted && t.streamClosed)
    && (t.closeStarted ==> t.closing && forall i :: 0 <= i < |t.ready| && t.ready[i].WriteTask? ==> t.ready[i].cancelled)
    && (!t.closeStarted ==> CloseTask !in t.ready)
  }

  lemma StepOrderly(t: Transport, a: Action)
    requires Orderly(t) && Possible(t, a)
    ensures Orderly(Step(t, a))
  {
    CancelAllLength(t.ready);
    if a.RunTask? {
      assert t.ready[a.i] in t.ready;
    }
  }

  /** Whatever order the event loop runs the tasks in, no payload is sent after the close. */
  lemma {:induction false} NothingAfterClose(t: Transport, actions: seq<Action>)
    requires Orderly(t) && IsRun(t, actions)
    ensures Orderly(After(t, actions)) && CloseIsLast(After(t, actions).calls)
    decreases |actions|
  {
    if actions != [] {
      StepOrderly(t, actions[0]);
      NothingAfterClose(Step(t, actions[0]), actions[1..]);
    }
  }

  // ---------------------------------------------------------------- a first-in first-out event loop

  /** Each task that runs is the oldest. */
  predicate Fifo(actions: seq<Action>) {
    actions == [] || ((actions[0].RunTask? ==> actions[0].i == 0) && Fifo(actions[1..]))
  }

  /** The payloads handed to the broker, in order, whether or not it accepted them. */
  function Handed(calls: seq<Call>): seq<Bytes> {
    if calls == [] then []
    else
      var c := calls[|calls| - 1];
      Handed(calls[..|calls| - 1]) + if c.Send? then [c.data] else []
  }

  function Waiting(ready: seq<Task>): seq<Bytes> {
    if ready == [] then []
    else Payload(ready[0]) + Waiting(ready[1..])
  }

  lemma HandedAppend(calls: seq<Call>, c: Call)
    ensures Handed(calls + [c]) == Handed(calls) + if c.Send? then [c.data] else []
  {
    assert (calls + [c])[..|calls|] == calls;
  }

  function Payload(t: Task): seq<Bytes> {
    if t.WriteTask? then [t.data] else []
  }

  lemma {:induction false} WaitingAppend(ready: seq<Task>, t: Task)
    ensures Waiting(ready + [t]) == Waiting(ready) + Payload(t)
  {
    if ready == [] {
      assert ready + [t] == [t];
    } else {
      assert (ready + [t])[1..] == ready[1..] + [t];
      WaitingAppend(ready[1..], t);
      assert Payload(ready[0]) + (Waiting(ready[1..]) + Payload(t)) == Payload(ready[0]) + Waiting(ready[1..]) + Payload(t);
    }
  }

  ghost predicate InOrder(t: Transport) {
    && Handed(t.calls) <= t.accepted
    && (!t.closeStarted ==> Handed(t.calls) + Waiting(t.ready) == t.accepted)
    && (!t.closeStarted ==> forall i :: 0 <= i < |t.ready| ==> t.ready[i].WriteTask? && !t.ready[i].cancelled)
  }

  lemma WriteInOrder(t: Transport, data: Bytes)
    requires Orderly(t) && InOrder(t)
    ensures InOrder(Step(t, Write(data)))
  {
    WaitingAppend(t.ready, WriteTask(data, false));
    if !t.closing && data != [] && !t.closeStarted {
      assert (Handed(t.calls) + Waiting(t.ready)) + [data] == Handed(t.calls) + (Waiting(t.ready) + [data]);
    }
  }

  lemma RunInOrder(t: Transport, ok: bool)
    requires Orderly(t) && InOrder(t) && t.ready != []
    ensures InOrder(Step(t, RunTask(0, ok)))
  {
    var task := t.ready[0];
    assert t.ready[..0] + t.ready[1..] == t.ready[1..];
    if task.WriteTask? && !task.cancelled {
      HandedAppend(t.calls, Send(task.data, ok));
      assert Handed(t.calls) + Waiting(t.ready) == t.accepted;
      assert (Handed(t.calls) + [task.data]) + Waiting(t.ready[1..]) == Handed(t.calls) + Waiting(t.ready);
    } else {
      HandedAppend(t.calls, CloseCall);
      assert Handed(t.calls) + [] == Handed(t.calls);
    }
  }

  lemma StepInOrder(t: Transport, a: Action)
    requires Orderly(t) && InOrder(t) && Possible(t, a) && (a.RunTask? ==> a.i == 0)
    ensures InOrder(Step(t, a))
  {
    match a
    case Write(data) => WriteInOrder(t, data);
    case RunTask(i, ok) => RunInOrder(t, ok);
    case _ =>
  }

  lemma {:induction false} InOrderHolds(t: Transport, actions: seq<Action>)
    requires Orderly(t) && InOrder(t) && IsRun(t, actions) && Fifo(actions)
    ensures InOrder(After(t, actions))
    decreases |actions|
  {
    if actions != [] {
      StepOrderly(t, actions[0]);
      StepInOrder(t, actions[0]);
      InOrderHolds(Step(t, actions[0]), actions[1..]);
    }
  }

  /** The payloads on the wire: those that the broker accepted. */
  function Sent(calls: seq<Call>): seq<Bytes> {
    if calls == [] then []
    else
      var c := calls[|calls| - 1];
      Sent(calls[..|calls| - 1]) + if c.Send? && c.ok then [c.data] else []
  }

  predicate NoWriteError(calls: seq<Call>) {
    forall c :: c in calls && c.Send? ==> c.ok
  }

  lemma {:induction false} SentWithoutErrors(calls: seq<Call>)
    requires NoWriteError(calls)
    ensures Sent(calls) == Handed(calls)
  {
    if calls != [] {
      assert calls[|calls| - 1] in calls;
      forall c | c in calls[..|calls| - 1] && c.Send? ensures c.ok {
        assert c in calls;
      }
      SentWithoutErrors(calls[..|calls| - 1]);
    }
  }

  /**
   With a first-in first-out loop and no write error, what is sent is a prefix of what was written, in order; and until
   `close` is called, the rest is exactly what still waits in the loop.
   */
  lemma WritesSentInOrder(actions: seq<Action>)
    requires IsRun(Initial(), actions) && Fifo(actions)
    ensures var t := After(Initial(), actions);
            && CloseIsLast(t.calls)
            && (NoWriteError(t.calls) ==> Sent(t.calls) <= t.accepted)
            && (NoWriteError(t.calls) && !t.closeStarted ==> Sent(t.calls) + Waiting(t.ready) == t.accepted)
  {
    var t := After(Initial(), actions);
    NothingAfterClose(Initial(), actions);
    InOrderHolds(Initial(), actions);
    if NoWriteError(t.calls) { SentWithoutErrors(t.calls); }
  }

  /** After `close`, nothing more is ever handed to the broker: a payload still waiting then is lost. */
  lemma {:induction false} CloseDropsWaiting(t: Transport, actions: seq<Action>)
    requires Orderly(t) && t.closeStarted && IsRun(t, actions)
    ensures Handed(After(t, actions).calls) == Handed(t.calls)
    ensures After(t, actions).accepted == t.accepted
    decreases |actions|
  {
    if actions != [] {
      var a := actions[0];
      StepOrderly(t, a);
      if a.RunTask? {
        assert t.ready[a.i] in t.ready;
        HandedAppend(t.calls, CloseCall);
        assert Handed(t.calls) + [] == Handed(t.calls);
      }
      CloseDropsWaiting(Step(t, a), actions[1..]);
    }
  }

  /** `close` keeps all that was written if and only if no write was waiting when it was called. */
  lemma CloseKeepsAllIff(before: seq<Action>, after: seq<Action>)
    requires IsRun(Initial(), before) && Fifo(before)
    requires var t := After(Initial(), before);
             !t.closing && !t.closeStarted && IsRun(Closed(t), after)
    ensures var t := After(Initial(), before); var end := After(Closed(t), after);
            Handed(end.calls) == end.accepted <==> Waiting(t.ready) == []
  {
    var t := After(Initial(), before);
    NothingAfterClose(Initial(), before);
    InOrderHolds(Initial(), before);
    StepOrderly(t, Close);
    CloseDropsWaiting(Closed(t), after);
    assert Handed(t.calls) + Waiting(t.ready) == t.accepted;
  }

  // ---------------------------------------------------------------- after a write error

  /** For each payload handed over, in order, whether the broker accepted it. */
  function Flags(calls: seq<Call>): seq<bool> {
    if calls == [] then []
    else
      var c := calls[|calls| - 1];
      Flags(calls[..|calls| - 1]) + if c.Send? then [c.ok] else []
  }

  lemma {:induction false} FlagsCount(calls: seq<Call>)
    ensures |Flags(calls)| == |Handed(calls)| && |Sent(calls)| <= |Handed(calls)|
    ensures |Sent(calls)| == |Handed(calls)| <==> NoWriteError(calls)
  {
    if calls != [] {
      var init, c := calls[..|calls| - 1], calls[|calls| - 1];
      FlagsCount(init);
      assert calls == init + [c];
      assert NoWriteError(calls) <==> NoWriteError(init) && (c.Send? ==> c.ok);
    }
  }

  /** The payloads sent are, by position, the first of those handed over and no others. */
  ghost predicate SentIsSegment(calls: seq<Call>) {
    forall i :: 0 <= i < |Flags(calls)| ==> (Flags(calls)[i] <==> i < |Sent(calls)|)
  }

  ghost predicate NoneAfterFailure(calls: seq<Call>) {
    forall i, j :: 0 <= i < j < |calls| && calls[i].Send? && !calls[i].ok && calls[j].Send? ==> !calls[j].ok
  }

  lemma NoneAfterFailureAppend(init: seq<Call>, c: Call)
    ensures NoneAfterFailure(init + [c]) <==> NoneAfterFailure(init) && (c.Send? && c.ok ==> NoWriteError(init))
  {
    var calls := init + [c];
    assert forall i :: 0 <= i < |init| ==> calls[i] == init[i];
    if NoneAfterFailure(calls) {
      forall i, j | 0 <= i < j < |init| && init[i].Send? && !init[i].ok && init[j].Send? ensures !init[j].ok {
        assert calls[i] == init[i] && calls[j] == init[j];
      }
      if c.Send? && c.ok {
        forall d | d in init && d.Send? ensures d.ok {
          var i :| 0 <= i < |init| && init[i] == d;
          assert calls[i] == d && calls[|init|] == c;
        }
      }
    }
  }

  lemma SegmentAppend(init: seq<Call>, c: Call)
    ensures SentIsSegment(init + [c]) <==> SentIsSegment(init) && (c.Send? && c.ok ==> |Sent(init)| == |Flags(init)|)
  {
    FlagsCount(init);
    var calls := init + [c];
    assert calls[..|init|] == init;
    var flags, n := Flags(init), |Flags(init)|;
    if c.Send? {
      assert Flags(calls) == flags + [c.ok];
      assert |Sent(calls)| == |Sent(init)| + if c.ok then 1 else 0;
      if SentIsSegment(calls) {
        assert Flags(calls)[n] <==> n < |Sent(calls)|;
        forall i | 0 <= i < n ensures flags[i] <==> i < |Sent(init)| {
          assert Flags(calls)[i] <==> i < |Sent(calls)|;
        }
      } else if SentIsSegment(init) && (c.ok ==> |Sent(init)| == n) {
        forall i | 0 <= i < n + 1 ensures Flags(calls)[i] <==> i < |Sent(calls)| {
          if i < n { assert Flags(calls)[i] == flags[i]; }
        }
      }
    } else {
      assert Flags(calls) == flags && Sent(calls) == Sent(init);
    }
  }

  /** What is sent is an initial segment of what was handed over if and only if no accepted write follows a failed one. */
  lemma {:induction false} SentIsSegmentIff(calls: seq<Call>)
    ensures SentIsSegment(calls) <==> NoneAfterFailure(calls)
    ensures SentIsSegment(calls) ==> Sent(calls) <= Handed(calls)
  {
    FlagsCount(calls);
    if calls != [] {
      var init, c := calls[..|calls| - 1], calls[|calls| - 1];
      assert calls == init + [c];
      SentIsSegmentIff(init);
      FlagsCount(init);
      SegmentAppend(init, c);
      NoneAfterFailureAppend(init, c);
    }
  }

  /**
   With a first-in first-out loop, after any write errors: the payloads sent are the first ones written, position by
   position, if and only if no accepted write follows a failed one.
   */
  lemma SegmentOfWrittenIff(actions: seq<Action>)
    requires IsRun(Initial(), actions) && Fifo(actions)
    ensures var t := After(Initial(), actions);
            && Handed(t.calls) <= t.accepted
            && (SentIsSegment(t.calls) <==> NoneAfterFailure(t.calls))
            && (NoneAfterFailure(t.calls) ==> Sent(t.calls) <= t.accepted)
  {
    var t := After(Initial(), actions);
    InOrderHolds(Initial(), actions);
    SentIsSegmentIff(t.calls);
  }

  // ---------------------------------------------------------------- when a failed write leaves no gap

  /** Every write that runs raises. */
  predicate AllRunsRaise(actions: seq<Action>) {
    actions == [] || ((actions[0].RunTask? ==> !actions[0].ok) && AllRunsRaise(actions[1..]))
  }

  lemma {:induction false} CallsGrow(t: Transport, actions: seq<Action>)
    requires IsRun(t, actions)
    ensures t.calls <= After(t, actions).calls
    ensures t.closeStarted ==> After(t, actions).closeStarted
    decreases |actions|
  {
    if actions != [] {
      assert t.calls <= Step(t, actions[0]).calls;
      CallsGrow(Step(t, actions[0]), actions[1..]);
    }
  }

  lemma GapStays(calls: seq<Call>, more: seq<Call>)
    requires calls <= more && NoneAfterFailure(more)
    ensures NoneAfterFailure(calls)
  {
    forall i, j | 0 <= i < j < |calls| && calls[i].Send? && !calls[i].ok && calls[j].Send? ensures !calls[j].ok {
      assert more[i] == calls[i] && more[j] == calls[j];
    }
  }

  lemma FailureStays(calls: seq<Call>, c: Call)
    requires !NoWriteError(calls)
    ensures !NoWriteError(calls + [c])
  {
    var d :| d in calls && d.Send? && !d.ok;
    assert d in calls + [c];
  }

  /** While `close` has not been called, the oldest task is a write, and it is handed over when it runs. */
  lemma OldestIsHanded(t: Transport, ok: bool)
    requires InOrder(t) && !t.closeStarted && t.ready != []
    ensures t.ready[0].WriteTask? && Step(t, RunTask(0, ok)).calls == t.calls + [Send(t.ready[0].data, ok)]
  {
  }

  lemma RunLeavesGap(t: Transport, ok: bool)
    requires InOrder(t) && !t.closeStarted && t.ready != [] && !NoWriteError(t.calls) && NoneAfterFailure(t.calls)
    ensures var u := Step(t, RunTask(0, ok)); !NoWriteError(u.calls) && (NoneAfterFailure(u.calls) <==> !ok)
  {
    OldestIsHanded(t, ok);
    NoneAfterFailureAppend(t.calls, Send(t.ready[0].data, ok));
    FailureStays(t.calls, Send(t.ready[0].data, ok));
  }

  /** After a write has failed and before `close`, each write that runs and succeeds leaves a gap. */
  lemma {:induction false} GapUnlessAllRaise(t: Transport, actions: seq<Action>)
    requires Orderly(t) && InOrder(t) && !NoWriteError(t.calls) && NoneAfterFailure(t.calls)
    requires IsRun(t, actions) && Fifo(actions) && !After(t, actions).closeStarted
    ensures NoneAfterFailure(After(t, actions).calls) <==> AllRunsRaise(actions)
    decreases |actions|
  {
    if actions != [] {
      var a, u := actions[0], Step(t, actions[0]);
      CallsGrow(t, actions);
      CallsGrow(u, actions[1..]);
      StepOrderly(t, a);
      StepInOrder(t, a);
      if a.RunTask? { RunLeavesGap(t, a.ok); }
      if a.RunTask? && a.ok {
        if NoneAfterFailure(After(t, actions).calls) { GapStays(u.calls, After(t, actions).calls); }
      } else {
        GapUnlessAllRaise(u, actions[1..]);
      }
    }
  }

  /** From `close` on no write is handed over, so there is a gap afterwards if and only if there was one. */
  lemma {:induction false} GapAfterClose(t: Transport, actions: seq<Action>)
    requires Orderly(t) && t.closeStarted && IsRun(t, actions)
    ensures NoneAfterFailure(After(t, actions).calls) <==> NoneAfterFailure(t.calls)
    decreases |actions|
  {
    if actions != [] {
      StepOrderly(t, actions[0]);
      if actions[0].RunTask? { assert t.ready[actions[0].i] in t.ready; }
      NoneAfterFailureAppend(t.calls, CloseCall);
      GapAfterClose(Step(t, actions[0]), actions[1..]);
    }
  }

  lemma FirstFailure(t: Transport)
    requires Orderly(t) && InOrder(t) && NoWriteError(t.calls) && !t.closeStarted && t.ready != []
    ensures var u := Step(t, RunTask(0, false));
            Orderly(u) && InOrder(u) && !NoWriteError(u.calls) && NoneAfterFailure(u.calls)
  {
    var c := Send(t.ready[0].data, false);
    StepOrderly(t, RunTask(0, false));
    StepInOrder(t, RunTask(0, false));
    OldestIsHanded(t, false);
    NoneAfterFailureAppend(t.calls, c);
    assert forall i :: 0 <= i < |t.calls| ==> t.calls[i] in t.calls;
    assert c in t.calls + [c];
  }

  /**
   The exact condition on the run: with a first-in first-out loop, when the first write fails, what is sent is a first
   part of what was written if and only if every write that runs between that and the close raises as well; so always
   when none runs there. If nothing closes the transport afterwards, this is so of all writes that run.
   */
  lemma FailureLeavesNoGapIff(before: seq<Action>, between: seq<Action>, after: seq<Action>)
    requires IsRun(Initial(), before) && Fifo(before) && Fifo(between)
    requires var t := After(Initial(), before); NoWriteError(t.calls) && !t.closeStarted && t.ready != []
    requires var u := Step(After(Initial(), before), RunTask(0, false));
             IsRun(u, between) && !After(u, between).closeStarted && IsRun(Closed(After(u, between)), after)
    ensures var v := After(Step(After(Initial(), before), RunTask(0, false)), between);
            && (SentIsSegment(v.calls) <==> AllRunsRaise(between))
            && (!v.closing ==> (SentIsSegment(After(Closed(v), after).calls) <==> AllRunsRaise(between)))
  {
    var t := After(Initial(), before);
    var u := Step(t, RunTask(0, false));
    NothingAfterClose(Initial(), before);
    InOrderHolds(Initial(), before);
    FirstFailure(t);
    GapUnlessAllRaise(u, between);
    var v := After(u, between);
    SentIsSegmentIff(v.calls);
    NothingAfterClose(u, between);
    StepOrderly(v, WriteFailed);
    if !v.closing {
      GapAfterClose(Closed(v), after);
      SentIsSegmentIff(After(Closed(v), after).calls);
    }
  }

  // ---------------------------------------------------------------- runs that lose a payload

  lemma RunCons(t: Transport, a: Action, rest: seq<Action>)
    requires Possible(t, a) && IsRun(Step(t, a), rest)
    ensures IsRun(t, [a] + rest) && After(t, [a] + rest) == After(Step(t, a), rest)
    ensures Fifo(rest) && (a.RunTask? ==> a.i == 0) ==> Fifo([a] + rest)
  {
    assert ([a] + rest)[1..] == rest;
  }

  lemma SentAppend(calls: seq<Call>, c: Call)
    ensures Sent(calls + [c]) == Sent(calls) + if c.Send? && c.ok then [c.data] else []
  {
    assert (calls + [c])[..|calls|] == calls;
  }

  /** An open transport with this much written, waiting and done. */
  function Open(ready: seq<Task>, calls: seq<Call>, accepted: seq<Bytes>): Transport {
    Transport(false, false, ready, false, calls, accepted)
  }

  lemma WriteOpen(ready: seq<Task>, calls: seq<Call>, accepted: seq<Bytes>, data: Bytes)
    requires data != []
    ensures Step(Open(ready, calls, accepted), Write(data))
         == Open(ready + [WriteTask(data, false)], calls, accepted + [data])
  {
  }

  lemma RunOpen(data: Bytes, rest: seq<Task>, calls: seq<Call>, accepted: seq<Bytes>, ok: bool)
    ensures Step(Open([WriteTask(data, false)] + rest, calls, accepted), RunTask(0, ok))
         == Open(rest, calls + [Send(data, ok)], accepted)
  {
    var ready := [WriteTask(data, false)] + rest;
    assert ready[..0] + ready[1..] == rest;
  }

  function GapActions(a: Bytes, b: Bytes): seq<Action> {
    [Write(a)] + ([Write(b)] + ([RunTask(0, false)] + ([RunTask(0, true)] + [])))
  }

  function GapCalls(a: Bytes, b: Bytes): seq<Call> {
    [] + [Send(a, false)] + [Send(b, true)]
  }

  lemma GapRun(a: Bytes, b: Bytes)
    requires a != [] && b != []
    ensures IsRun(Initial(), GapActions(a, b)) && Fifo(GapActions(a, b))
    ensures After(Initial(), GapActions(a, b)) == Open([], GapCalls(a, b), [] + [a] + [b])
  {
    var x, y := WriteTask(a, false), WriteTask(b, false);
    WriteOpen([], [], [], a);
    WriteOpen([] + [x], [], [] + [a], b);
    assert [] + [x] + [y] == [x] + [y] && [y] + [] == [y];
    RunOpen(a, [y], [], [] + [a] + [b], false);
    RunOpen(b, [], [] + [Send(a, false)], [] + [a] + [b], true);
    RunCons(Open([y], [] + [Send(a, false)], [] + [a] + [b]), RunTask(0, true), []);
    RunCons(Open([x] + [y], [], [] + [a] + [b]), RunTask(0, false), [RunTask(0, true)] + []);
    RunCons(Open([] + [x], [], [] + [a]), Write(b), [RunTask(0, false)] + ([RunTask(0, true)] + []));
    RunCons(Initial(), Write(a), [Write(b)] + ([RunTask(0, false)] + ([RunTask(0, true)] + [])));
  }

  /** A write that fails does not stop those already queued behind it, so the sent payloads may skip one. */
  lemma FailedWriteLeavesGap(a: Bytes, b: Bytes)
    requires a != [] && b != []
    ensures IsRun(Initial(), GapActions(a, b)) && Fifo(GapActions(a, b))
    ensures var t := After(Initial(), GapActions(a, b));
            Sent(t.calls) == [b] && t.accepted == [a, b] && !SentIsSegment(t.calls)
  {
    GapRun(a, b);
    SentAppend([], Send(a, false));
    SentAppend([] + [Send(a, false)], Send(b, true));
    SentIsSegmentIff(GapCalls(a, b));
    assert GapCalls(a, b)[0] == Send(a, false) && GapCalls(a, b)[1] == Send(b, true);
  }

  function LossActions(a: Bytes): seq<Action> {
    [Write(a)] + ([Close] + ([RunTask(0, true)] + ([RunTask(0, true)] + [])))
  }

  /** A transport that `close` has been called on. */
  function Shut(ready: seq<Task>, streamClosed: bool, calls: seq<Call>, accepted: seq<Bytes>): Transport {
    Transport(true, true, ready, streamClosed, calls, accepted)
  }

  lemma ShutSteps(a: Bytes)
    ensures Step(Open([] + [WriteTask(a, false)], [], [] + [a]), Close)
         == Shut([WriteTask(a, true)] + [CloseTask], false, [], [] + [a])
    ensures Step(Shut([WriteTask(a, true)] + [CloseTask], false, [], [] + [a]), RunTask(0, true))
         == Shut([CloseTask], false, [], [] + [a])
    ensures Step(Shut([CloseTask], false, [], [] + [a]), RunTask(0, true)) == Shut([], true, [] + [CloseCall], [] + [a])
  {
    assert [] + [WriteTask(a, false)] == [WriteTask(a, false)] && [WriteTask(a, false)][1..] == [];
    assert CancelAll([WriteTask(a, false)]) == [WriteTask(a, true)];
    var ready := [WriteTask(a, true)] + [CloseTask];
    assert ready[..0] + ready[1..] == [CloseTask];
    assert [CloseTask][..0] + [CloseTask][1..] == [];
  }

  lemma LossRun(a: Bytes)
    requires a != []
    ensures IsRun(Initial(), LossActions(a)) && Fifo(LossActions(a))
    ensures After(Initial(), LossActions(a)) == Shut([], true, [] + [CloseCall], [] + [a])
  {
    WriteOpen([], [], [], a);
    ShutSteps(a);
    RunCons(Shut([CloseTask], false, [], [] + [a]), RunTask(0, true), []);
    RunCons(Shut([WriteTask(a, true)] + [CloseTask], false, [], [] + [a]), RunTask(0, true), [RunTask(0, true)] + []);
    RunCons(Open([] + [WriteTask(a, false)], [], [] + [a]), Close, [RunTask(0, true)] + ([RunTask(0, true)] + []));
    RunCons(Initial(), Write(a), [Close] + ([RunTask(0, true)] + ([RunTask(0, true)] + [])));
  }

  /** A transport closed with one write waiting: the event loop then runs both tasks, and the payload is never sent. */
  lemma CloseLosesWrite(a: Bytes)
    requires a != []
    ensures IsRun(Initial(), LossActions(a)) && Fifo(LossActions(a))
    ensures var t := After(Initial(), LossActions(a));
            t.accepted == [a] && t.ready == [] && t.calls == [CloseCall] && Handed(t.calls) == []
  {
    LossRun(a);
    HandedAppend([], CloseCall);
    assert [] + [CloseCall] == [CloseCall] && [] + [a] == [a];
  }
}
