/**
 Why no frame of the server is late: a channel that is driven only by its transport is never sent to after its close,
 and that order of calls alone keeps every run clean.
 */
module TunnelOrder {
  import opened Wrappers
  import opened Text
  import opened FrameCodec
  import opened BrokerSpec
  import opened BrokerSystem
  import opened AgentSpec
  import opened TunnelSimulation
  import opened TunnelOpenSet
  import T = TunnelTransport

  // ---------------------------------------------------------------- orderly calls make clean runs

  /** The channel on which a step begins a close. */
  function Closes(step: Step): set<Str> {
    match step
    case SCloseBegin(ch, _) => {ch}
    case SStreamClose(_, ch, _) => {ch}
    case _ => {}
  }

  function SendsOn(step: Step): set<Str> {
    match step
    case SData(ch, _, _) => {ch}
    case SResize(ch, _, _) => {ch}
    case _ => {}
  }

  /** No data or resize call on a channel comes after a close call on it. */
  predicate OrderlyCalls(steps: seq<Step>, done: set<Str>)
    decreases |steps|
  {
    steps == [] || (SendsOn(steps[0]) !! done && OrderlyCalls(steps[1..], done + Closes(steps[0])))
  }

  /** Only channels in `done` have a CLOSE on some wire. */
  ghost predicate ClosedWithin(b: Broker, done: set<Str>) {
    forall c :: c in b.conns ==> Closed(b.conns[c].wire) <= done
  }

  lemma ClosedWithinKept(s: System, step: Step, done: set<Str>)
    requires Inv(s) && AllLinked(s.broker) && Enabled(s, step) && ClosedWithin(s.broker, done)
    ensures ClosedWithin(Next(s, step).0.broker, done + Closes(step))
  {
    var t := Next(s, step).0;
    forall d | d in t.broker.conns ensures Closed(t.broker.conns[d].wire) <= done + Closes(step) {
      if d in s.broker.conns {
        StepWire(s, step, d);
        ClosedAfter(s, step, d);
      } else {
        NewConnection(s, step, d);
        NewWireLinked(s, step, d);
      }
    }
  }

  lemma ClosedAfter(s: System, step: Step, d: ConnId)
    requires Inv(s) && AllLinked(s.broker) && Enabled(s, step) && d in s.broker.conns
    ensures Closed(s.broker.conns[d].wire + WrittenTo(Emits(s, step), d))
         <= Closed(s.broker.conns[d].wire) + Closes(step)
  {
    var wire, e := s.broker.conns[d].wire, Emits(s, step);
    if WrittenTo(e, d) == [] {
      assert wire + [] == wire;
    } else {
      WireAppend(wire, e.value.1);
      CloseEmitted(s, step);
    }
  }

  lemma CloseEmitted(s: System, step: Step)
    requires Inv(s) && Enabled(s, step) && Emits(s, step).Some?
    ensures var f := Emits(s, step).value.1;
            f.kind == CloseSession && f.channelId.Some? ==> f.channelId.value in Closes(step)
  {
  }

  lemma SendEmitted(s: System, step: Step)
    requires Inv(s) && Enabled(s, step) && Emits(s, step).Some?
    ensures var f := Emits(s, step).value.1;
            f.kind in {SessionData, ResizePty} && f.channelId.Some? ==> f.channelId.value in SendsOn(step)
  {
  }

  lemma OrderlyStepNotLate(s: System, step: Step, done: set<Str>)
    requires Inv(s) && AllLinked(s.broker) && OpenSetInv(s) && Enabled(s, step)
    requires ClosedWithin(s.broker, done) && SendsOn(step) !! done
    ensures !LateStep(s, step)
  {
    if LateStep(s, step) {
      var (c, f) := Emits(s, step).value;
      EmittedFrame(s, step);
      SendEmitted(s, step);
      AnnouncedIsOpen(s, c);
      assert false;
    }
  }

  lemma {:induction false} OrderlyRunIsClean(s: System, steps: seq<Step>, done: set<Str>)
    requires Inv(s) && AllLinked(s.broker) && OpenSetInv(s) && IsRun(s, steps) && OwnAgentRun(s, steps)
    requires ClosedWithin(s.broker, done) && OrderlyCalls(steps, done)
    ensures CleanRun(s, steps)
    decreases |steps|
  {
    if steps != [] {
      OrderlyStepNotLate(s, steps[0], done);
      StepKeepsInv(s, steps[0]);
      LinkedKept(s, steps[0]);
      OpenSetKept(s, steps[0]);
      ClosedWithinKept(s, steps[0], done);
      OrderlyRunIsClean(Next(s, steps[0]).0, steps[1..], done + Closes(steps[0]));
    }
  }

  // ---------------------------------------------------------------- transports make orderly calls

  datatype Call = CallSend | CallClose

  /** The calls that a run makes on one channel, in order. */
  function CallsOn(steps: seq<Step>, ch: Str): seq<Call> {
    if steps == [] then []
    else
      (if ch in SendsOn(steps[0]) then [CallSend] else if ch in Closes(steps[0]) then [CallClose] else [])
      + CallsOn(steps[1..], ch)
  }

  function Shape(calls: seq<T.Call>): seq<Call> {
    seq(|calls|, i requires 0 <= i < |calls| => if calls[i].Send? then CallSend else CallClose)
  }

  /** Every channel's calls are those of some transport, under some schedule of its tasks. */
  ghost predicate DrivenByTransports(steps: seq<Step>) {
    forall ch :: DrivenByTransport(steps, ch)
  }

  ghost predicate DrivenByTransport(steps: seq<Step>, ch: Str) {
    exists actions: seq<T.Action> ::
      T.IsRun(T.Initial(), actions) && CallsOn(steps, ch) == Shape(T.After(T.Initial(), actions).calls)
  }

  predicate CloseLast(calls: seq<Call>) {
    forall i :: 0 <= i < |calls| && calls[i] == CallClose ==> i == |calls| - 1
  }

  lemma TransportClosesLast(steps: seq<Step>, ch: Str)
    requires DrivenByTransport(steps, ch)
    ensures CloseLast(CallsOn(steps, ch))
  {
    var actions: seq<T.Action> :| T.IsRun(T.Initial(), actions)
                                  && CallsOn(steps, ch) == Shape(T.After(T.Initial(), actions).calls);
    T.NothingAfterClose(T.Initial(), actions);
    var calls := T.After(T.Initial(), actions).calls;
    forall i | 0 <= i < |calls| && Shape(calls)[i] == CallClose ensures i == |calls| - 1 {
      assert calls[i] == T.CloseCall;
    }
  }

  lemma CloseLastTail(first: seq<Call>, rest: seq<Call>)
    requires CloseLast(first + rest)
    ensures CloseLast(rest)
    ensures first == [CallClose] ==> rest == []
  {
    assert forall i :: 0 <= i < |rest| ==> (first + rest)[|first| + i] == rest[i];
    if first == [CallClose] {
      assert (first + rest)[0] == CallClose;
    }
  }

  lemma {:induction false} ClosesLastIsOrderly(steps: seq<Step>, done: set<Str>)
    requires forall ch :: CloseLast(CallsOn(steps, ch))
    requires forall ch :: ch in done ==> CallsOn(steps, ch) == []
    ensures OrderlyCalls(steps, done)
    decreases |steps|
  {
    if steps != [] {
      forall ch
        ensures CloseLast(CallsOn(steps[1..], ch))
        ensures ch in done + Closes(steps[0]) ==> CallsOn(steps[1..], ch) == []
      {
        assert CloseLast(CallsOn(steps, ch));
        var first := if ch in SendsOn(steps[0]) then [CallSend] else if ch in Closes(steps[0]) then [CallClose] else [];
        CloseLastTail(first, CallsOn(steps[1..], ch));
      }
      ClosesLastIsOrderly(steps[1..], done + Closes(steps[0]));
    }
  }

  /**
   The whole tunnel: with transports at the server's end of every channel, under any schedule of their tasks, and the
   repository's agent at the other, no step of any run is late, and the agent's channels follow the server's.
   */
  lemma TransportsKeepAgentInStep(maxSessions: int, maxFrameBytes: int,
                                  encodeError: (Frame, int) -> Option<ProtocolError>,
                                  steps: seq<Step>, c: ConnId, k: nat)
    requires var s := Initial(maxSessions, maxFrameBytes, encodeError); IsRun(s, steps) && OwnAgentRun(s, steps)
    requires DrivenByTransports(steps)
    requires var b := After(Initial(maxSessions, maxFrameBytes, encodeError), steps).broker;
             c in b.conns && k <= |b.conns[c].wire| && !HasError(b.conns[c].wire)
    ensures CleanRun(Initial(maxSessions, maxFrameBytes, encodeError), steps)
    ensures var conn := After(Initial(maxSessions, maxFrameBytes, encodeError), steps).broker.conns[c];
            var now := AgentAfter(conn.wire[..k]);
            now.Running? && Replay(now, conn.wire[k..]).Running?
            && Replay(now, conn.wire[k..]).channels.Keys == conn.open - Closed(conn.wire)
  {
    var s := Initial(maxSessions, maxFrameBytes, encodeError);
    forall ch ensures CloseLast(CallsOn(steps, ch)) {
      assert DrivenByTransport(steps, ch);
      TransportClosesLast(steps, ch);
    }
    ClosesLastIsOrderly(steps, {});
    OrderlyRunIsClean(s, steps, {});
    AgentTracksServer(maxSessions, maxFrameBytes, encodeError, steps, c, k);
  }
}
