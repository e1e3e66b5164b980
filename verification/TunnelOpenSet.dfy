/**
 With an agent that never closes a session itself, as `handle_agent_tunnel_stream` does not, the wire announces
 exactly the channels that the server holds open, less those whose close is under way.
 */
module TunnelOpenSet {
  import opened Wrappers
  import opened Text
  import opened FrameCodec
  import opened BrokerSpec
  import opened BrokerSystem
  import opened AgentSpec
  import opened TunnelSimulation

  /** The peer is the repository's own agent, which sends no CLOSE_SESSION. */
  predicate FromOwnAgent(step: Step) {
    step.SAgentFrame? ==> step.frame.kind != CloseSession
  }

  /**
   An `open_session` that no check refuses and whose frame the codec does: it raises with the tables already updated,
   and the channel is open on the server alone.
   */
  ghost predicate StrandsOpen(s: System, step: Step)
    requires AgentsOk(s.broker)
  {
    step.SOpen? && OpenRefusal(s.broker, step.agent, step.channel, step.checks).None?
    && s.broker.encodeError(OpenFrame(step.channel, step.requestId, step.payload), s.broker.maxFrameBytes).Some?
  }

  ghost predicate RetiredClosed(conn: Conn) {
    conn.retired * Opened(conn.wire) <= Closed(conn.wire)
  }

  ghost predicate OpenedAll(conn: Conn) {
    conn.streams.Keys <= Opened(conn.wire)
  }

  ghost predicate CloserWrote(b: Broker, p: (ConnId, Str)) {
    p.0 in b.conns && p.1 in Closed(b.conns[p.0].wire)
  }

  ghost predicate OpenSetInv(s: System) {
    && (forall c :: c in s.broker.conns ==> RetiredClosed(s.broker.conns[c]) && OpenedAll(s.broker.conns[c]))
    && (forall p :: p in s.closers ==> CloserWrote(s.broker, p))
  }

  // ---------------------------------------------------------------- what a step retires

  /** The channel that a step retires on connection `d`, if any; only the resumed half of `close_session` does. */
  function Retires(s: System, step: Step, d: ConnId): set<Str> {
    if step.SCloseEnd? && step.conn == d && d in s.broker.conns && step.channel in s.broker.conns[d].open then {step.channel}
    else {}
  }

  ghost predicate RetiredGrew(b: Broker, t: Broker, d: ConnId, more: set<Str>)
    requires d in b.conns
  {
    d in t.conns && t.conns[d].retired == b.conns[d].retired + more
  }

  lemma SendRetires(b: Broker, kind: FrameType, channel: Str, requestId: Str, payload: Bytes, d: ConnId)
    requires AgentsOk(b) && d in b.conns
    ensures RetiredGrew(b, SendOnChannel(b, kind, channel, requestId, payload).0, d, {})
  {
    if channel in b.routes && b.routes[channel] in b.connections { assert AgentOk(b, b.routes[channel]); }
  }

  lemma OpenRetires(b: Broker, agent: AgentId, channel: Str, f: Frame, checks: OpenChecks, d: ConnId)
    requires AgentsOk(b) && d in b.conns
    ensures RetiredGrew(b, OpenOnAgent(b, agent, channel, f, checks).0, d, {})
  {
    if OpenRefusal(b, agent, channel, checks).None? { assert AgentOk(b, agent); }
  }

  lemma AgentFrameRetires(b: Broker, c: ConnId, f: Frame, d: ConnId)
    requires c in b.conns && d in b.conns && f.kind != CloseSession
    ensures RetiredGrew(b, AgentFrame(b, c, f).0, d, {})
  {
  }

  lemma RetiredSame(b: Broker, t: Broker, d: ConnId)
    requires d in b.conns && d in t.conns && t.conns[d].retired == b.conns[d].retired
    ensures RetiredGrew(b, t, d, {})
  {
  }

  lemma DropOnBroker(b: Broker, agent: AgentId, c: ConnId, d: ConnId)
    requires d in b.conns && (agent in b.connections ==> b.connections[agent] in b.conns)
    ensures RetiredGrew(b, Drop(b, agent, c), d, {})
  {
    var t := Drop(b, agent, c);
    assert t.conns[d] == b.conns[d] || t.conns[d] == EndStreams(b.conns[d]);
    RetiredSame(b, t, d);
  }

  lemma DropRetires(s: System, agent: AgentId, c: ConnId, d: ConnId)
    requires Inv(s) && d in s.broker.conns
    ensures agent in s.broker.connections ==> s.broker.connections[agent] in s.broker.conns
    ensures RetiredGrew(s.broker, Drop(s.broker, agent, c), d, {})
  {
    if agent in s.broker.connections { assert AgentOk(s.broker, agent); }
    DropOnBroker(s.broker, agent, c, d);
  }

  lemma SetStreamRetires(b: Broker, c: ConnId, channel: Str, stream: Stream, d: ConnId)
    requires c in b.conns && d in b.conns
    ensures RetiredGrew(b, SetStream(b, c, channel, stream), d, {})
  {
  }

  lemma MarkAndCloseRetires(b: Broker, c: ConnId, channel: Str, stream: Stream, requestId: Str, d: ConnId)
    requires c in b.conns && d in b.conns && AgentsOk(SetStream(b, c, channel, stream))
    ensures RetiredGrew(b, SendOnChannel(SetStream(b, c, channel, stream), CloseSession, channel, requestId, []).0, d, {})
  {
    SetStreamRetires(b, c, channel, stream, d);
    SendRetires(SetStream(b, c, channel, stream), CloseSession, channel, requestId, [], d);
  }

  lemma CloseStreamRetires(s: System, c: ConnId, channel: Str, requestId: Str, d: ConnId)
    requires Inv(s) && c in s.broker.conns && channel in s.broker.conns[c].streams && d in s.broker.conns
    ensures RetiredGrew(s.broker, CloseStream(s, c, channel, requestId).0.broker, d, {})
  {
    var stream := s.broker.conns[c].streams[channel].(closed := true);
    CloseStreamShape(s, c, channel, requestId);
    SetStreamRetires(s.broker, c, channel, stream, d);
    MarkAndCloseRetires(s.broker, c, channel, stream, requestId, d);
  }

  lemma RetireRetires(b: Broker, c: ConnId, channel: Str, d: ConnId)
    requires c in b.conns && d in b.conns
    ensures RetiredGrew(b, Retire(b, c, channel).0, d, if c == d && channel in b.conns[d].open then {channel} else {})
  {
  }

  lemma ErrorFrameRetires(b: Broker, c: ConnId, requestId: Str, d: ConnId)
    requires c in b.conns && d in b.conns
    ensures RetiredGrew(b, WriteErrorFrame(b, c, requestId), d, {})
  {
  }

  lemma CloseEndStepRetires(s: System, step: Step, d: ConnId)
    requires Inv(s) && Enabled(s, step) && d in s.broker.conns && step.SCloseEnd?
    ensures RetiredGrew(s.broker, Next(s, step).0.broker, d, Retires(s, step, d))
  {
    CloserHasConn(s, step.conn, step.channel);
    RetireRetires(s.broker, step.conn, step.channel, d);
  }

  lemma FrameStepRetires(s: System, step: Step, d: ConnId)
    requires Inv(s) && Enabled(s, step) && d in s.broker.conns && step.SAgentFrame? && FromOwnAgent(step)
    ensures RetiredGrew(s.broker, Next(s, step).0.broker, d, Retires(s, step, d))
  {
    HandlerHasConn(s, step.conn);
    AgentFrameRetires(s.broker, step.conn, step.frame, d);
  }

  lemma ErrorStepRetires(s: System, step: Step, d: ConnId)
    requires Inv(s) && Enabled(s, step) && d in s.broker.conns && step.SErrorFrame?
    ensures RetiredGrew(s.broker, Next(s, step).0.broker, d, Retires(s, step, d))
  {
    HandlerHasConn(s, step.conn);
    ErrorFrameRetires(s.broker, step.conn, step.requestId, d);
  }

  lemma ReadStepRetires(s: System, step: Step, d: ConnId)
    requires Inv(s) && Enabled(s, step) && d in s.broker.conns && step.SRead?
    ensures RetiredGrew(s.broker, Next(s, step).0.broker, d, Retires(s, step, d))
  {
    var stream := s.broker.conns[step.conn].streams[step.channel];
    SetStreamRetires(s.broker, step.conn, step.channel, ReadStream(stream, step.n).1, d);
  }

  lemma HeldStepRetires(s: System, step: Step, d: ConnId)
    requires Inv(s) && Enabled(s, step) && d in s.broker.conns && OnHeldConnection(step) && FromOwnAgent(step)
    ensures RetiredGrew(s.broker, Next(s, step).0.broker, d, Retires(s, step, d))
  {
    match step
    case SCloseEnd(_, _) => CloseEndStepRetires(s, step, d);
    case SCloseAbort(_, _) =>
    case SAgentFrame(_, _) => FrameStepRetires(s, step, d);
    case SErrorFrame(_, _) => ErrorStepRetires(s, step, d);
    case SDrop(agent, c) => DropRetires(s, agent, c, d);
    case SRead(_, _, _) => ReadStepRetires(s, step, d);
  }

  lemma StepRetires(s: System, step: Step, d: ConnId)
    requires Inv(s) && Enabled(s, step) && FromOwnAgent(step) && d in s.broker.conns
    ensures RetiredGrew(s.broker, Next(s, step).0.broker, d, Retires(s, step, d))
  {
    var b := s.broker;
    match step
    case SRegister(agent, c, requestId) => RegisterWire(b, agent, c, requestId, d);
    case SOpen(agent, ch, requestId, payload, checks) =>
      OpenRetires(b, agent, ch, OpenFrame(ch, requestId, payload), checks, d);
    case SData(ch, requestId, payload) => SendRetires(b, SessionData, ch, requestId, payload, d);
    case SResize(ch, requestId, payload) => SendRetires(b, ResizePty, ch, requestId, payload, d);
    case SCloseBegin(ch, requestId) => SendRetires(b, CloseSession, ch, requestId, [], d);
    case SStreamClose(c, ch, requestId) => CloseStreamRetires(s, c, ch, requestId, d);
    case _ => HeldStepRetires(s, step, d);
  }

  // ---------------------------------------------------------------- every step keeps it

  lemma WireGrows(s: System, step: Step, d: ConnId)
    requires Inv(s) && Enabled(s, step) && d in s.broker.conns
    ensures var t := Next(s, step).0.broker;
            d in t.conns && Opened(s.broker.conns[d].wire) <= Opened(t.conns[d].wire)
            && Closed(s.broker.conns[d].wire) <= Closed(t.conns[d].wire)
  {
    StepWire(s, step, d);
    var wire := s.broker.conns[d].wire;
    if WrittenTo(Emits(s, step), d) == [] {
      assert wire + [] == wire;
    } else {
      WireAppend(wire, Emits(s, step).value.1);
    }
  }

  lemma RetiredClosedKept(s: System, step: Step, d: ConnId)
    requires Inv(s) && AllLinked(s.broker) && OpenSetInv(s) && Enabled(s, step) && FromOwnAgent(step)
    requires d in s.broker.conns
    ensures d in Next(s, step).0.broker.conns && RetiredClosed(Next(s, step).0.broker.conns[d])
  {
    var conn := s.broker.conns[d];
    StepRetires(s, step, d);
    WireGrows(s, step, d);
    StepWire(s, step, d);
    assert RetiredClosed(conn) && ConnOk(conn, s.broker.maxSessions);
    if step.SCloseEnd? {
      assert CloserWrote(s.broker, (step.conn, step.channel));
    }
    var e := Emits(s, step);
    if e.Some? && e.value.0 == d {
      EmittedFrame(s, step);
      WireAppend(conn.wire, e.value.1);
    } else {
      assert conn.wire + [] == conn.wire;
    }
  }

  lemma OpenedAllKept(s: System, step: Step, d: ConnId)
    requires Inv(s) && OpenSetInv(s) && Enabled(s, step) && !StrandsOpen(s, step) && d in s.broker.conns
    ensures d in Next(s, step).0.broker.conns && OpenedAll(Next(s, step).0.broker.conns[d])
  {
    var conn := s.broker.conns[d];
    assert OpenedAll(conn);
    StepWire(s, step, d);
    WireGrows(s, step, d);
    if step.SOpen? {
      var f := OpenFrame(step.channel, step.requestId, step.payload);
      OpenWire(s.broker, step.agent, step.channel, f, step.checks, d);
      WireAppend(conn.wire, f);
    }
  }

  /** The suspended closes after a step: those before it and, if it wrote a CLOSE, one for that frame. */
  lemma BeginCloseClosers(s: System, channel: Str, requestId: Str, p: (ConnId, Str))
    requires AgentsOk(s.broker) && p in BeginClose(s, channel, requestId).0.closers && p !in s.closers
    ensures var e := SendEmits(s.broker, CloseSession, channel, requestId, []);
            p.1 == channel && e == Some((p.0, Frame(CloseSession, requestId, Some(channel), [])))
  {
  }

  lemma CloseStreamClosers(s: System, c: ConnId, channel: Str, requestId: Str, p: (ConnId, Str))
    requires Inv(s) && c in s.broker.conns && channel in s.broker.conns[c].streams
    requires p in CloseStream(s, c, channel, requestId).0.closers && p !in s.closers
    ensures var e := SendEmits(s.broker, CloseSession, channel, requestId, []);
            !s.broker.conns[c].streams[channel].closed
            && p.1 == channel && e == Some((p.0, Frame(CloseSession, requestId, Some(channel), [])))
  {
    var stream := s.broker.conns[c].streams[channel].(closed := true);
    CloseStreamShape(s, c, channel, requestId);
    BeginCloseClosers(s.(broker := SetStream(s.broker, c, channel, stream)), channel, requestId, p);
    SameEmission(s.broker, c, channel, stream, requestId);
  }

  lemma ClosersAfter(s: System, step: Step, p: (ConnId, Str))
    requires Inv(s) && AllLinked(s.broker) && Enabled(s, step) && p in Next(s, step).0.closers && p !in s.closers
    ensures Emits(s, step).Some? && Emits(s, step).value.0 == p.0
    ensures Emits(s, step).value.1.kind == CloseSession && Emits(s, step).value.1.channelId == Some(p.1)
  {
    match step
    case SCloseBegin(ch, requestId) => BeginCloseClosers(s, ch, requestId, p);
    case SStreamClose(c, ch, requestId) => CloseStreamClosers(s, c, ch, requestId, p);
    case _ =>
  }

  lemma ClosersKeptWritten(s: System, step: Step, p: (ConnId, Str))
    requires Inv(s) && AllLinked(s.broker) && OpenSetInv(s) && Enabled(s, step) && p in Next(s, step).0.closers
    ensures CloserWrote(Next(s, step).0.broker, p)
  {
    if p in s.closers {
      assert CloserWrote(s.broker, p);
      WireGrows(s, step, p.0);
    } else {
      ClosersAfter(s, step, p);
      EmittedFrame(s, step);
      StepWire(s, step, p.0);
      WireAppend(s.broker.conns[p.0].wire, Emits(s, step).value.1);
    }
  }

  lemma OpenSetKept(s: System, step: Step)
    requires Inv(s) && AllLinked(s.broker) && OpenSetInv(s) && Enabled(s, step)
    requires FromOwnAgent(step) && !StrandsOpen(s, step)
    ensures OpenSetInv(Next(s, step).0)
  {
    var t := Next(s, step).0;
    forall d | d in t.broker.conns ensures RetiredClosed(t.broker.conns[d]) && OpenedAll(t.broker.conns[d]) {
      if d in s.broker.conns {
        RetiredClosedKept(s, step, d);
        OpenedAllKept(s, step, d);
      } else {
        NewConnection(s, step, d);
        NewWireLinked(s, step, d);
      }
    }
    forall p | p in t.closers ensures CloserWrote(t.broker, p) {
      ClosersKeptWritten(s, step, p);
    }
  }

  lemma StrandedOpenShows(s: System, step: Step)
    requires Inv(s) && AllLinked(s.broker) && Enabled(s, step) && StrandsOpen(s, step)
    ensures var c := s.broker.connections[step.agent]; var t := Next(s, step).0.broker;
            c in t.conns && step.channel in t.conns[c].open && step.channel in t.conns[c].streams
            && step.channel !in Opened(t.conns[c].wire) && !OpenedAll(t.conns[c])
  {
    var b := s.broker;
    assert AgentOk(b, step.agent);
    var c := b.connections[step.agent];
    assert ConnOk(b.conns[c], b.maxSessions) && WireLinked(b.conns[c]);
    assert step.channel !in b.conns[c].streams;
  }

  /**
   The exact condition: with the repository's own agent, a step keeps the open set on the wire if and only if it is not
   an `open_session` that passes every check and cannot be encoded.
   */
  lemma OpenSetKeptIff(s: System, step: Step)
    requires Inv(s) && AllLinked(s.broker) && OpenSetInv(s) && Enabled(s, step) && FromOwnAgent(step)
    ensures OpenSetInv(Next(s, step).0) <==> !StrandsOpen(s, step)
  {
    if StrandsOpen(s, step) { StrandedOpenShows(s, step); } else { OpenSetKept(s, step); }
  }

  // ---------------------------------------------------------------- the open set

  /** The channels that the wire announces are the server's open ones, less those whose CLOSE is on the wire. */
  lemma AnnouncedIsOpen(s: System, c: ConnId)
    requires Inv(s) && AllLinked(s.broker) && OpenSetInv(s) && c in s.broker.conns
    ensures Announced(s.broker.conns[c].wire) == s.broker.conns[c].open - Closed(s.broker.conns[c].wire)
  {
    var conn := s.broker.conns[c];
    assert WireLinked(conn) && ConnOk(conn, s.broker.maxSessions) && RetiredClosed(conn) && OpenedAll(conn);
  }

  ghost predicate OwnAgentRun(s: System, steps: seq<Step>)
    requires Inv(s) && IsRun(s, steps)
    decreases |steps|
  {
    steps == []
    || (FromOwnAgent(steps[0]) && !StrandsOpen(s, steps[0])
        && (StepKeepsInv(s, steps[0]); OwnAgentRun(Next(s, steps[0]).0, steps[1..])))
  }

  lemma {:induction false} OpenSetHolds(s: System, steps: seq<Step>)
    requires Inv(s) && AllLinked(s.broker) && OpenSetInv(s) && IsRun(s, steps) && OwnAgentRun(s, steps)
    ensures AllLinked(After(s, steps).broker) && OpenSetInv(After(s, steps))
    decreases |steps|
  {
    if steps != [] {
      StepKeepsInv(s, steps[0]);
      LinkedKept(s, steps[0]);
      OpenSetKept(s, steps[0]);
      OpenSetHolds(Next(s, steps[0]).0, steps[1..]);
    }
  }

  /**
   From an empty broker, along any clean run with the repository's own agent at the far end of every wire: whatever
   part of a wire the agent has dispatched, it has raised nothing, and replaying what is in flight raises nothing and
   ends at exactly the server's open channels, less those being closed.
   */
  lemma AgentTracksServer(maxSessions: int, maxFrameBytes: int, encodeError: (Frame, int) -> Option<ProtocolError>,
                          steps: seq<Step>, c: ConnId, k: nat)
    requires var s := Initial(maxSessions, maxFrameBytes, encodeError);
             IsRun(s, steps) && CleanRun(s, steps) && OwnAgentRun(s, steps)
    requires var b := After(Initial(maxSessions, maxFrameBytes, encodeError), steps).broker;
             c in b.conns && k <= |b.conns[c].wire| && !HasError(b.conns[c].wire)
    ensures var conn := After(Initial(maxSessions, maxFrameBytes, encodeError), steps).broker.conns[c];
            var now := AgentAfter(conn.wire[..k]);
            now.Running? && Replay(now, conn.wire[k..]).Running?
            && Replay(now, conn.wire[k..]).channels.Keys == conn.open - Closed(conn.wire)
  {
    var s := Initial(maxSessions, maxFrameBytes, encodeError);
    SimulationHolds(s, steps);
    OpenSetHolds(s, steps);
    var t := After(s, steps);
    assert Agrees(t.broker.conns[c].wire);
    InFlight(t.broker.conns[c].wire, k);
    AnnouncedIsOpen(t, c);
  }
}
