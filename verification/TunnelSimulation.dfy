/**
 Server, wire and agent together. The wire is first-in first-out, so the agent has always dispatched a prefix of the
 frames written to it and the rest is in flight; the broker's steps decide what those frames are.
 */
module TunnelSimulation {
  import opened Wrappers
  import opened Text
  import opened FrameCodec
  import opened BrokerSpec
  import opened BrokerSystem
  import opened AgentSpec

  // ---------------------------------------------------------------- what a step writes

  function Accepted(b: Broker, c: ConnId, f: Frame): Option<(ConnId, Frame)> {
    if b.encodeError(f, b.maxFrameBytes).None? then Some((c, f)) else None
  }

  function SendEmits(b: Broker, kind: FrameType, channel: Str, requestId: Str, payload: Bytes): Option<(ConnId, Frame)>
    requires AgentsOk(b)
  {
    match ChannelConnection(b, channel)
    case Err(_) => None
    case Ok(c) => Accepted(b, c, Frame(kind, requestId, Some(channel), payload))
  }

  function OpenEmits(b: Broker, agent: AgentId, channel: Str, f: Frame, checks: OpenChecks): Option<(ConnId, Frame)>
    requires AgentsOk(b)
  {
    if OpenRefusal(b, agent, channel, checks).Some? then None else Accepted(b, b.connections[agent], f)
  }

  function ErrorEmits(b: Broker, c: ConnId, requestId: Str): Option<(ConnId, Frame)> {
    var f := Frame(FrameType.Error, requestId, None, []);
    if b.encodeError(f, 1024 * 1024).None? then Some((c, f)) else None
  }

  /** The frame that a step puts on a wire, if it puts one. */
  function Emits(s: System, step: Step): Option<(ConnId, Frame)>
    requires Inv(s) && Enabled(s, step)
  {
    var b := s.broker;
    match step
    case SRegister(agent, c, requestId) =>
      if b.maxSessions <= 0 || (agent in b.active && b.active[agent] != c) then None
      else Accepted(b, c, Frame(AuthOk, requestId, None, []))
    case SOpen(agent, ch, requestId, payload, checks) => OpenEmits(b, agent, ch, OpenFrame(ch, requestId, payload), checks)
    case SData(ch, requestId, payload) => SendEmits(b, SessionData, ch, requestId, payload)
    case SResize(ch, requestId, payload) => SendEmits(b, ResizePty, ch, requestId, payload)
    case SCloseBegin(ch, requestId) => SendEmits(b, CloseSession, ch, requestId, [])
    case SStreamClose(c, ch, requestId) =>
      if b.conns[c].streams[ch].closed then None else SendEmits(b, CloseSession, ch, requestId, [])
    case SErrorFrame(c, requestId) => ErrorEmits(b, c, requestId)
    case _ => None
  }

  function Wire(s: System, c: ConnId): seq<Frame> {
    if c in s.broker.conns then s.broker.conns[c].wire else []
  }

  function WrittenTo(e: Option<(ConnId, Frame)>, c: ConnId): seq<Frame> {
    if e.Some? && e.value.0 == c then [e.value.1] else []
  }

  // ---------------------------------------------------------------- reading a wire

  function Opened(wire: seq<Frame>): set<Str> {
    if wire == [] then {}
    else
      var f := wire[|wire| - 1];
      Opened(wire[..|wire| - 1]) + if f.kind == OpenSession && f.channelId.Some? then {f.channelId.value} else {}
  }

  function Closed(wire: seq<Frame>): set<Str> {
    if wire == [] then {}
    else
      var f := wire[|wire| - 1];
      Closed(wire[..|wire| - 1]) + if f.kind == CloseSession && f.channelId.Some? then {f.channelId.value} else {}
  }

  /** The channels that the wire's frames announce: opened, and not yet closed. */
  function Announced(wire: seq<Frame>): set<Str> {
    Opened(wire) - Closed(wire)
  }

  predicate HasError(wire: seq<Frame>) {
    wire != [] && (wire[|wire| - 1].kind == FrameType.Error || HasError(wire[..|wire| - 1]))
  }

  /** Where the agent ends up once it has dispatched the whole wire. */
  function AgentAfter(wire: seq<Frame>): AgentState {
    Replay(Running(map[]), wire)
  }

  /** The agent agrees with the wire: it runs with exactly the announced channels, or an ERROR frame has ended it. */
  predicate Agrees(wire: seq<Frame>) {
    if HasError(wire) then AgentAfter(wire) == Stopped(Unsupported)
    else AgentAfter(wire).Running? && AgentAfter(wire).channels.Keys == Announced(wire)
  }

  /** A data or resize frame for a channel that the wire does not announce: after CLOSE, or without OPEN. */
  predicate LateFrame(wire: seq<Frame>, f: Frame) {
    f.kind in {SessionData, ResizePty} && f.channelId.Some? && f.channelId.value !in Announced(wire) && !HasError(wire)
  }

  /** The frames a broker writes: session frames carry a non-empty id, an OPEN a new one, and control frames none. */
  predicate WellFormed(wire: seq<Frame>, f: Frame) {
    match f.kind
    case AuthOk => true
    case OpenSession => f.channelId.Some? && f.channelId.value != [] && f.channelId.value !in Opened(wire)
    case SessionData => f.channelId.Some? && f.channelId.value != []
    case ResizePty => f.channelId.Some? && f.channelId.value != []
    case CloseSession => f.channelId.Some? && f.channelId.value != []
    case Error => true
    case _ => false
  }

  lemma WireAppend(wire: seq<Frame>, f: Frame)
    ensures Opened(wire + [f]) == Opened(wire)
      + if f.kind == OpenSession && f.channelId.Some? then {f.channelId.value} else {}
    ensures Closed(wire + [f]) == Closed(wire)
      + if f.kind == CloseSession && f.channelId.Some? then {f.channelId.value} else {}
    ensures HasError(wire + [f]) == (HasError(wire) || f.kind == FrameType.Error)
    ensures AgentAfter(wire + [f]) == AgentStep(AgentAfter(wire), f)
  {
    assert (wire + [f])[..|wire|] == wire;
    ReplayAppend(Running(map[]), wire, f);
  }

  lemma AnnouncedAfter(wire: seq<Frame>, f: Frame)
    requires WellFormed(wire, f) && (f.kind == OpenSession ==> f.channelId.value !in Closed(wire))
    ensures Announced(wire + [f])
         == if f.kind == OpenSession then Announced(wire) + {f.channelId.value}
            else if f.kind == CloseSession then Announced(wire) - {f.channelId.value}
            else Announced(wire)
  {
    WireAppend(wire, f);
  }

  /** The channels after one frame of a session, if the loop goes on. */
  lemma DispatchedKeys(channels: map<Str, Bytes>, f: Frame, ch: Str)
    requires f.channelId == Some(ch) && ch != [] && f.kind in {OpenSession, SessionData, ResizePty, CloseSession}
    requires f.kind == OpenSession ==> ch !in channels
    ensures var st := Dispatched(channels, f);
            if f.kind in {SessionData, ResizePty} && ch !in channels then st == Stopped(AgentStop.UnknownChannel)
            else
              st.Running?
              && st.channels.Keys == (if f.kind == OpenSession then channels.Keys + {ch}
                                      else if f.kind == CloseSession then channels.Keys - {ch} else channels.Keys)
  {
  }

  lemma AgreesStep(wire: seq<Frame>, f: Frame)
    requires Agrees(wire) && WellFormed(wire, f) && !HasError(wire)
    requires f.kind == OpenSession ==> f.channelId.value !in Closed(wire)
    ensures var st := Dispatched(AgentAfter(wire).channels, f);
            if f.kind == FrameType.Error then st == Stopped(Unsupported)
            else if LateFrame(wire, f) then st == Stopped(AgentStop.UnknownChannel)
            else st.Running? && st.channels.Keys == Announced(wire + [f])
  {
    AnnouncedAfter(wire, f);
    if NeedsChannelId(f.kind) { DispatchedKeys(AgentAfter(wire).channels, f, f.channelId.value); }
  }

  /** One more frame keeps the agent in agreement exactly when it is not a late one. */
  lemma AgreesAppend(wire: seq<Frame>, f: Frame)
    requires Agrees(wire) && WellFormed(wire, f)
    requires f.kind == OpenSession ==> f.channelId.value !in Closed(wire)
    ensures Agrees(wire + [f]) <==> !LateFrame(wire, f)
    ensures LateFrame(wire, f) ==> AgentAfter(wire + [f]) == Stopped(AgentStop.UnknownChannel)
  {
    WireAppend(wire, f);
    if !HasError(wire) { AgreesStep(wire, f); }
  }

  // ---------------------------------------------------------------- the broker's side of a wire

  /** Every channel a wire names is one its connection has known, and one that is gone was closed on the wire. */
  ghost predicate WireLinked(conn: Conn) {
    && Opened(conn.wire) <= conn.streams.Keys
    && Closed(conn.wire) <= conn.streams.Keys
    && [] !in conn.streams
  }

  ghost predicate AllLinked(b: Broker) {
    forall c :: c in b.conns ==> WireLinked(b.conns[c])
  }

  ghost predicate AllAgree(s: System) {
    forall c :: c in s.broker.conns ==> Agrees(s.broker.conns[c].wire)
  }

  /** The step writes a frame that the agent will reject as meant for an unknown channel. */
  ghost predicate LateStep(s: System, step: Step)
    requires Inv(s) && Enabled(s, step)
  {
    var e := Emits(s, step);
    e.Some? && LateFrame(Wire(s, e.value.0), e.value.1)
  }

  // ---------------------------------------------------------------- a step, seen from one wire

  /** A connection that stays, keeps its channels and has more on its wire. */
  ghost predicate WireGrew(b: Broker, t: Broker, d: ConnId, written: seq<Frame>, opens: bool)
    requires d in b.conns
  {
    && d in t.conns && t.conns[d].wire == b.conns[d].wire + written
    && b.conns[d].streams.Keys <= t.conns[d].streams.Keys
    && (!opens ==> t.conns[d].streams.Keys == b.conns[d].streams.Keys)
  }

  lemma WireSame(b: Broker, t: Broker, d: ConnId)
    requires d in b.conns && d in t.conns && t.conns[d].wire == b.conns[d].wire
    requires t.conns[d].streams.Keys == b.conns[d].streams.Keys
    ensures WireGrew(b, t, d, [], false)
  {
    assert b.conns[d].wire + [] == b.conns[d].wire;
  }

  lemma WriteFrameWire(b: Broker, c: ConnId, f: Frame, d: ConnId)
    requires c in b.conns && d in b.conns
    ensures var t := WriteFrame(b, c, f).0;
            d in t.conns && t.conns[d].wire == b.conns[d].wire + WrittenTo(Accepted(b, c, f), d)
            && t.conns[d].streams == b.conns[d].streams
  {
  }

  lemma SendWire(b: Broker, kind: FrameType, channel: Str, requestId: Str, payload: Bytes, d: ConnId)
    requires AgentsOk(b) && d in b.conns
    ensures WireGrew(b, SendOnChannel(b, kind, channel, requestId, payload).0, d,
                     WrittenTo(SendEmits(b, kind, channel, requestId, payload), d), false)
  {
    match ChannelConnection(b, channel)
    case Err(_) => WireSame(b, b, d);
    case Ok(c) =>
      assert AgentOk(b, b.routes[channel]);
      WriteFrameWire(b, c, Frame(kind, requestId, Some(channel), payload), d);
  }

  lemma OpenWire(b: Broker, agent: AgentId, channel: Str, f: Frame, checks: OpenChecks, d: ConnId)
    requires AgentsOk(b) && d in b.conns
    ensures WireGrew(b, OpenOnAgent(b, agent, channel, f, checks).0, d,
                     WrittenTo(OpenEmits(b, agent, channel, f, checks), d), true)
    ensures var t := OpenOnAgent(b, agent, channel, f, checks).0;
            d in t.conns
            && if OpenRefusal(b, agent, channel, checks).Some? then t == b
               else t.conns[d].wire == b.conns[d].wire + WrittenTo(Accepted(b, b.connections[agent], f), d)
                    && t.conns[d].streams.Keys
                       == b.conns[d].streams.Keys + if d == b.connections[agent] then {channel} else {}
  {
    if OpenRefusal(b, agent, channel, checks).None? {
      assert AgentOk(b, agent);
      WriteFrameWire(Attach(b, agent, b.connections[agent], channel), b.connections[agent], f, d);
    } else {
      WireSame(b, b, d);
    }
  }

  lemma SetStreamWire(b: Broker, c: ConnId, channel: Str, stream: Stream, d: ConnId)
    requires c in b.conns && d in b.conns && channel in b.conns[c].streams
    ensures WireGrew(b, SetStream(b, c, channel, stream), d, [], false)
  {
    WireSame(b, SetStream(b, c, channel, stream), d);
  }

  lemma RetireWire(b: Broker, c: ConnId, channel: Str, d: ConnId)
    requires c in b.conns && d in b.conns
    ensures WireGrew(b, Retire(b, c, channel).0, d, [], false)
  {
    WireSame(b, Retire(b, c, channel).0, d);
  }

  lemma AgentFrameWire(b: Broker, c: ConnId, f: Frame, d: ConnId)
    requires c in b.conns && d in b.conns
    ensures WireGrew(b, AgentFrame(b, c, f).0, d, [], false)
  {
    assert b.conns[d].wire + [] == b.conns[d].wire;
    if AgentFrame(b, c, f).0 != b {
      AgentFrameChannel(b, c, f);
      var ch := f.channelId.value;
      var stream := b.conns[c].streams[ch];
      SetStreamWire(b, c, ch, stream.(buffer := stream.buffer + f.payload), d);
      SetStreamWire(b, c, ch, stream.(closed := true), d);
      RetireWire(SetStream(b, c, ch, stream.(closed := true)), c, ch, d);
    }
  }

  lemma DropWire(b: Broker, agent: AgentId, c: ConnId, d: ConnId)
    requires d in b.conns && (agent in b.connections ==> b.connections[agent] in b.conns)
    ensures WireGrew(b, Drop(b, agent, c), d, [], false)
  {
    if agent in b.connections && b.connections[agent] == c {
      assert EndStreams(b.conns[c]).streams.Keys == b.conns[c].streams.Keys;
    }
    WireSame(b, Drop(b, agent, c), d);
  }

  lemma RegisterWire(b: Broker, agent: AgentId, c: ConnId, requestId: Str, d: ConnId)
    requires c !in b.conns && d in b.conns
    ensures var t := Register(b, agent, c, requestId).0; d in t.conns && t.conns[d] == b.conns[d]
    ensures WireGrew(b, Register(b, agent, c, requestId).0, d, [], false)
  {
    WireSame(b, Register(b, agent, c, requestId).0, d);
  }

  lemma ErrorFrameWire(b: Broker, c: ConnId, requestId: Str, d: ConnId)
    requires c in b.conns && d in b.conns
    ensures WireGrew(b, WriteErrorFrame(b, c, requestId), d, WrittenTo(ErrorEmits(b, c, requestId), d), false)
  {
  }

  /** Marking a stream closed does not change which connection its CLOSE frame goes to. */
  lemma SameEmission(b: Broker, c: ConnId, channel: Str, stream: Stream, requestId: Str)
    requires AgentsOk(b) && c in b.conns && AgentsOk(SetStream(b, c, channel, stream))
    ensures SendEmits(SetStream(b, c, channel, stream), CloseSession, channel, requestId, [])
         == SendEmits(b, CloseSession, channel, requestId, [])
  {
    if channel in b.routes && b.routes[channel] in b.connections {
      assert AgentOk(b, b.routes[channel]);
    }
  }

  lemma MarkAndCloseWire(b: Broker, c: ConnId, channel: Str, stream: Stream, requestId: Str, d: ConnId)
    requires AgentsOk(b) && c in b.conns && d in b.conns && channel in b.conns[c].streams
    requires AgentsOk(SetStream(b, c, channel, stream))
    ensures WireGrew(b, SendOnChannel(SetStream(b, c, channel, stream), CloseSession, channel, requestId, []).0, d,
                     WrittenTo(SendEmits(b, CloseSession, channel, requestId, []), d), false)
  {
    SetStreamWire(b, c, channel, stream, d);
    SendWire(SetStream(b, c, channel, stream), CloseSession, channel, requestId, [], d);
    SameEmission(b, c, channel, stream, requestId);
  }

  lemma CloseStreamWire(s: System, c: ConnId, channel: Str, requestId: Str, d: ConnId)
    requires Inv(s) && c in s.broker.conns && channel in s.broker.conns[c].streams && d in s.broker.conns
    ensures WireGrew(s.broker, CloseStream(s, c, channel, requestId).0.broker, d,
                     WrittenTo(Emits(s, SStreamClose(c, channel, requestId)), d), false)
  {
    var stream := s.broker.conns[c].streams[channel];
    CloseStreamShape(s, c, channel, requestId);
    if stream.closed {
      WireSame(s.broker, s.broker, d);
    } else {
      MarkAndCloseWire(s.broker, c, channel, stream.(closed := true), requestId, d);
    }
  }

  lemma DropStepWire(s: System, agent: AgentId, c: ConnId, d: ConnId)
    requires Inv(s) && d in s.broker.conns
    ensures agent in s.broker.connections ==> s.broker.connections[agent] in s.broker.conns
    ensures WireGrew(s.broker, Drop(s.broker, agent, c), d, [], false)
  {
    if agent in s.broker.connections { assert AgentOk(s.broker, agent); }
    DropWire(s.broker, agent, c, d);
  }

  /** The steps that some coroutine takes on a connection object it holds, rather than on one it looks up. */
  predicate OnHeldConnection(step: Step) {
    step.SCloseEnd? || step.SCloseAbort? || step.SAgentFrame? || step.SErrorFrame? || step.SDrop? || step.SRead?
  }

  lemma CloseEndStepWire(s: System, step: Step, d: ConnId)
    requires Inv(s) && Enabled(s, step) && d in s.broker.conns && step.SCloseEnd?
    ensures WireGrew(s.broker, Next(s, step).0.broker, d, WrittenTo(Emits(s, step), d), step.SOpen?)
  {
    CloserHasConn(s, step.conn, step.channel);
    RetireWire(s.broker, step.conn, step.channel, d);
  }

  lemma FrameStepWire(s: System, step: Step, d: ConnId)
    requires Inv(s) && Enabled(s, step) && d in s.broker.conns && step.SAgentFrame?
    ensures WireGrew(s.broker, Next(s, step).0.broker, d, WrittenTo(Emits(s, step), d), step.SOpen?)
  {
    HandlerHasConn(s, step.conn);
    AgentFrameWire(s.broker, step.conn, step.frame, d);
  }

  lemma ErrorStepWire(s: System, step: Step, d: ConnId)
    requires Inv(s) && Enabled(s, step) && d in s.broker.conns && step.SErrorFrame?
    ensures WireGrew(s.broker, Next(s, step).0.broker, d, WrittenTo(Emits(s, step), d), step.SOpen?)
  {
    HandlerHasConn(s, step.conn);
    ErrorFrameWire(s.broker, step.conn, step.requestId, d);
  }

  lemma ReadStepWire(s: System, step: Step, d: ConnId)
    requires Inv(s) && Enabled(s, step) && d in s.broker.conns && step.SRead?
    ensures WireGrew(s.broker, Next(s, step).0.broker, d, WrittenTo(Emits(s, step), d), step.SOpen?)
  {
    var stream := s.broker.conns[step.conn].streams[step.channel];
    SetStreamWire(s.broker, step.conn, step.channel, ReadStream(stream, step.n).1, d);
  }

  lemma HeldStepWire(s: System, step: Step, d: ConnId)
    requires Inv(s) && Enabled(s, step) && d in s.broker.conns && OnHeldConnection(step)
    ensures WireGrew(s.broker, Next(s, step).0.broker, d, WrittenTo(Emits(s, step), d), step.SOpen?)
  {
    match step
    case SCloseEnd(_, _) => CloseEndStepWire(s, step, d);
    case SCloseAbort(_, _) => WireSame(s.broker, s.broker, d);
    case SAgentFrame(_, _) => FrameStepWire(s, step, d);
    case SErrorFrame(_, _) => ErrorStepWire(s, step, d);
    case SDrop(agent, c) => DropStepWire(s, agent, c, d);
    case SRead(_, _, _) => ReadStepWire(s, step, d);
  }

  /** What any step does to a connection that exists: its wire grows by what the step emits, and nothing is forgotten. */
  lemma StepWire(s: System, step: Step, d: ConnId)
    requires Inv(s) && Enabled(s, step) && d in s.broker.conns
    ensures WireGrew(s.broker, Next(s, step).0.broker, d, WrittenTo(Emits(s, step), d), step.SOpen?)
  {
    var b := s.broker;
    match step
    case SRegister(agent, c, requestId) => RegisterWire(b, agent, c, requestId, d);
    case SOpen(agent, ch, requestId, payload, checks) =>
      OpenWire(b, agent, ch, OpenFrame(ch, requestId, payload), checks, d);
    case SData(ch, requestId, payload) => SendWire(b, SessionData, ch, requestId, payload, d);
    case SResize(ch, requestId, payload) => SendWire(b, ResizePty, ch, requestId, payload, d);
    case SCloseBegin(ch, requestId) => SendWire(b, CloseSession, ch, requestId, [], d);
    case SStreamClose(c, ch, requestId) => CloseStreamWire(s, c, ch, requestId, d);
    case _ => HeldStepWire(s, step, d);
  }

  lemma SendKeys(b: Broker, kind: FrameType, channel: Str, requestId: Str, payload: Bytes)
    requires AgentsOk(b)
    ensures SendOnChannel(b, kind, channel, requestId, payload).0.conns.Keys == b.conns.Keys
  {
    if channel in b.routes && b.routes[channel] in b.connections { assert AgentOk(b, b.routes[channel]); }
  }

  lemma OpenKeys(b: Broker, agent: AgentId, channel: Str, f: Frame, checks: OpenChecks)
    requires AgentsOk(b)
    ensures OpenOnAgent(b, agent, channel, f, checks).0.conns.Keys == b.conns.Keys
  {
    if OpenRefusal(b, agent, channel, checks).None? { assert AgentOk(b, agent); }
  }

  lemma AgentFrameKeys(b: Broker, c: ConnId, f: Frame)
    requires c in b.conns
    ensures AgentFrame(b, c, f).0.conns.Keys == b.conns.Keys
  {
  }

  lemma DropKeys(b: Broker, agent: AgentId, c: ConnId)
    requires agent in b.connections ==> b.connections[agent] in b.conns
    ensures Drop(b, agent, c).conns.Keys == b.conns.Keys
  {
  }

  lemma CloseStreamKeys(s: System, c: ConnId, channel: Str, requestId: Str)
    requires Inv(s) && c in s.broker.conns && channel in s.broker.conns[c].streams
    ensures CloseStream(s, c, channel, requestId).0.broker.conns.Keys == s.broker.conns.Keys
  {
    var stream := s.broker.conns[c].streams[channel].(closed := true);
    CloseStreamShape(s, c, channel, requestId);
    SendKeys(SetStream(s.broker, c, channel, stream), CloseSession, channel, requestId, []);
  }

  lemma HeldStepKeys(s: System, step: Step)
    requires Inv(s) && Enabled(s, step) && OnHeldConnection(step)
    ensures Next(s, step).0.broker.conns.Keys == s.broker.conns.Keys
  {
    var b := s.broker;
    if step.SCloseEnd? {
      CloserHasConn(s, step.conn, step.channel);
    } else if step.SAgentFrame? {
      HandlerHasConn(s, step.conn);
      AgentFrameKeys(b, step.conn, step.frame);
    } else if step.SErrorFrame? {
      HandlerHasConn(s, step.conn);
    } else if step.SDrop? {
      if step.agent in b.connections { assert AgentOk(b, step.agent); }
      DropKeys(b, step.agent, step.conn);
    }
  }

  /** Connections appear only by registration, and are never forgotten. */
  lemma StepKeys(s: System, step: Step)
    requires Inv(s) && Enabled(s, step) && !step.SRegister?
    ensures Next(s, step).0.broker.conns.Keys == s.broker.conns.Keys
  {
    var b := s.broker;
    match step
    case SOpen(agent, ch, requestId, payload, checks) => OpenKeys(b, agent, ch, OpenFrame(ch, requestId, payload), checks);
    case SData(ch, requestId, payload) => SendKeys(b, SessionData, ch, requestId, payload);
    case SResize(ch, requestId, payload) => SendKeys(b, ResizePty, ch, requestId, payload);
    case SCloseBegin(ch, requestId) => SendKeys(b, CloseSession, ch, requestId, []);
    case SStreamClose(c, ch, requestId) => CloseStreamKeys(s, c, ch, requestId);
    case _ => HeldStepKeys(s, step);
  }

  lemma RegisteredConn(b: Broker, agent: AgentId, c: ConnId, requestId: Str, d: ConnId)
    requires d !in b.conns && d in Register(b, agent, c, requestId).0.conns
    ensures d == c && b.maxSessions > 0 && !(agent in b.active && b.active[agent] != c)
    ensures var conn := Register(b, agent, c, requestId).0.conns[d];
            conn.streams == map[] && conn.wire == WrittenTo(Accepted(b, c, Frame(AuthOk, requestId, None, [])), d)
  {
  }

  /** A new connection begins with at most the AUTH_OK frame on its wire. */
  lemma NewConnection(s: System, step: Step, d: ConnId)
    requires Inv(s) && Enabled(s, step) && d !in s.broker.conns && d in Next(s, step).0.broker.conns
    ensures step.SRegister?
    ensures Next(s, step).0.broker.conns[d].streams == map[]
    ensures Next(s, step).0.broker.conns[d].wire == WrittenTo(Emits(s, step), d)
  {
    if step.SRegister? {
      RegisteredConn(s.broker, step.agent, step.conn, step.requestId, d);
    } else {
      StepKeys(s, step);
    }
  }

  // ---------------------------------------------------------------- the invariants, step by step

  /** What a step adds to a wire: nothing the agent has not met, unless it opens a channel or closes one. */
  lemma EmittedFrame(s: System, step: Step)
    requires Inv(s) && AllLinked(s.broker) && Enabled(s, step) && Emits(s, step).Some?
    ensures var (c, f) := Emits(s, step).value;
            && (step.SRegister? <==> c !in s.broker.conns)
            && (step.SRegister? ==> f.kind == AuthOk)
            && WellFormed(Wire(s, c), f)
            && (f.kind == OpenSession <==> step.SOpen?)
            && (f.kind == OpenSession ==>
                  f.channelId == Some(step.channel) && c in s.broker.conns && step.channel !in s.broker.conns[c].streams
                  && c in Next(s, step).0.broker.conns && step.channel in Next(s, step).0.broker.conns[c].streams)
            && (f.kind in {SessionData, ResizePty, CloseSession} ==>
                  f.channelId.Some? && c in s.broker.conns && f.channelId.value in s.broker.conns[c].open)
  {
    var (c, f) := Emits(s, step).value;
    match step
    case SRegister(agent, c, requestId) =>
    case SOpen(agent, ch, requestId, payload, checks) => EmittedOpen(s, step);
    case SData(ch, requestId, payload) => EmittedOnChannel(s.broker, SessionData, ch, requestId, payload);
    case SResize(ch, requestId, payload) => EmittedOnChannel(s.broker, ResizePty, ch, requestId, payload);
    case SCloseBegin(ch, requestId) => EmittedOnChannel(s.broker, CloseSession, ch, requestId, []);
    case SStreamClose(_, ch, requestId) => EmittedOnChannel(s.broker, CloseSession, ch, requestId, []);
    case SErrorFrame(_, requestId) => HandlerHasConn(s, c);
  }

  lemma EmittedOnChannel(b: Broker, kind: FrameType, channel: Str, requestId: Str, payload: Bytes)
    requires TablesAgree(b) && AllLinked(b) && SendEmits(b, kind, channel, requestId, payload).Some?
    ensures var (c, f) := SendEmits(b, kind, channel, requestId, payload).value;
            c in b.conns && f.kind == kind && f.channelId == Some(channel) && channel in b.conns[c].open && channel != []
  {
    assert AgentOk(b, b.routes[channel]);
    var c := b.connections[b.routes[channel]];
    assert ConnOk(b.conns[c], b.maxSessions) && WireLinked(b.conns[c]);
  }

  lemma EmittedOpen(s: System, step: Step)
    requires Inv(s) && AllLinked(s.broker) && step.SOpen? && Emits(s, step).Some?
    ensures var (c, f) := Emits(s, step).value;
            c in s.broker.conns && f.kind == OpenSession && f.channelId == Some(step.channel) && step.channel != []
            && step.channel !in s.broker.conns[c].streams && step.channel !in Opened(s.broker.conns[c].wire)
            && c in Next(s, step).0.broker.conns && step.channel in Next(s, step).0.broker.conns[c].streams
  {
    var b := s.broker;
    assert AgentOk(b, step.agent);
    var c := b.connections[step.agent];
    assert ConnOk(b.conns[c], b.maxSessions) && WireLinked(b.conns[c]);
  }

  lemma LinkedKept(s: System, step: Step)
    requires Inv(s) && AllLinked(s.broker) && Enabled(s, step)
    ensures AllLinked(Next(s, step).0.broker)
  {
    var t := Next(s, step).0;
    forall d | d in t.broker.conns ensures WireLinked(t.broker.conns[d]) {
      if d in s.broker.conns {
        LinkedKeptOn(s, step, d);
      } else {
        NewConnection(s, step, d);
        NewWireLinked(s, step, d);
      }
    }
  }

  lemma NewWireLinked(s: System, step: Step, d: ConnId)
    requires Inv(s) && Enabled(s, step) && step.SRegister?
    ensures Opened(WrittenTo(Emits(s, step), d)) == {} && Closed(WrittenTo(Emits(s, step), d)) == {}
    ensures Agrees(WrittenTo(Emits(s, step), d))
  {
    if Emits(s, step).Some? {
      WireAppend([], Emits(s, step).value.1);
      assert [] + [Emits(s, step).value.1] == [Emits(s, step).value.1];
    }
  }

  lemma LinkedKeptOn(s: System, step: Step, d: ConnId)
    requires Inv(s) && AllLinked(s.broker) && Enabled(s, step) && d in s.broker.conns
    ensures var t := Next(s, step).0; d in t.broker.conns && WireLinked(t.broker.conns[d])
  {
    StepWire(s, step, d);
    assert WireLinked(s.broker.conns[d]);
    var e := Emits(s, step);
    if e.Some? && e.value.0 == d {
      EmittedFrame(s, step);
      WireAppend(s.broker.conns[d].wire, e.value.1);
      OpenIsKnown(s, d);
    } else {
      assert s.broker.conns[d].wire + [] == s.broker.conns[d].wire;
    }
    NoEmptyChannel(s, step, d);
  }

  lemma OpenIsKnown(s: System, d: ConnId)
    requires Inv(s) && d in s.broker.conns
    ensures s.broker.conns[d].open <= s.broker.conns[d].streams.Keys
  {
    assert ConnOk(s.broker.conns[d], s.broker.maxSessions);
  }

  lemma NoEmptyChannel(s: System, step: Step, d: ConnId)
    requires Inv(s) && Enabled(s, step) && d in s.broker.conns && [] !in s.broker.conns[d].streams
    ensures d in Next(s, step).0.broker.conns && [] !in Next(s, step).0.broker.conns[d].streams
  {
    StepWire(s, step, d);
    if step.SOpen? {
      OpenWire(s.broker, step.agent, step.channel, OpenFrame(step.channel, step.requestId, step.payload), step.checks, d);
    }
  }

  /** A step breaks the agent's agreement with some wire exactly when it is a late one. */
  lemma AgreementStep(s: System, step: Step)
    requires Inv(s) && AllLinked(s.broker) && AllAgree(s) && Enabled(s, step)
    ensures AllAgree(Next(s, step).0) <==> !LateStep(s, step)
  {
    var t := Next(s, step).0;
    forall d | d in t.broker.conns
      ensures Agrees(t.broker.conns[d].wire) <==> !(LateStep(s, step) && Emits(s, step).value.0 == d)
    {
      if d in s.broker.conns {
        AgreementOn(s, step, d);
      } else {
        NewConnection(s, step, d);
        NewWireLinked(s, step, d);
      }
    }
    if LateStep(s, step) {
      EmittedFrame(s, step);
      StepWire(s, step, Emits(s, step).value.0);
      assert !Agrees(t.broker.conns[Emits(s, step).value.0].wire);
    }
  }

  lemma AgreementOn(s: System, step: Step, d: ConnId)
    requires Inv(s) && AllLinked(s.broker) && AllAgree(s) && Enabled(s, step) && d in s.broker.conns
    ensures d in Next(s, step).0.broker.conns
    ensures Agrees(Next(s, step).0.broker.conns[d].wire) <==> !(LateStep(s, step) && Emits(s, step).value.0 == d)
  {
    StepWire(s, step, d);
    var e, wire := Emits(s, step), s.broker.conns[d].wire;
    assert Agrees(wire) && WireLinked(s.broker.conns[d]);
    if e.Some? && e.value.0 == d {
      EmittedFrame(s, step);
      AgreesAppend(wire, e.value.1);
    } else {
      assert wire + [] == wire;
    }
  }

  // ---------------------------------------------------------------- runs

  /** No step of the run is late. A caller can tell beforehand: it is the one that has begun the close, or saw OPEN fail. */
  ghost predicate CleanRun(s: System, steps: seq<Step>)
    requires Inv(s) && IsRun(s, steps)
    decreases |steps|
  {
    steps == []
    || (!LateStep(s, steps[0]) && (StepKeepsInv(s, steps[0]); CleanRun(Next(s, steps[0]).0, steps[1..])))
  }

  /** In a clean run the agent agrees with every wire at every moment. */
  lemma {:induction false} SimulationHolds(s: System, steps: seq<Step>)
    requires Inv(s) && AllLinked(s.broker) && AllAgree(s) && IsRun(s, steps) && CleanRun(s, steps)
    ensures AllLinked(After(s, steps).broker) && AllAgree(After(s, steps))
    decreases |steps|
  {
    if steps != [] {
      StepKeepsInv(s, steps[0]);
      LinkedKept(s, steps[0]);
      AgreementStep(s, steps[0]);
      SimulationHolds(Next(s, steps[0]).0, steps[1..]);
    }
  }

  /** The agent has failed on the wire with an error other than the server's own ERROR frame. */
  ghost predicate AgentFailed(wire: seq<Frame>) {
    AgentAfter(wire).Stopped? && AgentAfter(wire).reason != Unsupported
  }

  ghost predicate SomeAgentFailed(s: System) {
    exists c :: c in s.broker.conns && AgentFailed(s.broker.conns[c].wire)
  }

  lemma FailureStays(s: System, step: Step)
    requires Inv(s) && Enabled(s, step) && SomeAgentFailed(s)
    ensures SomeAgentFailed(Next(s, step).0)
  {
    var c :| c in s.broker.conns && AgentFailed(s.broker.conns[c].wire);
    StepWire(s, step, c);
    if WrittenTo(Emits(s, step), c) == [] {
      assert s.broker.conns[c].wire + [] == s.broker.conns[c].wire;
    } else {
      WireAppend(s.broker.conns[c].wire, Emits(s, step).value.1);
    }
    assert AgentFailed(Next(s, step).0.broker.conns[c].wire);
  }

  lemma {:induction false} FailureStaysRun(s: System, steps: seq<Step>)
    requires Inv(s) && IsRun(s, steps) && SomeAgentFailed(s)
    ensures SomeAgentFailed(After(s, steps))
    decreases |steps|
  {
    if steps != [] {
      StepKeepsInv(s, steps[0]);
      FailureStays(s, steps[0]);
      FailureStaysRun(Next(s, steps[0]).0, steps[1..]);
    }
  }

  lemma LateStepFails(s: System, step: Step)
    requires Inv(s) && AllLinked(s.broker) && AllAgree(s) && Enabled(s, step) && LateStep(s, step)
    ensures SomeAgentFailed(Next(s, step).0)
  {
    var (c, f) := Emits(s, step).value;
    EmittedFrame(s, step);
    StepWire(s, step, c);
    assert Agrees(s.broker.conns[c].wire);
    AgreesAppend(s.broker.conns[c].wire, f);
    assert AgentFailed(Next(s, step).0.broker.conns[c].wire);
  }

  /** An agent is ever driven into its reuse or unknown-channel errors if and only if the run has a late step. */
  lemma {:induction false} AgentFailsIffLate(s: System, steps: seq<Step>)
    requires Inv(s) && AllLinked(s.broker) && AllAgree(s) && IsRun(s, steps)
    ensures SomeAgentFailed(After(s, steps)) <==> !CleanRun(s, steps)
    decreases |steps|
  {
    if steps == [] {
      forall c | c in s.broker.conns ensures !AgentFailed(s.broker.conns[c].wire) {
        assert Agrees(s.broker.conns[c].wire);
      }
    } else {
      var t := Next(s, steps[0]).0;
      StepKeepsInv(s, steps[0]);
      LinkedKept(s, steps[0]);
      AgreementStep(s, steps[0]);
      if LateStep(s, steps[0]) {
        LateStepFails(s, steps[0]);
        FailureStaysRun(t, steps[1..]);
      } else {
        AgentFailsIffLate(t, steps[1..]);
      }
    }
  }

  /** The agent has dispatched the first `k` frames: those in flight lead it to exactly the announced channels. */
  lemma InFlight(wire: seq<Frame>, k: nat)
    requires Agrees(wire) && !HasError(wire) && k <= |wire|
    ensures AgentAfter(wire[..k]).Running?
    ensures Replay(AgentAfter(wire[..k]), wire[k..]).Running?
    ensures Replay(AgentAfter(wire[..k]), wire[k..]).channels.Keys == Announced(wire)
  {
    assert wire[..k] + wire[k..] == wire;
    ReplaySplit(Running(map[]), wire[..k], wire[k..]);
    if AgentAfter(wire[..k]).Stopped? {
      StoppedStays(AgentAfter(wire[..k]), wire[k..]);
    }
  }
}
