/**
 What each operation of `ServerTunnelBroker` (src/server/tunnel.py) does to the broker's tables between two awaits.

 Connection objects are kept under their connection id in `conns`, dropped ones included, because a coroutine that is
 suspended in `close_session` still holds the object it looked up before the drop. `encodeError` is the frame codec as
 the broker sees it; the results about the tables hold for any codec, and `CodecError` is the real one.
 */
module BrokerSpec {
  import opened Wrappers
  import opened Text
  import opened FrameCodec

  type AgentId = nat

  type ConnId = nat

  /** `BrokerTunnelStream`: octets received from the agent and not yet read, and the end-of-stream mark. */
  datatype Stream = Stream(buffer: Bytes, closed: bool)

  /** `_BrokerTunnelConnection` with its channel registry; `wire` is every frame written to the agent so far. */
  datatype Conn = Conn(
    agent: AgentId,
    open: set<Str>,
    retired: set<Str>,
    adapters: set<Str>,
    streams: map<Str, Stream>,
    wire: seq<Frame>)

  datatype Broker = Broker(
    active: map<AgentId, ConnId>,
    connections: map<AgentId, ConnId>,
    routes: map<Str, AgentId>,
    conns: map<ConnId, Conn>,
    maxSessions: int,
    maxFrameBytes: int,
    encodeError: (Frame, int) -> Option<ProtocolError>)

  /** The error `encode_frame` raises for a frame under a payload limit, if any. */
  function CodecError(f: Frame, maxFrameBytes: int): Option<ProtocolError> {
    match EncodeFrame(f, maxFrameBytes)
    case Ok(_) => None
    case Err(e) => Some(e)
  }

  ghost predicate AgentOk(b: Broker, a: AgentId)
    requires a in b.connections
  {
    b.connections[a] in b.conns && b.conns[b.connections[a]].agent == a
  }

  /** Every registered agent's connection object exists and is that agent's. */
  ghost predicate AgentsOk(b: Broker) {
    forall a :: a in b.connections ==> AgentOk(b, a)
  }

  datatype StateError =
    | MaxSessionsInvalid | DuplicateTunnel
    | PrincipalMismatch | HostKeyNotPinned | ChannelIdRequired | NotConnected | HeartbeatStale
    | ChannelReuse | MaxSessionsExceeded | ChannelNotOpen | UnknownChannel
    | FrameTypeNotAccepted
    | FrameRejected(error: ProtocolError)
    | LookupFailed  // an uncaught KeyError

  datatype Outcome = Done | Raised(error: StateError)

  /** `_write_frame` up to its first suspension: the frame is on the wire, or encoding it raised. */
  function WriteFrame(b: Broker, c: ConnId, f: Frame): (Broker, Outcome)
    requires c in b.conns
  {
    match b.encodeError(f, b.maxFrameBytes)
    case Some(e) => (b, Raised(FrameRejected(e)))
    case None => (b.(conns := b.conns[c := b.conns[c].(wire := b.conns[c].wire + [f])]), Done)
  }

  /** `handle_stream` from `ActiveTunnelRegistry.connect` to the AUTH_OK frame. */
  function Register(b: Broker, agent: AgentId, c: ConnId, requestId: Str): (Broker, Outcome) {
    if b.maxSessions <= 0 then (b, Raised(MaxSessionsInvalid))
    else if agent in b.active && b.active[agent] != c then (b, Raised(DuplicateTunnel))
    else
      WriteFrame(Admit(b, agent, c), c, Frame(AuthOk, requestId, None, []))
  }

  /** The table updates of a registration. */
  function Admit(b: Broker, agent: AgentId, c: ConnId): Broker {
    b.(active := b.active[agent := c],
       connections := b.connections[agent := c],
       conns := b.conns[c := Conn(agent, {}, {}, {}, map[], [])])
  }

  /** `TunnelChannelRegistry.open_channel`: the reason to refuse, if there is one. */
  function RefuseOpen(conn: Conn, channel: Str, maxSessions: int): Option<StateError> {
    if channel in conn.open || channel in conn.retired then Some(ChannelReuse)
    else if |conn.open| >= maxSessions then Some(MaxSessionsExceeded)
    else None
  }

  /** What `open_session` learns from its arguments and the clock before it touches a table. */
  datatype OpenChecks = OpenChecks(principalMatches: bool, hostKeyPinned: bool, heartbeatFresh: bool)

  /** The first reason for which `open_session` refuses, in the order of its checks. */
  function OpenRefusal(b: Broker, agent: AgentId, channel: Str, checks: OpenChecks): Option<StateError>
    requires AgentsOk(b)
  {
    if !checks.principalMatches then Some(PrincipalMismatch)
    else if !checks.hostKeyPinned then Some(HostKeyNotPinned)
    else if channel == [] then Some(ChannelIdRequired)
    else if agent !in b.connections then Some(NotConnected)
    else if !checks.heartbeatFresh then Some(HeartbeatStale)
    else
      assert AgentOk(b, agent);
      RefuseOpen(b.conns[b.connections[agent]], channel, b.maxSessions)
  }

  function OpenFrame(channel: Str, requestId: Str, payload: Bytes): Frame {
    Frame(OpenSession, requestId, Some(channel), payload)
  }

  /** `open_session`: the tables are updated before the frame is encoded, so an encoding error leaves them updated. */
  function OpenOnAgent(b: Broker, agent: AgentId, channel: Str, f: Frame, checks: OpenChecks): (Broker, Outcome)
    requires AgentsOk(b)
  {
    match OpenRefusal(b, agent, channel, checks)
    case Some(e) => (b, Raised(e))
    case None =>
      assert AgentOk(b, agent);
      var c := b.connections[agent];
      WriteFrame(Attach(b, agent, c, channel), c, f)
  }

  /** The table updates of `open_session`: channel opened, adapter created, route entered. */
  function Attach(b: Broker, agent: AgentId, c: ConnId, channel: Str): Broker
    requires c in b.conns
  {
    var conn := b.conns[c];
    b.(routes := b.routes[channel := agent],
       conns := b.conns[c := conn.(open := conn.open + {channel},
                                   adapters := conn.adapters + {channel},
                                   streams := conn.streams[channel := Stream([], false)])])
  }

  /** `_require_channel_connection` and `require_open`: the connection that carries an open channel. */
  function ChannelConnection(b: Broker, channel: Str): Result<ConnId, StateError>
    requires AgentsOk(b)
  {
    if channel !in b.routes then Err(ChannelNotOpen)
    else if b.routes[channel] !in b.connections then Err(LookupFailed)
    else
      assert AgentOk(b, b.routes[channel]);
      var c := b.connections[b.routes[channel]];
      if channel !in b.conns[c].open then Err(UnknownChannel) else Ok(c)
  }

  /** `send_data` and `resize_pty`, and `close_session` up to its suspension. */
  function SendOnChannel(b: Broker, kind: FrameType, channel: Str, requestId: Str, payload: Bytes): (Broker, Outcome)
    requires AgentsOk(b)
  {
    match ChannelConnection(b, channel)
    case Err(e) => (b, Raised(e))
    case Ok(c) => WriteFrame(b, c, Frame(kind, requestId, Some(channel), payload))
  }

  /** `_retire_channel` on a connection object, live or not. */
  function Retire(b: Broker, c: ConnId, channel: Str): (Broker, Outcome)
    requires c in b.conns
  {
    var conn := b.conns[c];
    if channel !in conn.open then (b, Raised(UnknownChannel))
    else
      (b.(routes := b.routes - {channel},
          conns := b.conns[c := conn.(open := conn.open - {channel},
                                      retired := conn.retired + {channel},
                                      adapters := conn.adapters - {channel})]),
       Done)
  }

  function SetStream(b: Broker, c: ConnId, channel: Str, stream: Stream): Broker
    requires c in b.conns
  {
    b.(conns := b.conns[c := b.conns[c].(streams := b.conns[c].streams[channel := stream])])
  }

  /** `_handle_agent_frame`. */
  function AgentFrame(b: Broker, c: ConnId, f: Frame): (Broker, Outcome)
    requires c in b.conns
  {
    if f.kind == Heartbeat then (b, Done)
    else if f.kind == SessionData || f.kind == CloseSession then
      if f.channelId.None? then (b, Raised(ChannelIdRequired))
      else
        var conn, channel := b.conns[c], f.channelId.value;
        if channel !in conn.open then (b, Raised(UnknownChannel))
        else if channel !in conn.adapters || channel !in conn.streams then (b, Raised(LookupFailed))
        else
          var stream := conn.streams[channel];
          if f.kind == SessionData then
            (SetStream(b, c, channel, stream.(buffer := stream.buffer + f.payload)), Done)
          else
            Retire(SetStream(b, c, channel, stream.(closed := true)), c, channel)
    else (b, Raised(FrameTypeNotAccepted))
  }

  /** `ActiveTunnelRegistry.disconnect`. */
  function Disconnect(b: Broker, agent: AgentId, c: ConnId): Broker {
    if agent in b.active && b.active[agent] == c then b.(active := b.active - {agent}) else b
  }

  /** Every stream that still has an adapter reaches end of stream; what it has buffered stays readable. */
  function EndStreams(conn: Conn): Conn {
    conn.(streams := map ch | ch in conn.streams ::
            if ch in conn.adapters then conn.streams[ch].(closed := true) else conn.streams[ch])
  }

  /** `_drop_connection`. */
  function Drop(b: Broker, agent: AgentId, c: ConnId): Broker
    requires agent in b.connections ==> b.connections[agent] in b.conns
  {
    if agent !in b.connections then Disconnect(b, agent, c)
    else if b.connections[agent] != c then Disconnect(b, agent, c)
    else
      var conn := b.conns[c];
      Disconnect(b.(connections := b.connections - {agent},
                    routes := b.routes - conn.adapters,
                    conns := b.conns[c := EndStreams(conn)]),
                 agent, c)
  }

  /** `BrokerTunnelStream.read(n)` once it no longer waits: the octets returned and the stream left behind. */
  function ReadStream(stream: Stream, n: int): (Bytes, Stream) {
    if n < 0 || n >= |stream.buffer| then (stream.buffer, stream.(buffer := []))
    else (stream.buffer[..n], stream.(buffer := stream.buffer[n..]))
  }
}
