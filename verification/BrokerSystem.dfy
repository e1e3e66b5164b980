/**
 The broker under concurrency: a step is the code some coroutine runs between two suspensions, and a run is any
 sequence of enabled steps.
 */
module BrokerSystem {
  import opened Wrappers
  import opened Text
  import opened FrameCodec
  import opened BrokerSpec

  /**
   `handlers` are the connections whose `handle_stream` is past registration and not yet through its `finally`;
   `closers` are the `close_session` calls that have written CLOSE and wait for the drain, with the connection object
   each one holds.
   */
  datatype System = System(broker: Broker, handlers: set<ConnId>, closers: multiset<(ConnId, Str)>)

  datatype Step =
    | SRegister(agent: AgentId, conn: ConnId, requestId: Str)
    | SOpen(agent: AgentId, channel: Str, requestId: Str, payload: Bytes, checks: OpenChecks)
    | SData(channel: Str, requestId: Str, payload: Bytes)
    | SResize(channel: Str, requestId: Str, payload: Bytes)
    | SCloseBegin(channel: Str, requestId: Str)
    | SStreamClose(conn: ConnId, channel: Str, requestId: Str)
    | SCloseEnd(conn: ConnId, channel: Str)
    | SCloseAbort(conn: ConnId, channel: Str)
    | SAgentFrame(conn: ConnId, frame: Frame)
    | SErrorFrame(conn: ConnId, requestId: Str)
    | SDrop(agent: AgentId, conn: ConnId)
    | SRead(conn: ConnId, channel: Str, n: int)

  // ---------------------------------------------------------------- the invariant

  ghost predicate ConnOk(conn: Conn, maxSessions: int) {
    && conn.adapters == conn.open
    && conn.open !! conn.retired
    && |conn.open| <= maxSessions
    && StreamsCover(conn)
  }

  /** There is a stream for every channel that was ever opened, and for no other. */
  ghost predicate StreamsCover(conn: Conn) {
    forall ch :: ch in conn.streams <==> ch in conn.open || ch in conn.retired
  }

  ghost predicate RouteOk(b: Broker, ch: Str)
    requires ch in b.routes
  {
    var a := b.routes[ch];
    a in b.connections && b.connections[a] in b.conns && ch in b.conns[b.connections[a]].adapters
  }

  ghost predicate ConnsOk(b: Broker) {
    forall c :: c in b.conns ==> ConnOk(b.conns[c], b.maxSessions)
  }

  ghost predicate RoutesOk(b: Broker) {
    forall ch :: ch in b.routes ==> RouteOk(b, ch)
  }

  /** The four tables agree: registry, connections, per-connection channels with adapters, and routes. */
  ghost predicate TablesAgree(b: Broker) {
    && b.active == b.connections
    && AgentsOk(b)
    && ConnsOk(b)
    && RoutesOk(b)
  }

  ghost predicate Live(b: Broker, c: ConnId) {
    c in b.conns && b.conns[c].agent in b.connections && b.connections[b.conns[c].agent] == c
  }

  ghost predicate HandlersOk(b: Broker, handlers: set<ConnId>) {
    forall c :: c in handlers <==> Live(b, c)
  }

  ghost predicate CloserOk(b: Broker, p: (ConnId, Str)) {
    p.0 in b.conns && p.1 in b.conns[p.0].streams
  }

  ghost predicate ClosersOk(b: Broker, closers: multiset<(ConnId, Str)>) {
    forall p :: p in closers ==> CloserOk(b, p)
  }

  ghost predicate Inv(s: System) {
    TablesAgree(s.broker) && HandlersOk(s.broker, s.handlers) && ClosersOk(s.broker, s.closers)
  }

  /** A read waits for data or the end of the stream. */
  predicate Readable(stream: Stream) {
    stream.buffer != [] || stream.closed
  }

  /** Whether some coroutine can take the step: connection ids are fresh, and only suspended calls resume. */
  ghost predicate Enabled(s: System, step: Step) {
    match step
    case SRegister(agent, c, _) => c !in s.broker.conns
    case SStreamClose(c, ch, _) => c in s.broker.conns && ch in s.broker.conns[c].streams
    case SCloseEnd(c, ch) => (c, ch) in s.closers
    case SCloseAbort(c, ch) => (c, ch) in s.closers
    case SAgentFrame(c, _) => c in s.handlers
    case SErrorFrame(c, _) => c in s.handlers
    case SDrop(agent, c) => if c in s.broker.conns then c in s.handlers && s.broker.conns[c].agent == agent else true
    case SRead(c, ch, _) => c in s.broker.conns && ch in s.broker.conns[c].streams && Readable(s.broker.conns[c].streams[ch])
    case _ => true
  }

  /** `close_session` up to its suspension, with the continuation that it leaves behind. */
  function BeginClose(s: System, channel: Str, requestId: Str): (System, Outcome)
    requires AgentsOk(s.broker)
  {
    var (b, o) := SendOnChannel(s.broker, CloseSession, channel, requestId, []);
    if o.Raised? then (s.(broker := b), o)
    else (s.(broker := b, closers := s.closers + multiset{(ChannelConnection(s.broker, channel).value, channel)}), o)
  }

  /** `BrokerTunnelStream.close`: nothing if already closed, else the mark is set before the frame is written. */
  function CloseStream(s: System, c: ConnId, channel: Str, requestId: Str): (System, Outcome)
    requires AgentsOk(s.broker)
    requires c in s.broker.conns && channel in s.broker.conns[c].streams
  {
    var stream := s.broker.conns[c].streams[channel];
    if stream.closed then (s, Done)
    else BeginClose(s.(broker := SetStream(s.broker, c, channel, stream.(closed := true))), channel, requestId)
  }

  /** `_best_effort_error`: an ERROR frame, bounded by 1 MiB and not by the broker's own limit. */
  function WriteErrorFrame(b: Broker, c: ConnId, requestId: Str): Broker
    requires c in b.conns
  {
    var f := Frame(FrameType.Error, requestId, None, []);
    if b.encodeError(f, 1024 * 1024).Some? then b
    else b.(conns := b.conns[c := b.conns[c].(wire := b.conns[c].wire + [f])])
  }

  /** A step that changes only the broker. */
  function WithBroker(s: System, r: (Broker, Outcome)): (System, Outcome) {
    (s.(broker := r.0), r.1)
  }

  function Next(s: System, step: Step): (System, Outcome)
    requires Inv(s) && Enabled(s, step)
  {
    match step
    case SRegister(agent, c, requestId) =>
      var r := Register(s.broker, agent, c, requestId);
      (s.(broker := r.0, handlers := if c in r.0.conns then s.handlers + {c} else s.handlers), r.1)
    case SOpen(agent, ch, requestId, payload, checks) =>
      WithBroker(s, OpenOnAgent(s.broker, agent, ch, OpenFrame(ch, requestId, payload), checks))
    case SData(ch, requestId, payload) => WithBroker(s, SendOnChannel(s.broker, SessionData, ch, requestId, payload))
    case SResize(ch, requestId, payload) => WithBroker(s, SendOnChannel(s.broker, ResizePty, ch, requestId, payload))
    case SCloseBegin(ch, requestId) => BeginClose(s, ch, requestId)
    case SStreamClose(c, ch, requestId) => CloseStream(s, c, ch, requestId)
    case SCloseEnd(c, ch) =>
      var r := Retire(s.broker, c, ch);
      (s.(broker := r.0, closers := s.closers - multiset{(c, ch)}), r.1)
    case SCloseAbort(c, ch) => (s.(closers := s.closers - multiset{(c, ch)}), Done)
    case SAgentFrame(c, f) => WithBroker(s, AgentFrame(s.broker, c, f))
    case SErrorFrame(c, requestId) => WithBroker(s, (WriteErrorFrame(s.broker, c, requestId), Done))
    case SDrop(agent, c) => (s.(broker := Drop(s.broker, agent, c), handlers := s.handlers - {c}), Done)
    case SRead(c, ch, n) =>
      WithBroker(s, (SetStream(s.broker, c, ch, ReadStream(s.broker.conns[c].streams[ch], n).1), Done))
  }

  /** A broker that has just been constructed. */
  function Initial(maxSessions: int, maxFrameBytes: int, encodeError: (Frame, int) -> Option<ProtocolError>): (s: System)
    ensures Inv(s)
  {
    System(Broker(map[], map[], map[], map[], maxSessions, maxFrameBytes, encodeError), {}, multiset{})
  }

  lemma HandlerHasConn(s: System, c: ConnId)
    requires Inv(s) && c in s.handlers
    ensures Live(s.broker, c)
  {
  }

  lemma CloserHasConn(s: System, c: ConnId, ch: Str)
    requires Inv(s) && (c, ch) in s.closers
    ensures c in s.broker.conns && ch in s.broker.conns[c].streams
  {
    assert CloserOk(s.broker, (c, ch));
  }

  // ---------------------------------------------------------------- every step keeps it

  /** The tables of `b` with one connection object replaced by one of the same agent. */
  ghost predicate ReplacesConn(b: Broker, t: Broker, c: ConnId) {
    && c in b.conns && c in t.conns
    && t.conns == b.conns[c := t.conns[c]]
    && t.conns[c].agent == b.conns[c].agent
    && b.conns[c].streams.Keys <= t.conns[c].streams.Keys
    && t.active == b.active && t.connections == b.connections && t.maxSessions == b.maxSessions
  }

  lemma AgentsKept(b: Broker, t: Broker, c: ConnId)
    requires ReplacesConn(b, t, c) && AgentsOk(b)
    ensures AgentsOk(t)
  {
    forall a | a in t.connections ensures AgentOk(t, a) {
      assert AgentOk(b, a);
    }
  }

  lemma ConnsKept(b: Broker, t: Broker, c: ConnId)
    requires ReplacesConn(b, t, c) && ConnsOk(b) && ConnOk(t.conns[c], b.maxSessions)
    ensures ConnsOk(t)
  {
  }

  lemma HandlersKept(b: Broker, t: Broker, c: ConnId, handlers: set<ConnId>)
    requires ReplacesConn(b, t, c) && HandlersOk(b, handlers)
    ensures HandlersOk(t, handlers)
  {
    forall d ensures d in handlers <==> Live(t, d) {
      assert d in handlers <==> Live(b, d);
    }
  }

  lemma ClosersKept(b: Broker, t: Broker, c: ConnId, closers: multiset<(ConnId, Str)>)
    requires ReplacesConn(b, t, c) && ClosersOk(b, closers)
    ensures ClosersOk(t, closers)
  {
    forall p | p in closers ensures CloserOk(t, p) {
      assert CloserOk(b, p);
    }
  }

  lemma ReplaceConnKeeps(b: Broker, t: Broker, c: ConnId, handlers: set<ConnId>, closers: multiset<(ConnId, Str)>)
    requires ReplacesConn(b, t, c) && ConnOk(t.conns[c], b.maxSessions)
    requires AgentsOk(b) && ConnsOk(b) && HandlersOk(b, handlers) && ClosersOk(b, closers)
    ensures AgentsOk(t) && ConnsOk(t) && HandlersOk(t, handlers) && ClosersOk(t, closers)
  {
    AgentsKept(b, t, c);
    ConnsKept(b, t, c);
    HandlersKept(b, t, c, handlers);
    ClosersKept(b, t, c, closers);
  }

  lemma RoutesKept(b: Broker, t: Broker, c: ConnId)
    requires ReplacesConn(b, t, c) && RoutesOk(b)
    requires forall ch :: ch in t.routes ==> ch in b.routes && t.routes[ch] == b.routes[ch]
    requires forall ch :: ch in t.routes && ch in b.conns[c].adapters ==> ch in t.conns[c].adapters
    ensures RoutesOk(t)
  {
    forall ch | ch in t.routes ensures RouteOk(t, ch) {
      assert RouteOk(b, ch);
    }
  }

  lemma WriteFrameKeepsInv(s: System, c: ConnId, f: Frame)
    requires Inv(s) && c in s.broker.conns
    ensures Inv(s.(broker := WriteFrame(s.broker, c, f).0))
  {
    var t := WriteFrame(s.broker, c, f).0;
    if t != s.broker {
      assert ConnOk(s.broker.conns[c], s.broker.maxSessions);
      ReplaceConnKeeps(s.broker, t, c, s.handlers, s.closers);
      RoutesKept(s.broker, t, c);
    }
  }

  lemma SetStreamKeepsInv(s: System, c: ConnId, channel: Str, stream: Stream)
    requires Inv(s) && c in s.broker.conns && channel in s.broker.conns[c].streams
    ensures Inv(s.(broker := SetStream(s.broker, c, channel, stream)))
  {
    var t := SetStream(s.broker, c, channel, stream);
    assert ConnOk(s.broker.conns[c], s.broker.maxSessions);
    ReplaceConnKeeps(s.broker, t, c, s.handlers, s.closers);
    RoutesKept(s.broker, t, c);
  }

  lemma ErrorFrameKeepsInv(s: System, c: ConnId, requestId: Str)
    requires Inv(s) && c in s.broker.conns
    ensures Inv(s.(broker := WriteErrorFrame(s.broker, c, requestId)))
  {
    var t := WriteErrorFrame(s.broker, c, requestId);
    if t != s.broker {
      assert ConnOk(s.broker.conns[c], s.broker.maxSessions);
      ReplaceConnKeeps(s.broker, t, c, s.handlers, s.closers);
      RoutesKept(s.broker, t, c);
    }
  }

  lemma AdmitAgents(b: Broker, agent: AgentId, c: ConnId)
    requires AgentsOk(b) && c !in b.conns
    ensures AgentsOk(Admit(b, agent, c))
  {
    var t := Admit(b, agent, c);
    forall a | a in t.connections ensures AgentOk(t, a) {
      if a != agent { assert AgentOk(b, a); }
    }
  }

  lemma AdmitRoutes(b: Broker, agent: AgentId, c: ConnId)
    requires RoutesOk(b) && c !in b.conns && agent !in b.connections
    ensures RoutesOk(Admit(b, agent, c))
  {
    var t := Admit(b, agent, c);
    forall ch | ch in t.routes ensures RouteOk(t, ch) {
      assert RouteOk(b, ch);
    }
  }

  lemma AdmitConns(b: Broker, t: Broker, agent: AgentId, c: ConnId)
    requires ConnsOk(b) && c !in b.conns && b.maxSessions > 0
    requires t == Admit(b, agent, c)
    ensures ConnsOk(t)
  {
    forall d | d in t.conns ensures ConnOk(t.conns[d], t.maxSessions) {
      if d != c { assert ConnOk(b.conns[d], b.maxSessions); }
    }
  }

  lemma AdmitHandlers(s: System, t: Broker, agent: AgentId, c: ConnId)
    requires Inv(s) && c !in s.broker.conns && agent !in s.broker.connections
    requires t == Admit(s.broker, agent, c)
    ensures HandlersOk(t, s.handlers + {c}) && ClosersOk(t, s.closers)
  {
    forall d ensures d in s.handlers + {c} <==> Live(t, d) {
      assert d in s.handlers <==> Live(s.broker, d);
    }
    forall p | p in s.closers ensures CloserOk(t, p) {
      assert CloserOk(s.broker, p);
    }
  }

  lemma AdmitKeepsInv(s: System, agent: AgentId, c: ConnId)
    requires Inv(s) && c !in s.broker.conns && agent !in s.broker.connections && s.broker.maxSessions > 0
    ensures Inv(System(Admit(s.broker, agent, c), s.handlers + {c}, s.closers))
  {
    var t := Admit(s.broker, agent, c);
    AdmitAgents(s.broker, agent, c);
    AdmitRoutes(s.broker, agent, c);
    AdmitConns(s.broker, t, agent, c);
    AdmitHandlers(s, t, agent, c);
  }

  lemma FreshConnUnused(b: Broker, agent: AgentId, c: ConnId)
    requires AgentsOk(b) && c !in b.conns
    ensures !(agent in b.connections && b.connections[agent] == c)
  {
    if agent in b.connections { assert AgentOk(b, agent); }
  }

  lemma RegisterKeepsInv(s: System, agent: AgentId, c: ConnId, requestId: Str)
    requires Inv(s) && c !in s.broker.conns
    ensures Inv(Next(s, SRegister(agent, c, requestId)).0)
  {
    var b := s.broker;
    assert !Live(b, c);
    if b.maxSessions > 0 && !(agent in b.active && b.active[agent] != c) {
      FreshConnUnused(b, agent, c);
      AdmitKeepsInv(s, agent, c);
      WriteFrameKeepsInv(System(Admit(b, agent, c), s.handlers + {c}, s.closers), c,
                         Frame(AuthOk, requestId, None, []));
    }
  }

  lemma AttachedConnOk(b: Broker, agent: AgentId, c: ConnId, channel: Str)
    requires c in b.conns && ConnOk(b.conns[c], b.maxSessions)
    requires RefuseOpen(b.conns[c], channel, b.maxSessions).None?
    ensures ConnOk(Attach(b, agent, c, channel).conns[c], b.maxSessions)
  {
  }

  lemma AttachRoutes(b: Broker, agent: AgentId, c: ConnId, channel: Str)
    requires RoutesOk(b) && agent in b.connections && c == b.connections[agent] && c in b.conns
    ensures RoutesOk(Attach(b, agent, c, channel))
  {
    var t := Attach(b, agent, c, channel);
    forall ch | ch in t.routes ensures RouteOk(t, ch) {
      if ch != channel { assert RouteOk(b, ch); }
    }
  }

  lemma AttachKeepsInv(s: System, agent: AgentId, c: ConnId, channel: Str)
    requires Inv(s) && agent in s.broker.connections && c == s.broker.connections[agent] && c in s.broker.conns
    requires RefuseOpen(s.broker.conns[c], channel, s.broker.maxSessions).None?
    ensures Inv(s.(broker := Attach(s.broker, agent, c, channel)))
  {
    var b, t := s.broker, Attach(s.broker, agent, c, channel);
    AttachedConnOk(b, agent, c, channel);
    ReplaceConnKeeps(b, t, c, s.handlers, s.closers);
    AttachRoutes(b, agent, c, channel);
  }

  lemma AttachAndWriteKeepsInv(s: System, agent: AgentId, channel: Str, f: Frame)
    requires Inv(s) && agent in s.broker.connections && s.broker.connections[agent] in s.broker.conns
    requires RefuseOpen(s.broker.conns[s.broker.connections[agent]], channel, s.broker.maxSessions).None?
    ensures var c := s.broker.connections[agent];
            Inv(s.(broker := WriteFrame(Attach(s.broker, agent, c, channel), c, f).0))
  {
    var c := s.broker.connections[agent];
    AttachKeepsInv(s, agent, c, channel);
    WriteFrameKeepsInv(s.(broker := Attach(s.broker, agent, c, channel)), c, f);
  }

  lemma OpenKeepsInv(s: System, agent: AgentId, channel: Str, f: Frame, checks: OpenChecks)
    requires Inv(s)
    ensures Inv(s.(broker := OpenOnAgent(s.broker, agent, channel, f, checks).0))
  {
    if OpenRefusal(s.broker, agent, channel, checks).None? {
      assert AgentOk(s.broker, agent);
      AttachAndWriteKeepsInv(s, agent, channel, f);
    }
  }

  lemma SendKeepsInv(s: System, kind: FrameType, channel: Str, requestId: Str, payload: Bytes)
    requires Inv(s)
    ensures Inv(s.(broker := SendOnChannel(s.broker, kind, channel, requestId, payload).0))
  {
    match ChannelConnection(s.broker, channel)
    case Err(_) =>
    case Ok(c) => WriteFrameKeepsInv(s, c, Frame(kind, requestId, Some(channel), payload));
  }

  lemma BeginCloseKeepsInv(s: System, channel: Str, requestId: Str)
    requires Inv(s)
    ensures Inv(BeginClose(s, channel, requestId).0)
  {
    SendKeepsInv(s, CloseSession, channel, requestId, []);
    match ChannelConnection(s.broker, channel)
    case Err(_) =>
    case Ok(c) =>
      assert ConnOk(s.broker.conns[c], s.broker.maxSessions);
      var t := BeginClose(s, channel, requestId).0;
      forall p | p in t.closers ensures CloserOk(t.broker, p) {
        assert p in s.closers ==> CloserOk(s.broker, p);
      }
  }

  /** Retiring is safe on any connection object, even one dropped and replaced while the caller was suspended. */
  lemma RetireKeepsInv(s: System, c: ConnId, channel: Str)
    requires Inv(s) && c in s.broker.conns
    ensures Inv(s.(broker := Retire(s.broker, c, channel).0))
  {
    var b, t := s.broker, Retire(s.broker, c, channel).0;
    assert ConnOk(b.conns[c], b.maxSessions);
    if channel in b.conns[c].open {
      RetiredConnOk(b.conns[c], t.conns[c], channel, b.maxSessions);
      ReplaceConnKeeps(b, t, c, s.handlers, s.closers);
      RoutesKept(b, t, c);
    }
  }

  lemma RetiredConnOk(conn: Conn, after: Conn, channel: Str, maxSessions: int)
    requires ConnOk(conn, maxSessions) && channel in conn.open
    requires after == conn.(open := conn.open - {channel}, retired := conn.retired + {channel},
                            adapters := conn.adapters - {channel})
    ensures ConnOk(after, maxSessions)
  {
  }

  lemma AgentFrameChannel(b: Broker, c: ConnId, f: Frame)
    requires c in b.conns && AgentFrame(b, c, f).0 != b
    ensures f.channelId.Some? && f.channelId.value in b.conns[c].streams
    ensures var ch := f.channelId.value; var stream := b.conns[c].streams[ch];
            AgentFrame(b, c, f).0 == if f.kind == SessionData
              then SetStream(b, c, ch, stream.(buffer := stream.buffer + f.payload))
              else Retire(SetStream(b, c, ch, stream.(closed := true)), c, ch).0
  {
  }

  lemma FeedKeepsInv(s: System, c: ConnId, f: Frame, channel: Str)
    requires Inv(s) && c in s.broker.conns && f.kind in {SessionData, CloseSession} && f.channelId == Some(channel)
    requires channel in s.broker.conns[c].open && channel in s.broker.conns[c].streams
    ensures Inv(s.(broker := AgentFrame(s.broker, c, f).0))
  {
    var stream := s.broker.conns[c].streams[channel];
    if f.kind == SessionData {
      SetStreamKeepsInv(s, c, channel, stream.(buffer := stream.buffer + f.payload));
    } else {
      var t := s.(broker := SetStream(s.broker, c, channel, stream.(closed := true)));
      SetStreamKeepsInv(s, c, channel, stream.(closed := true));
      RetireKeepsInv(t, c, channel);
    }
  }

  lemma AgentFrameKeepsInv(s: System, c: ConnId, f: Frame)
    requires Inv(s) && c in s.broker.conns
    ensures Inv(s.(broker := AgentFrame(s.broker, c, f).0))
  {
    assert ConnOk(s.broker.conns[c], s.broker.maxSessions);
    if f.kind in {SessionData, CloseSession} && f.channelId.Some? && f.channelId.value in s.broker.conns[c].open {
      FeedKeepsInv(s, c, f, f.channelId.value);
    }
  }

  lemma DropHandlers(b: Broker, handlers: set<ConnId>, agent: AgentId, c: ConnId)
    requires HandlersOk(b, handlers) && Live(b, c) && b.conns[c].agent == agent
    ensures HandlersOk(DropOwned(b, agent, c), handlers - {c})
  {
    var t := DropOwned(b, agent, c);
    forall d ensures d in handlers - {c} <==> Live(t, d) {
      assert d in handlers <==> Live(b, d);
    }
  }

  lemma DropClosers(b: Broker, closers: multiset<(ConnId, Str)>, agent: AgentId, c: ConnId)
    requires ClosersOk(b, closers) && c in b.conns
    ensures ClosersOk(DropOwned(b, agent, c), closers)
  {
    forall p | p in closers ensures CloserOk(DropOwned(b, agent, c), p) {
      assert CloserOk(b, p);
    }
  }

  lemma DropKeepsInv(s: System, agent: AgentId, c: ConnId)
    requires Inv(s) && Enabled(s, SDrop(agent, c))
    ensures Inv(Next(s, SDrop(agent, c)).0)
  {
    if c in s.broker.conns {
      assert Live(s.broker, c);
      DropIsDropOwned(s.broker, agent, c);
      DropAgents(s.broker, agent, c);
      DropRoutes(s.broker, agent, c);
      DropConns(s.broker, agent, c);
      DropHandlers(s.broker, s.handlers, agent, c);
      DropClosers(s.broker, s.closers, agent, c);
    } else {
      assert !Live(s.broker, c);
      if agent in s.broker.connections { assert AgentOk(s.broker, agent); }
      NonOwnerDrop(s.broker, agent, c);
    }
  }

  /** What `_drop_connection` amounts to when the handler owns the agent's slot in both tables. */
  function DropOwned(b: Broker, agent: AgentId, c: ConnId): Broker
    requires c in b.conns
  {
    b.(active := b.active - {agent}, connections := b.connections - {agent},
       routes := b.routes - b.conns[c].adapters, conns := b.conns[c := EndStreams(b.conns[c])])
  }

  lemma DropIsDropOwned(b: Broker, agent: AgentId, c: ConnId)
    requires b.active == b.connections && agent in b.connections && b.connections[agent] == c && c in b.conns
    ensures Drop(b, agent, c) == DropOwned(b, agent, c)
  {
  }

  lemma DropAgents(b: Broker, agent: AgentId, c: ConnId)
    requires AgentsOk(b) && c in b.conns
    ensures AgentsOk(DropOwned(b, agent, c))
  {
    var t := DropOwned(b, agent, c);
    forall a | a in t.connections ensures AgentOk(t, a) {
      assert AgentOk(b, a);
    }
  }

  lemma DropRoutes(b: Broker, agent: AgentId, c: ConnId)
    requires AgentsOk(b) && RoutesOk(b) && agent in b.connections && b.connections[agent] == c && c in b.conns
    ensures RoutesOk(DropOwned(b, agent, c))
  {
    var t := DropOwned(b, agent, c);
    forall ch | ch in t.routes ensures RouteOk(t, ch) {
      assert RouteOk(b, ch) && AgentOk(b, b.routes[ch]);
    }
  }

  lemma DropConns(b: Broker, agent: AgentId, c: ConnId)
    requires ConnsOk(b) && c in b.conns
    ensures ConnsOk(DropOwned(b, agent, c))
  {
    var t := DropOwned(b, agent, c);
    forall d | d in t.conns ensures ConnOk(t.conns[d], t.maxSessions) {
      assert ConnOk(b.conns[d], b.maxSessions);
      assert EndStreams(b.conns[c]).streams.Keys == b.conns[c].streams.Keys;
    }
  }

  /** `_drop_connection` by a handler that does not own the agent's slot changes nothing at all. */
  lemma NonOwnerDrop(b: Broker, agent: AgentId, c: ConnId)
    requires TablesAgree(b) && !(agent in b.connections && b.connections[agent] == c)
    ensures (agent in b.connections ==> b.connections[agent] in b.conns) && Drop(b, agent, c) == b
  {
    if agent in b.connections {
      assert AgentOk(b, agent);
    }
  }

  /** `BrokerTunnelStream.close` on the broker's tables: the mark, and then what `close_session` does. */
  lemma CloseStreamShape(s: System, c: ConnId, channel: Str, requestId: Str)
    requires Inv(s) && c in s.broker.conns && channel in s.broker.conns[c].streams
    ensures var stream := s.broker.conns[c].streams[channel];
            var m := SetStream(s.broker, c, channel, stream.(closed := true));
            AgentsOk(m) && CloseStream(s, c, channel, requestId).0.broker
              == if stream.closed then s.broker else SendOnChannel(m, CloseSession, channel, requestId, []).0
  {
    SetStreamKeepsInv(s, c, channel, s.broker.conns[c].streams[channel].(closed := true));
  }

  lemma StepKeepsInv(s: System, step: Step)
    requires Inv(s) && Enabled(s, step)
    ensures Inv(Next(s, step).0)
  {
    match step
    case SRegister(agent, c, requestId) => RegisterKeepsInv(s, agent, c, requestId);
    case SOpen(agent, ch, requestId, payload, checks) =>
      OpenKeepsInv(s, agent, ch, OpenFrame(ch, requestId, payload), checks);
    case SData(ch, requestId, payload) => SendKeepsInv(s, SessionData, ch, requestId, payload);
    case SResize(ch, requestId, payload) => SendKeepsInv(s, ResizePty, ch, requestId, payload);
    case SCloseBegin(ch, requestId) => BeginCloseKeepsInv(s, ch, requestId);
    case SStreamClose(c, ch, requestId) =>
      var stream := s.broker.conns[c].streams[ch];
      SetStreamKeepsInv(s, c, ch, stream.(closed := true));
      BeginCloseKeepsInv(s.(broker := SetStream(s.broker, c, ch, stream.(closed := true))), ch, requestId);
    case SCloseEnd(c, ch) =>
      assert CloserOk(s.broker, (c, ch));
      RetireKeepsInv(s, c, ch);
    case SCloseAbort(c, ch) =>
    case SAgentFrame(c, f) =>
      assert Live(s.broker, c);
      AgentFrameKeepsInv(s, c, f);
    case SErrorFrame(c, requestId) =>
      assert Live(s.broker, c);
      ErrorFrameKeepsInv(s, c, requestId);
    case SDrop(agent, c) => DropKeepsInv(s, agent, c);
    case SRead(c, ch, n) => SetStreamKeepsInv(s, c, ch, ReadStream(s.broker.conns[c].streams[ch], n).1);
  }

  // ---------------------------------------------------------------- runs

  /** A run of enabled steps from `s`. */
  ghost predicate IsRun(s: System, steps: seq<Step>)
    requires Inv(s)
    decreases |steps|
  {
    steps == [] || (Enabled(s, steps[0]) && (StepKeepsInv(s, steps[0]); IsRun(Next(s, steps[0]).0, steps[1..])))
  }

  ghost function After(s: System, steps: seq<Step>): (t: System)
    requires Inv(s) && IsRun(s, steps)
    ensures Inv(t)
    decreases |steps|
  {
    if steps == [] then s else (StepKeepsInv(s, steps[0]); After(Next(s, steps[0]).0, steps[1..]))
  }

  lemma SendFound(b: Broker, kind: FrameType, channel: Str, requestId: Str, payload: Bytes)
    requires AgentsOk(b) && RoutesOk(b)
    ensures SendOnChannel(b, kind, channel, requestId, payload).1 != Raised(LookupFailed)
  {
    if channel in b.routes { assert RouteOk(b, channel); }
  }

  lemma AdapterFound(b: Broker, c: ConnId, f: Frame)
    requires c in b.conns && ConnOk(b.conns[c], b.maxSessions)
    ensures AgentFrame(b, c, f).1 != Raised(LookupFailed)
  {
  }

  lemma AgentFrameFound(s: System, c: ConnId, f: Frame)
    requires Inv(s) && c in s.handlers
    ensures c in s.broker.conns && AgentFrame(s.broker, c, f).1 != Raised(LookupFailed)
  {
    assert Live(s.broker, c);
    AdapterFound(s.broker, c, f);
  }

  lemma OpenFound(b: Broker, agent: AgentId, channel: Str, f: Frame, checks: OpenChecks)
    requires AgentsOk(b)
    ensures OpenOnAgent(b, agent, channel, f, checks).1 != Raised(LookupFailed)
  {
  }

  lemma CloseStreamFound(s: System, c: ConnId, channel: Str, requestId: Str)
    requires Inv(s) && c in s.broker.conns && channel in s.broker.conns[c].streams
    ensures CloseStream(s, c, channel, requestId).1 != Raised(LookupFailed)
  {
    var t := SetStream(s.broker, c, channel, s.broker.conns[c].streams[channel].(closed := true));
    SetStreamKeepsInv(s, c, channel, s.broker.conns[c].streams[channel].(closed := true));
    SendFound(t, CloseSession, channel, requestId, []);
  }

  /** No dictionary lookup in the broker ever fails, whatever falls between the two halves of `close_session`. */
  lemma LookupsNeverFail(s: System, step: Step)
    requires Inv(s) && Enabled(s, step)
    ensures Next(s, step).1 != Raised(LookupFailed)
  {
    match step
    case SRegister(agent, c, requestId) =>
    case SOpen(agent, ch, requestId, payload, checks) =>
      OpenFound(s.broker, agent, ch, OpenFrame(ch, requestId, payload), checks);
    case SData(ch, requestId, payload) => SendFound(s.broker, SessionData, ch, requestId, payload);
    case SResize(ch, requestId, payload) => SendFound(s.broker, ResizePty, ch, requestId, payload);
    case SCloseBegin(ch, requestId) => SendFound(s.broker, CloseSession, ch, requestId, []);
    case SStreamClose(c, ch, requestId) => CloseStreamFound(s, c, ch, requestId);
    case SAgentFrame(c, f) => AgentFrameFound(s, c, f);
    case _ =>
  }
}
