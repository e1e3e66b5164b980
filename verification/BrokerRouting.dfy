/**
 Routing when channel ids are globally fresh, as the UUIDs of `start_jump` are: the routing table is exactly the
 inverse of the live connections' adapter maps, and agents cannot reach one another's channels.
 */
module BrokerRouting {
  import opened Wrappers
  import opened Text
  import opened FrameCodec
  import opened BrokerSpec
  import opened BrokerSystem

  /** The freshness assumption: a new session's channel id has never been used on any connection, live or dropped. */
  ghost predicate FreshStep(s: System, step: Step) {
    step.SOpen? ==> forall c :: c in s.broker.conns ==> step.channel !in s.broker.conns[c].streams
  }

  ghost predicate Routed(b: Broker, c: ConnId, ch: Str)
    requires c in b.conns
  {
    ch in b.routes && b.routes[ch] == b.conns[c].agent
  }

  ghost predicate AllRouted(b: Broker) {
    forall c, ch :: Live(b, c) && ch in b.conns[c].adapters ==> Routed(b, c, ch)
  }

  /** No channel id was ever used on two connections. */
  ghost predicate ChannelsApart(b: Broker) {
    forall c, d, ch :: c in b.conns && d in b.conns && ch in b.conns[c].streams && ch in b.conns[d].streams ==> c == d
  }

  ghost predicate RoutingInv(s: System) {
    Inv(s) && AllRouted(s.broker) && ChannelsApart(s.broker)
  }

  // ---------------------------------------------------------------- every step keeps it

  /** `t` differs from `b` in one connection object at most, which gains no channel; routes go only with adapters. */
  ghost predicate ShrinksAt(b: Broker, t: Broker, c: ConnId) {
    && ReplacesConn(b, t, c)
    && t.conns[c].streams.Keys == b.conns[c].streams.Keys
    && t.conns[c].adapters <= b.conns[c].adapters
    && (forall ch :: ch in b.routes && ch !in b.conns[c].streams ==> ch in t.routes && t.routes[ch] == b.routes[ch])
    && (forall ch :: ch in b.routes && ch in t.conns[c].adapters ==> ch in t.routes && t.routes[ch] == b.routes[ch])
  }

  lemma AdaptersHaveStreams(b: Broker, c: ConnId)
    requires ConnsOk(b) && c in b.conns
    ensures b.conns[c].adapters == b.conns[c].open && b.conns[c].adapters <= b.conns[c].streams.Keys
  {
    assert ConnOk(b.conns[c], b.maxSessions);
  }

  lemma ShrinkKeepsRouting(b: Broker, t: Broker, c: ConnId)
    requires ShrinksAt(b, t, c) && AllRouted(b) && ChannelsApart(b) && ConnsOk(b)
    ensures AllRouted(t) && ChannelsApart(t)
  {
    forall d, ch | Live(t, d) && ch in t.conns[d].adapters ensures Routed(t, d, ch) {
      assert Live(b, d) && ch in b.conns[d].adapters;
      assert Routed(b, d, ch);
      if d != c {
        AdaptersHaveStreams(b, d);
        assert ch !in b.conns[c].streams;
      }
    }
  }

  lemma WriteKeepsRouting(b: Broker, c: ConnId, f: Frame)
    requires c in b.conns && AllRouted(b) && ChannelsApart(b) && ConnsOk(b)
    ensures var t := WriteFrame(b, c, f).0; AllRouted(t) && ChannelsApart(t)
  {
    if WriteFrame(b, c, f).0 != b {
      ShrinkKeepsRouting(b, WriteFrame(b, c, f).0, c);
    }
  }

  lemma RetireKeepsRouting(b: Broker, c: ConnId, channel: Str)
    requires c in b.conns && AllRouted(b) && ChannelsApart(b) && ConnsOk(b)
    ensures var t := Retire(b, c, channel).0; AllRouted(t) && ChannelsApart(t)
  {
    if channel in b.conns[c].open {
      AdaptersHaveStreams(b, c);
      RetireShrinks(b, c, channel);
      ShrinkKeepsRouting(b, Retire(b, c, channel).0, c);
    }
  }

  lemma RetireShrinks(b: Broker, c: ConnId, channel: Str)
    requires c in b.conns && channel in b.conns[c].open && b.conns[c].open <= b.conns[c].streams.Keys
    ensures ShrinksAt(b, Retire(b, c, channel).0, c)
  {
  }

  lemma SetStreamKeepsRouting(b: Broker, c: ConnId, channel: Str, stream: Stream)
    requires c in b.conns && channel in b.conns[c].streams && AllRouted(b) && ChannelsApart(b) && ConnsOk(b)
    ensures var t := SetStream(b, c, channel, stream); AllRouted(t) && ChannelsApart(t)
  {
    ShrinkKeepsRouting(b, SetStream(b, c, channel, stream), c);
  }

  lemma AttachKeepsRouted(b: Broker, agent: AgentId, c: ConnId, channel: Str)
    requires agent in b.connections && c == b.connections[agent] && c in b.conns && b.conns[c].agent == agent
    requires AllRouted(b) && ConnsOk(b)
    requires forall d :: d in b.conns ==> channel !in b.conns[d].streams
    ensures AllRouted(Attach(b, agent, c, channel))
  {
    var t := Attach(b, agent, c, channel);
    forall d, ch | Live(t, d) && ch in t.conns[d].adapters ensures Routed(t, d, ch) {
      assert Live(b, d);
      if ch in b.conns[d].adapters {
        assert Routed(b, d, ch);
        AdaptersHaveStreams(b, d);
      }
    }
  }

  lemma AttachKeepsApart(b: Broker, agent: AgentId, c: ConnId, channel: Str)
    requires c in b.conns && ChannelsApart(b)
    requires forall d :: d in b.conns ==> channel !in b.conns[d].streams
    ensures ChannelsApart(Attach(b, agent, c, channel))
  {
  }

  lemma AdmitKeepsRouting(b: Broker, agent: AgentId, c: ConnId)
    requires c !in b.conns && agent !in b.connections && AllRouted(b) && ChannelsApart(b)
    ensures AllRouted(Admit(b, agent, c)) && ChannelsApart(Admit(b, agent, c))
  {
    var t := Admit(b, agent, c);
    forall d, ch | Live(t, d) && ch in t.conns[d].adapters ensures Routed(t, d, ch) {
      assert Live(b, d);
      assert Routed(b, d, ch);
    }
  }

  lemma DropKeepsRouted(b: Broker, agent: AgentId, c: ConnId)
    requires Live(b, c) && agent == b.conns[c].agent && AllRouted(b) && ChannelsApart(b) && ConnsOk(b)
    ensures AllRouted(DropOwned(b, agent, c))
  {
    var t := DropOwned(b, agent, c);
    forall d, ch | Live(t, d) && ch in t.conns[d].adapters ensures Routed(t, d, ch) {
      assert d != c && Live(b, d);
      assert Routed(b, d, ch);
      AdaptersHaveStreams(b, d);
      AdaptersHaveStreams(b, c);
      assert ch !in b.conns[c].adapters;
    }
  }

  lemma DropKeepsApart(b: Broker, agent: AgentId, c: ConnId)
    requires c in b.conns && ChannelsApart(b)
    ensures ChannelsApart(DropOwned(b, agent, c))
  {
    assert EndStreams(b.conns[c]).streams.Keys == b.conns[c].streams.Keys;
  }

  lemma OpenKeepsRouting(b: Broker, agent: AgentId, channel: Str, f: Frame, checks: OpenChecks)
    requires TablesAgree(b) && AllRouted(b) && ChannelsApart(b)
    requires forall d :: d in b.conns ==> channel !in b.conns[d].streams
    ensures var t := OpenOnAgent(b, agent, channel, f, checks).0; AllRouted(t) && ChannelsApart(t)
  {
    if OpenRefusal(b, agent, channel, checks).None? {
      assert AgentOk(b, agent);
      var c := b.connections[agent];
      AdaptersHaveStreams(b, c);
      AttachKeepsRouted(b, agent, c, channel);
      AttachKeepsApart(b, agent, c, channel);
      AttachedConns(b, agent, c, channel);
      WriteKeepsRouting(Attach(b, agent, c, channel), c, f);
    }
  }

  lemma AttachedConns(b: Broker, agent: AgentId, c: ConnId, channel: Str)
    requires ConnsOk(b) && c in b.conns && RefuseOpen(b.conns[c], channel, b.maxSessions).None?
    ensures ConnsOk(Attach(b, agent, c, channel))
  {
    var t := Attach(b, agent, c, channel);
    AttachedConnOk(b, agent, c, channel);
    ConnsKept(b, t, c);
  }

  lemma SendKeepsRouting(b: Broker, kind: FrameType, channel: Str, requestId: Str, payload: Bytes)
    requires TablesAgree(b) && AllRouted(b) && ChannelsApart(b)
    ensures var t := SendOnChannel(b, kind, channel, requestId, payload).0; AllRouted(t) && ChannelsApart(t)
  {
    match ChannelConnection(b, channel)
    case Err(_) =>
    case Ok(c) => WriteKeepsRouting(b, c, Frame(kind, requestId, Some(channel), payload));
  }

  lemma BeginCloseKeepsRouting(s: System, channel: Str, requestId: Str)
    requires RoutingInv(s)
    ensures var t := BeginClose(s, channel, requestId).0.broker; AllRouted(t) && ChannelsApart(t)
  {
    SendKeepsRouting(s.broker, CloseSession, channel, requestId, []);
  }

  lemma CloseStreamKeepsRouting(s: System, c: ConnId, channel: Str, requestId: Str)
    requires RoutingInv(s) && c in s.broker.conns && channel in s.broker.conns[c].streams
    ensures var t := CloseStream(s, c, channel, requestId).0.broker; AllRouted(t) && ChannelsApart(t)
  {
    var stream := s.broker.conns[c].streams[channel].(closed := true);
    SetStreamKeepsInv(s, c, channel, stream);
    SetStreamKeepsRouting(s.broker, c, channel, stream);
    BeginCloseKeepsRouting(s.(broker := SetStream(s.broker, c, channel, stream)), channel, requestId);
  }

  lemma EofKeepsRouting(s: System, c: ConnId, channel: Str, stream: Stream)
    requires RoutingInv(s) && c in s.broker.conns && channel in s.broker.conns[c].streams
    ensures var t := Retire(SetStream(s.broker, c, channel, stream), c, channel).0; AllRouted(t) && ChannelsApart(t)
  {
    SetStreamKeepsRouting(s.broker, c, channel, stream);
    SetStreamKeepsInv(s, c, channel, stream);
    RetireKeepsRouting(SetStream(s.broker, c, channel, stream), c, channel);
  }

  lemma AgentFrameKeepsRouting(s: System, c: ConnId, f: Frame)
    requires RoutingInv(s) && c in s.broker.conns
    ensures var t := AgentFrame(s.broker, c, f).0; AllRouted(t) && ChannelsApart(t)
  {
    if AgentFrame(s.broker, c, f).0 != s.broker {
      AgentFrameChannel(s.broker, c, f);
      var ch := f.channelId.value;
      var stream := s.broker.conns[c].streams[ch];
      SetStreamKeepsRouting(s.broker, c, ch, stream.(buffer := stream.buffer + f.payload));
      EofKeepsRouting(s, c, ch, stream.(closed := true));
    }
  }

  lemma RegisterKeepsRouting(s: System, agent: AgentId, c: ConnId, requestId: Str)
    requires RoutingInv(s) && c !in s.broker.conns
    ensures var t := Register(s.broker, agent, c, requestId).0; AllRouted(t) && ChannelsApart(t)
  {
    var b := s.broker;
    FreshConnUnused(b, agent, c);
    if b.maxSessions > 0 && !(agent in b.active && b.active[agent] != c) {
      AdmitKeepsRouting(b, agent, c);
      AdmitKeepsInv(s, agent, c);
      WriteKeepsRouting(Admit(b, agent, c), c, Frame(AuthOk, requestId, None, []));
    }
  }

  lemma StepKeepsRouting(s: System, step: Step)
    requires RoutingInv(s) && Enabled(s, step) && FreshStep(s, step)
    ensures RoutingInv(Next(s, step).0)
  {
    StepKeepsInv(s, step);
    match step
    case SRegister(agent, c, requestId) => RegisterKeepsRouting(s, agent, c, requestId);
    case SOpen(agent, ch, requestId, payload, checks) =>
      OpenKeepsRouting(s.broker, agent, ch, OpenFrame(ch, requestId, payload), checks);
    case SData(ch, requestId, payload) => SendKeepsRouting(s.broker, SessionData, ch, requestId, payload);
    case SResize(ch, requestId, payload) => SendKeepsRouting(s.broker, ResizePty, ch, requestId, payload);
    case SCloseBegin(ch, requestId) => BeginCloseKeepsRouting(s, ch, requestId);
    case SStreamClose(c, ch, requestId) => CloseStreamKeepsRouting(s, c, ch, requestId);
    case SCloseEnd(c, ch) =>
      assert CloserOk(s.broker, (c, ch));
      RetireKeepsRouting(s.broker, c, ch);
    case SCloseAbort(c, ch) =>
    case SAgentFrame(c, f) =>
      assert Live(s.broker, c);
      AgentFrameKeepsRouting(s, c, f);
    case SErrorFrame(c, requestId) => ErrorFrameKeepsRouting(s, c, requestId);
    case SDrop(agent, c) => DropStepKeepsRouting(s, agent, c);
    case SRead(c, ch, n) =>
      SetStreamKeepsRouting(s.broker, c, ch, ReadStream(s.broker.conns[c].streams[ch], n).1);
  }

  lemma ErrorFrameKeepsRouting(s: System, c: ConnId, requestId: Str)
    requires RoutingInv(s) && c in s.handlers
    ensures c in s.broker.conns
    ensures var t := WriteErrorFrame(s.broker, c, requestId); AllRouted(t) && ChannelsApart(t)
  {
    assert Live(s.broker, c);
    if WriteErrorFrame(s.broker, c, requestId) != s.broker {
      ShrinkKeepsRouting(s.broker, WriteErrorFrame(s.broker, c, requestId), c);
    }
  }

  lemma DropStepKeepsRouting(s: System, agent: AgentId, c: ConnId)
    requires RoutingInv(s) && Enabled(s, SDrop(agent, c))
    ensures agent in s.broker.connections ==> s.broker.connections[agent] in s.broker.conns
    ensures var t := Drop(s.broker, agent, c); AllRouted(t) && ChannelsApart(t)
  {
    if agent in s.broker.connections { assert AgentOk(s.broker, agent); }
    if c in s.broker.conns {
      assert Live(s.broker, c);
      DropIsDropOwned(s.broker, agent, c);
      DropKeepsRouted(s.broker, agent, c);
      DropKeepsApart(s.broker, agent, c);
    } else {
      FreshConnUnused(s.broker, agent, c);
      NonOwnerDrop(s.broker, agent, c);
    }
  }

  // ---------------------------------------------------------------- exact routing

  /** A channel is routed to an agent exactly when the agent's live connection holds its adapter. */
  lemma RoutesAreInverse(s: System, ch: Str, a: AgentId)
    requires RoutingInv(s)
    ensures ch in s.broker.routes && s.broker.routes[ch] == a <==>
            a in s.broker.connections && s.broker.connections[a] in s.broker.conns
            && ch in s.broker.conns[s.broker.connections[a]].adapters
  {
    var b := s.broker;
    if ch in b.routes { assert RouteOk(b, ch); }
    if a in b.connections {
      assert AgentOk(b, a);
      var c := b.connections[a];
      assert Live(b, c);
      if ch in b.conns[c].adapters { assert Routed(b, c, ch); }
    }
  }

  ghost function Pick(agents: set<AgentId>): (a: AgentId)
    requires agents != {}
    ensures a in agents
  {
    var a :| a in agents; a
  }

  ghost function OpenCount(b: Broker, a: AgentId): nat
    requires AgentsOk(b) && a in b.connections
  {
    assert AgentOk(b, a);
    |b.conns[b.connections[a]].open|
  }

  /** The open channels of some agents' live connections, added up. */
  ghost function OpenChannels(b: Broker, agents: set<AgentId>): nat
    requires AgentsOk(b) && agents <= b.connections.Keys
    decreases |agents|
  {
    if agents == {} then 0
    else
      OpenCount(b, Pick(agents)) + OpenChannels(b, agents - {Pick(agents)})
  }

  ghost function RoutesTo(b: Broker, agents: set<AgentId>): set<Str> {
    set ch | ch in b.routes && b.routes[ch] in agents
  }

  lemma RoutedOpen(s: System, ch: Str, a: AgentId)
    requires RoutingInv(s) && a in s.broker.connections && s.broker.connections[a] in s.broker.conns
    ensures ch in RoutesTo(s.broker, {a}) <==> ch in s.broker.conns[s.broker.connections[a]].open
  {
    AdaptersHaveStreams(s.broker, s.broker.connections[a]);
    RoutesAreInverse(s, ch, a);
  }

  lemma RoutesToOne(s: System, a: AgentId, c: ConnId)
    requires RoutingInv(s) && a in s.broker.connections && s.broker.connections[a] == c && c in s.broker.conns
    ensures RoutesTo(s.broker, {a}) == s.broker.conns[c].open
  {
    forall ch ensures ch in RoutesTo(s.broker, {a}) <==> ch in s.broker.conns[c].open {
      RoutedOpen(s, ch, a);
    }
  }

  lemma RoutesToSplit(b: Broker, agents: set<AgentId>, a: AgentId)
    requires a in agents
    ensures |RoutesTo(b, agents)| == |RoutesTo(b, {a})| + |RoutesTo(b, agents - {a})|
  {
    assert RoutesTo(b, agents) == RoutesTo(b, {a}) + RoutesTo(b, agents - {a});
    assert RoutesTo(b, {a}) !! RoutesTo(b, agents - {a});
  }

  lemma {:induction false} RouteCount(s: System, agents: set<AgentId>)
    requires RoutingInv(s) && agents <= s.broker.connections.Keys
    ensures |RoutesTo(s.broker, agents)| == OpenChannels(s.broker, agents)
    decreases |agents|
  {
    if agents == {} {
      assert RoutesTo(s.broker, {}) == {};
    } else {
      var a := Pick(agents);
      assert AgentOk(s.broker, a);
      RoutesToOne(s, a, s.broker.connections[a]);
      RoutesToSplit(s.broker, agents, a);
      RouteCount(s, agents - {a});
    }
  }

  lemma OneMore(n: nat, k: nat)
    ensures (n + 1) * k == n * k + k
  {
  }

  lemma OpenBound(b: Broker, a: AgentId)
    requires AgentsOk(b) && ConnsOk(b) && a in b.connections
    ensures OpenCount(b, a) <= Capacity(b)
  {
    assert AgentOk(b, a) && ConnOk(b.conns[b.connections[a]], b.maxSessions);
  }

  lemma {:induction false} OpenChannelsBound(b: Broker, agents: set<AgentId>, n: nat, cap: nat)
    requires AgentsOk(b) && agents <= b.connections.Keys && n == |agents|
    requires forall a :: a in agents ==> OpenCount(b, a) <= cap
    ensures OpenChannels(b, agents) <= n * cap
    decreases n
  {
    if agents != {} {
      var a := Pick(agents);
      OpenChannelsBound(b, agents - {a}, n - 1, cap);
      OneMore(n - 1, cap);
    }
  }

  function Capacity(b: Broker): nat {
    if b.maxSessions < 0 then 0 else b.maxSessions
  }

  /** The routing table has one entry per open channel, and so never outgrows `max_sessions` per live connection. */
  lemma RoutingTableSize(s: System)
    requires RoutingInv(s)
    ensures |s.broker.routes| == OpenChannels(s.broker, s.broker.connections.Keys)
    ensures |s.broker.routes| <= |s.broker.connections| * Capacity(s.broker)
  {
    var b := s.broker;
    RouteCount(s, b.connections.Keys);
    forall a | a in b.connections ensures OpenCount(b, a) <= Capacity(b) {
      OpenBound(b, a);
    }
    OpenChannelsBound(b, b.connections.Keys, |b.connections.Keys|, Capacity(b));
    assert RoutesTo(b, b.connections.Keys) == b.routes.Keys by {
      forall ch | ch in b.routes ensures b.routes[ch] in b.connections {
        assert RouteOk(b, ch);
      }
    }
  }

  // ---------------------------------------------------------------- runs

  /** Every session of the run gets a channel id that was never used before. */
  ghost predicate FreshRun(s: System, steps: seq<Step>)
    requires Inv(s) && IsRun(s, steps)
    decreases |steps|
  {
    steps == []
    || (FreshStep(s, steps[0]) && (StepKeepsInv(s, steps[0]); FreshRun(Next(s, steps[0]).0, steps[1..])))
  }

  lemma {:induction false} RoutingHolds(s: System, steps: seq<Step>)
    requires RoutingInv(s) && IsRun(s, steps) && FreshRun(s, steps)
    ensures RoutingInv(After(s, steps))
    decreases |steps|
  {
    if steps != [] {
      StepKeepsRouting(s, steps[0]);
      RoutingHolds(Next(s, steps[0]).0, steps[1..]);
    }
  }

  /** From an empty broker, after any run: routes are exactly the open channels of the agents that are connected. */
  lemma RoutesExactInEveryRun(maxSessions: int, maxFrameBytes: int, encodeError: (Frame, int) -> Option<ProtocolError>,
                              steps: seq<Step>, ch: Str, a: AgentId)
    requires var s := Initial(maxSessions, maxFrameBytes, encodeError); IsRun(s, steps) && FreshRun(s, steps)
    ensures var b := After(Initial(maxSessions, maxFrameBytes, encodeError), steps).broker;
            && (ch in b.routes && b.routes[ch] == a <==>
                  a in b.connections && b.connections[a] in b.conns && ch in b.conns[b.connections[a]].open)
            && |b.routes| <= |b.connections| * Capacity(b)
  {
    var s := Initial(maxSessions, maxFrameBytes, encodeError);
    RoutingHolds(s, steps);
    var t := After(s, steps);
    RoutesAreInverse(t, ch, a);
    RoutingTableSize(t);
    if a in t.broker.connections { assert AgentOk(t.broker, a) && ConnOk(t.broker.conns[t.broker.connections[a]], t.broker.maxSessions); }
  }

  // ---------------------------------------------------------------- isolation

  /** The agent on whose behalf a step runs, if it gets as far as any agent's tables. */
  ghost function StepAgent(s: System, step: Step): Option<AgentId>
    requires Enabled(s, step) && ClosersOk(s.broker, s.closers) && HandlersOk(s.broker, s.handlers)
  {
    match step
    case SRegister(agent, _, _) => Some(agent)
    case SOpen(agent, _, _, _, _) => Some(agent)
    case SData(ch, _, _) => if ch in s.broker.routes then Some(s.broker.routes[ch]) else None
    case SResize(ch, _, _) => if ch in s.broker.routes then Some(s.broker.routes[ch]) else None
    case SCloseBegin(ch, _) => if ch in s.broker.routes then Some(s.broker.routes[ch]) else None
    case SStreamClose(c, _, _) => Some(s.broker.conns[c].agent)
    case SCloseEnd(c, ch) => assert CloserOk(s.broker, (c, ch)); Some(s.broker.conns[c].agent)
    case SCloseAbort(_, _) => None
    case SAgentFrame(c, _) => assert Live(s.broker, c); Some(s.broker.conns[c].agent)
    case SErrorFrame(c, _) => assert Live(s.broker, c); Some(s.broker.conns[c].agent)
    case SDrop(agent, _) => Some(agent)
    case SRead(c, _, _) => Some(s.broker.conns[c].agent)
  }

  /** What the agents other than `agent` have: their connection objects, their slots and their routes. */
  ghost function OtherConns(b: Broker, agent: Option<AgentId>): map<ConnId, Conn> {
    map c | c in b.conns && Some(b.conns[c].agent) != agent :: b.conns[c]
  }

  ghost function OtherSlots(b: Broker, agent: Option<AgentId>): map<AgentId, ConnId> {
    map a | a in b.connections && Some(a) != agent :: b.connections[a]
  }

  ghost function OtherRoutes(b: Broker, agent: Option<AgentId>): map<Str, AgentId> {
    map ch | ch in b.routes && Some(b.routes[ch]) != agent :: b.routes[ch]
  }

  ghost predicate OthersUntouched(b: Broker, t: Broker, agent: Option<AgentId>) {
    && OtherConns(t, agent) == OtherConns(b, agent)
    && OtherSlots(t, agent) == OtherSlots(b, agent)
    && OtherRoutes(t, agent) == OtherRoutes(b, agent)
  }

  lemma ReplaceIsolated(b: Broker, c: ConnId, conn: Conn)
    requires c in b.conns && conn.agent == b.conns[c].agent
    ensures OthersUntouched(b, b.(conns := b.conns[c := conn]), Some(conn.agent))
  {
  }

  lemma UnrouteIsolated(b: Broker, c: ConnId, conn: Conn, channels: set<Str>)
    requires c in b.conns && conn.agent == b.conns[c].agent
    requires forall ch :: ch in channels && ch in b.routes ==> b.routes[ch] == conn.agent
    ensures OthersUntouched(b, b.(conns := b.conns[c := conn], routes := b.routes - channels), Some(conn.agent))
  {
  }

  lemma VacateIsolated(b: Broker, agent: AgentId)
    ensures OthersUntouched(b, b.(active := b.active - {agent}, connections := b.connections - {agent}), Some(agent))
  {
  }

  lemma WriteIsolated(b: Broker, c: ConnId, f: Frame)
    requires c in b.conns
    ensures OthersUntouched(b, WriteFrame(b, c, f).0, Some(b.conns[c].agent))
  {
    ReplaceIsolated(b, c, b.conns[c].(wire := b.conns[c].wire + [f]));
  }

  lemma SetStreamIsolated(b: Broker, c: ConnId, channel: Str, stream: Stream)
    requires c in b.conns
    ensures OthersUntouched(b, SetStream(b, c, channel, stream), Some(b.conns[c].agent))
  {
    ReplaceIsolated(b, c, b.conns[c].(streams := b.conns[c].streams[channel := stream]));
  }

  lemma SendIsolated(b: Broker, kind: FrameType, channel: Str, requestId: Str, payload: Bytes)
    requires AgentsOk(b)
    ensures OthersUntouched(b, SendOnChannel(b, kind, channel, requestId, payload).0,
                            if channel in b.routes then Some(b.routes[channel]) else None)
  {
    match ChannelConnection(b, channel)
    case Err(_) =>
    case Ok(c) =>
      assert AgentOk(b, b.routes[channel]);
      WriteIsolated(b, c, Frame(kind, requestId, Some(channel), payload));
  }

  lemma AttachIsolated(b: Broker, agent: AgentId, c: ConnId, channel: Str)
    requires c in b.conns && b.conns[c].agent == agent && channel !in b.routes
    ensures OthersUntouched(b, Attach(b, agent, c, channel), Some(agent))
  {
  }

  lemma OpenIsolated(b: Broker, agent: AgentId, channel: Str, f: Frame, checks: OpenChecks)
    requires TablesAgree(b) && channel !in b.routes
    ensures OthersUntouched(b, OpenOnAgent(b, agent, channel, f, checks).0, Some(agent))
  {
    if OpenRefusal(b, agent, channel, checks).None? {
      assert AgentOk(b, agent);
      var c := b.connections[agent];
      AttachIsolated(b, agent, c, channel);
      WriteIsolated(Attach(b, agent, c, channel), c, f);
    }
  }

  /** A channel that was never used has no route. */
  lemma FreshHasNoRoute(s: System, step: Step)
    requires Inv(s) && step.SOpen? && FreshStep(s, step)
    ensures step.channel !in s.broker.routes
  {
    if step.channel in s.broker.routes {
      assert RouteOk(s.broker, step.channel);
      AdaptersHaveStreams(s.broker, s.broker.connections[s.broker.routes[step.channel]]);
      assert false;
    }
  }

  /** A channel known to a connection can only be routed to that connection's own agent. */
  lemma RouteIsOwn(s: System, c: ConnId, channel: Str)
    requires RoutingInv(s) && c in s.broker.conns && channel in s.broker.conns[c].streams
    ensures channel in s.broker.routes ==> s.broker.routes[channel] == s.broker.conns[c].agent
  {
    var b := s.broker;
    if channel in b.routes {
      assert RouteOk(b, channel) && AgentOk(b, b.routes[channel]);
      AdaptersHaveStreams(b, b.connections[b.routes[channel]]);
      assert b.connections[b.routes[channel]] == c;
    }
  }

  lemma RetireIsolated(b: Broker, c: ConnId, channel: Str)
    requires c in b.conns && (channel in b.routes ==> b.routes[channel] == b.conns[c].agent)
    ensures OthersUntouched(b, Retire(b, c, channel).0, Some(b.conns[c].agent))
  {
    if channel in b.conns[c].open {
      UnrouteIsolated(b, c, Retire(b, c, channel).0.conns[c], {channel});
    }
  }

  lemma BeginCloseIsolated(s: System, channel: Str, requestId: Str, agent: AgentId)
    requires Inv(s) && (channel in s.broker.routes ==> s.broker.routes[channel] == agent)
    ensures OthersUntouched(s.broker, BeginClose(s, channel, requestId).0.broker, Some(agent))
  {
    SendIsolated(s.broker, CloseSession, channel, requestId, []);
  }

  lemma CloseStreamIsolated(s: System, c: ConnId, channel: Str, requestId: Str)
    requires RoutingInv(s) && c in s.broker.conns && channel in s.broker.conns[c].streams
    ensures OthersUntouched(s.broker, CloseStream(s, c, channel, requestId).0.broker, Some(s.broker.conns[c].agent))
  {
    var stream := s.broker.conns[c].streams[channel].(closed := true);
    SetStreamIsolated(s.broker, c, channel, stream);
    SetStreamKeepsInv(s, c, channel, stream);
    RouteIsOwn(s, c, channel);
    BeginCloseIsolated(s.(broker := SetStream(s.broker, c, channel, stream)), channel, requestId,
                       s.broker.conns[c].agent);
  }

  lemma FeedIsolated(b: Broker, c: ConnId, f: Frame, channel: Str)
    requires c in b.conns && (channel in b.routes ==> b.routes[channel] == b.conns[c].agent)
    requires f.channelId == Some(channel)
    ensures OthersUntouched(b, AgentFrame(b, c, f).0, Some(b.conns[c].agent))
  {
    if channel in b.conns[c].streams {
      var stream := b.conns[c].streams[channel];
      SetStreamIsolated(b, c, channel, stream.(buffer := stream.buffer + f.payload));
      SetStreamIsolated(b, c, channel, stream.(closed := true));
      RetireIsolated(SetStream(b, c, channel, stream.(closed := true)), c, channel);
    }
  }

  lemma AgentFrameIsolated(s: System, c: ConnId, f: Frame)
    requires RoutingInv(s) && c in s.broker.conns
    ensures OthersUntouched(s.broker, AgentFrame(s.broker, c, f).0, Some(s.broker.conns[c].agent))
  {
    var t := AgentFrame(s.broker, c, f).0;
    if t != s.broker {
      AgentFrameChannel(s.broker, c, f);
      RouteIsOwn(s, c, f.channelId.value);
      FeedIsolated(s.broker, c, f, f.channelId.value);
    }
  }

  lemma AdmitIsolated(b: Broker, agent: AgentId, c: ConnId)
    requires c !in b.conns
    ensures OthersUntouched(b, Admit(b, agent, c), Some(agent))
  {
  }

  lemma RegisterIsolated(b: Broker, agent: AgentId, c: ConnId, requestId: Str)
    requires c !in b.conns
    ensures OthersUntouched(b, Register(b, agent, c, requestId).0, Some(agent))
  {
    AdmitIsolated(b, agent, c);
    WriteIsolated(Admit(b, agent, c), c, Frame(AuthOk, requestId, None, []));
  }

  lemma DropOwnedIsolated(b: Broker, agent: AgentId, c: ConnId)
    requires c in b.conns && b.conns[c].agent == agent
    requires forall ch :: ch in b.conns[c].adapters && ch in b.routes ==> b.routes[ch] == agent
    ensures OthersUntouched(b, DropOwned(b, agent, c), Some(agent))
  {
    var conn := b.conns[c];
    UnrouteIsolated(b, c, EndStreams(conn), conn.adapters);
    VacateIsolated(b.(conns := b.conns[c := EndStreams(conn)], routes := b.routes - conn.adapters), agent);
  }

  lemma DropIsolated(s: System, agent: AgentId, c: ConnId)
    requires RoutingInv(s) && Enabled(s, SDrop(agent, c))
    ensures agent in s.broker.connections ==> s.broker.connections[agent] in s.broker.conns
    ensures OthersUntouched(s.broker, Drop(s.broker, agent, c), Some(agent))
  {
    var b := s.broker;
    if agent in b.connections { assert AgentOk(b, agent); }
    if c in b.conns {
      assert Live(b, c);
      DropIsDropOwned(b, agent, c);
      forall ch | ch in b.conns[c].adapters && ch in b.routes ensures b.routes[ch] == agent {
        assert Routed(b, c, ch);
      }
      DropOwnedIsolated(b, agent, c);
    } else {
      FreshConnUnused(b, agent, c);
      NonOwnerDrop(b, agent, c);
    }
  }

  lemma ErrorFrameIsolated(s: System, c: ConnId, requestId: Str)
    requires Inv(s) && c in s.handlers
    ensures c in s.broker.conns
    ensures OthersUntouched(s.broker, WriteErrorFrame(s.broker, c, requestId), Some(s.broker.conns[c].agent))
  {
    assert Live(s.broker, c);
    var f := Frame(FrameType.Error, requestId, None, []);
    ReplaceIsolated(s.broker, c, s.broker.conns[c].(wire := s.broker.conns[c].wire + [f]));
  }

  /** No step taken for one agent changes another's connection, channels, buffers, wire or routes. */
  lemma AgentsIsolated(s: System, step: Step)
    requires RoutingInv(s) && Enabled(s, step) && FreshStep(s, step)
    ensures OthersUntouched(s.broker, Next(s, step).0.broker, StepAgent(s, step))
  {
    match step
    case SRegister(agent, c, requestId) => RegisterIsolated(s.broker, agent, c, requestId);
    case SOpen(agent, ch, requestId, payload, checks) =>
      FreshHasNoRoute(s, step);
      OpenIsolated(s.broker, agent, ch, OpenFrame(ch, requestId, payload), checks);
    case SData(ch, requestId, payload) => SendIsolated(s.broker, SessionData, ch, requestId, payload);
    case SResize(ch, requestId, payload) => SendIsolated(s.broker, ResizePty, ch, requestId, payload);
    case SCloseBegin(ch, requestId) => SendIsolated(s.broker, CloseSession, ch, requestId, []);
    case SStreamClose(c, ch, requestId) => CloseStreamIsolated(s, c, ch, requestId);
    case SCloseEnd(c, ch) =>
      assert CloserOk(s.broker, (c, ch));
      RouteIsOwn(s, c, ch);
      RetireIsolated(s.broker, c, ch);
    case SCloseAbort(c, ch) =>
    case SAgentFrame(c, f) =>
      assert Live(s.broker, c);
      AgentFrameIsolated(s, c, f);
    case SErrorFrame(c, requestId) => ErrorFrameIsolated(s, c, requestId);
    case SDrop(agent, c) => DropIsolated(s, agent, c);
    case SRead(c, ch, n) => SetStreamIsolated(s.broker, c, ch, ReadStream(s.broker.conns[c].streams[ch], n).1);
  }

  /** The owner's teardown: the slot and every route of the agent go, and each open stream ends with its buffer kept. */
  lemma OwnerDrop(s: System, agent: AgentId, c: ConnId)
    requires RoutingInv(s) && c in s.broker.conns && Enabled(s, SDrop(agent, c))
    ensures var b, t := s.broker, Next(s, SDrop(agent, c)).0.broker;
            && agent !in t.active && agent !in t.connections
            && (forall ch :: ch in t.routes <==> ch in b.routes && b.routes[ch] != agent)
            && (forall ch :: ch in b.conns[c].adapters ==>
                  ch in t.conns[c].streams && t.conns[c].streams[ch] == Stream(b.conns[c].streams[ch].buffer, true))
            && (forall ch :: ch in b.conns[c].streams && ch !in b.conns[c].adapters ==>
                  t.conns[c].streams[ch] == b.conns[c].streams[ch])
  {
    var b := s.broker;
    assert Live(b, c);
    DropIsDropOwned(b, agent, c);
    AdaptersHaveStreams(b, c);
    forall ch ensures ch in b.conns[c].adapters <==> ch in b.routes && b.routes[ch] == agent {
      RoutesAreInverse(s, ch, agent);
    }
  }
}
