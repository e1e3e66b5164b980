/**
 The broker as the objects of src/server/tunnel.py, updated in place. Every method between two awaits is proved to do to
 the objects exactly what the operation of `BrokerSpec` does to their view, so the results about runs apply to them.
 */
module ServerTunnel {
  import opened Wrappers
  import opened Text
  import opened FrameCodec
  import opened BrokerSpec

  class ActiveTunnelRegistry {
    var active: map<AgentId, ConnId>

    constructor ()
      ensures active == map[]
    {
      active := map[];
    }

    method Connect(agent: AgentId, c: ConnId) returns (o: Outcome)
      modifies this
      ensures o == if agent in old(active) && old(active)[agent] != c then Raised(DuplicateTunnel) else Done
      ensures active == if o.Done? then old(active)[agent := c] else old(active)
    {
      if agent in active && active[agent] != c {
        return Raised(DuplicateTunnel);
      }
      active := active[agent := c];
      return Done;
    }

    method Disconnect(agent: AgentId, c: ConnId)
      modifies this
      ensures active == if agent in old(active) && old(active)[agent] == c then old(active) - {agent} else old(active)
    {
      if agent in active && active[agent] == c {
        active := active - {agent};
      }
    }
  }

  class TunnelChannelRegistry {
    const maxSessions: int
    var open: set<Str>
    var retired: set<Str>

    constructor (maxSessions: int)
      ensures this.maxSessions == maxSessions && open == {} && retired == {}
    {
      this.maxSessions := maxSessions;
      open, retired := {}, {};
    }

    method OpenChannel(channel: Str) returns (o: Outcome)
      modifies this
      ensures o == if channel == [] then Raised(ChannelIdRequired)
                   else if channel in old(open) || channel in old(retired) then Raised(ChannelReuse)
                   else if |old(open)| >= maxSessions then Raised(MaxSessionsExceeded)
                   else Done
      ensures open == (if o.Done? then old(open) + {channel} else old(open)) && retired == old(retired)
    {
      if channel == [] { return Raised(ChannelIdRequired); }
      if channel in open || channel in retired { return Raised(ChannelReuse); }
      if |open| >= maxSessions { return Raised(MaxSessionsExceeded); }
      open := open + {channel};
      return Done;
    }

    method CloseChannel(channel: Str) returns (o: Outcome)
      modifies this
      ensures o == if channel in old(open) then Done else Raised(UnknownChannel)
      ensures open == old(open) - {channel}
      ensures retired == if o.Done? then old(retired) + {channel} else old(retired)
    {
      if channel !in open { return Raised(UnknownChannel); }
      open := open - {channel};
      retired := retired + {channel};
      return Done;
    }

    function RequireOpen(channel: Str): Outcome
      reads this
    {
      if channel in open then Done else Raised(UnknownChannel)
    }
  }

  /** Channel state transitions for one frame; frames without a channel pass. */
  method ApplyChannelFrame(channels: TunnelChannelRegistry, kind: FrameType, channelId: Option<Str>) returns (o: Outcome)
    modifies channels
    ensures kind == OpenSession ==>
              o == (if channelId.None? || channelId.value == [] then Raised(ChannelIdRequired)
                    else if channelId.value in old(channels.open) || channelId.value in old(channels.retired)
                    then Raised(ChannelReuse)
                    else if |old(channels.open)| >= channels.maxSessions then Raised(MaxSessionsExceeded)
                    else Done)
              && channels.open == (if o.Done? then old(channels.open) + {channelId.value} else old(channels.open))
              && channels.retired == old(channels.retired)
    ensures kind in {SessionData, ResizePty, CloseSession} ==>
              o == if channelId.None? then Raised(ChannelIdRequired)
                   else if channelId.value !in old(channels.open) then Raised(UnknownChannel)
                   else Done
    ensures kind == CloseSession && o.Done? ==>
              channels.open == old(channels.open) - {channelId.value}
              && channels.retired == old(channels.retired) + {channelId.value}
    ensures kind != OpenSession && !(kind == CloseSession && o.Done?) ==>
              channels.open == old(channels.open) && channels.retired == old(channels.retired)
  {
    if kind == OpenSession {
      if channelId.None? { return Raised(ChannelIdRequired); }
      o := channels.OpenChannel(channelId.value);
      return;
    }
    if kind in {SessionData, ResizePty, CloseSession} {
      if channelId.None? { return Raised(ChannelIdRequired); }
      o := channels.RequireOpen(channelId.value);
      if o.Done? && kind == CloseSession {
        o := channels.CloseChannel(channelId.value);
      }
      return;
    }
    return Done;
  }

  /** One authenticated tunnel, with the streams of all its channels, past ones included. */
  class BrokerTunnelConnection {
    const agent: AgentId
    const id: ConnId
    const channels: TunnelChannelRegistry
    var adapters: set<Str>
    var streams: map<Str, Stream>
    var wire: seq<Frame>

    constructor (agent: AgentId, id: ConnId, maxSessions: int)
      ensures this.agent == agent && this.id == id && fresh(channels) && channels.maxSessions == maxSessions
      ensures View() == Conn(agent, {}, {}, {}, map[], [])
    {
      this.agent, this.id := agent, id;
      channels := new TunnelChannelRegistry(maxSessions);
      adapters, streams, wire := {}, map[], [];
    }

    function View(): Conn
      reads this, channels
    {
      Conn(agent, channels.open, channels.retired, adapters, streams, wire)
    }

    /** `BrokerTunnelStream.feed_data`. */
    method FeedData(channel: Str, payload: Bytes)
      requires channel in streams
      modifies this
      ensures streams == old(streams)[channel := old(streams)[channel].(buffer := old(streams)[channel].buffer + payload)]
      ensures adapters == old(adapters) && wire == old(wire)
    {
      streams := streams[channel := streams[channel].(buffer := streams[channel].buffer + payload)];
    }

    /** `BrokerTunnelStream.feed_eof`. */
    method FeedEof(channel: Str)
      requires channel in streams
      modifies this
      ensures streams == old(streams)[channel := old(streams)[channel].(closed := true)]
      ensures adapters == old(adapters) && wire == old(wire)
    {
      streams := streams[channel := streams[channel].(closed := true)];
    }

    /** `BrokerTunnelStream.read`, once the stream has data or has ended. */
    method Read(channel: Str, n: int) returns (data: Bytes)
      requires channel in streams
      modifies this
      ensures var (given, rest) := ReadStream(old(streams)[channel], n);
              data == given && streams == old(streams)[channel := rest]
      ensures adapters == old(adapters) && wire == old(wire)
      ensures var buffer := old(streams)[channel].buffer;
              && |data| == (if n < 0 || n >= |buffer| then |buffer| else n)
              && data + streams[channel].buffer == buffer && streams[channel].closed == old(streams)[channel].closed
    {
      var stream := streams[channel];
      if n < 0 || n >= |stream.buffer| {
        data := stream.buffer;
        streams := streams[channel := stream.(buffer := [])];
        return;
      }
      data := stream.buffer[..n];
      streams := streams[channel := stream.(buffer := stream.buffer[n..])];
    }

    /** The loop of `_drop_connection` over the adapters. */
    method EndAll()
      requires adapters <= streams.Keys
      modifies this
      ensures View() == EndStreams(old(View())) && adapters == old(adapters)
    {
      var todo := adapters;
      while todo != {}
        invariant todo <= adapters == old(adapters)
        invariant streams.Keys == old(streams).Keys && wire == old(wire)
        invariant forall ch :: ch in streams ==>
          streams[ch] == if ch in adapters && ch !in todo then old(streams)[ch].(closed := true) else old(streams)[ch]
      {
        var ch :| ch in todo;
        FeedEof(ch);
        todo := todo - {ch};
      }
      assert streams == EndStreams(old(View())).streams;
    }
  }

  /** The registry's part and the tables' part of opening, and of retiring, make up the whole operation. */
  lemma AttachInTwo(b: Broker, agent: AgentId, c: ConnId, channel: Str, mid: Broker)
    requires c in b.conns && mid == b.(conns := b.conns[c := b.conns[c].(open := b.conns[c].open + {channel})])
    ensures var conn := mid.conns[c];
            Attach(b, agent, c, channel)
            == mid.(routes := mid.routes[channel := agent],
                    conns := mid.conns[c := conn.(adapters := conn.adapters + {channel},
                                                  streams := conn.streams[channel := Stream([], false)])])
  {
  }

  lemma RetireInTwo(b: Broker, c: ConnId, channel: Str, mid: Broker)
    requires c in b.conns && channel in b.conns[c].open
    requires mid == b.(conns := b.conns[c := b.conns[c].(open := b.conns[c].open - {channel},
                                                         retired := b.conns[c].retired + {channel})])
    ensures var conn := mid.conns[c];
            Retire(b, c, channel).1 == Done
            && Retire(b, c, channel).0
               == mid.(routes := mid.routes - {channel},
                       conns := mid.conns[c := conn.(adapters := conn.adapters - {channel})])
  {
  }

  class ServerTunnelBroker {
    const registry: ActiveTunnelRegistry
    const maxSessions: int
    const maxFrameBytes: int
    const encodeError: (Frame, int) -> Option<ProtocolError>
    var connections: map<AgentId, BrokerTunnelConnection>
    var channelAgents: map<Str, AgentId>

    /** Every connection object made so far: a suspended call may hold one that is no longer registered. */
    ghost var objects: map<ConnId, BrokerTunnelConnection>

    ghost predicate Valid()
      reads this`objects, this`connections
    {
      ObjectsOk() && SlotsOk()
    }

    /** Connection objects are numbered by their ids and share nothing. */
    ghost predicate ObjectsOk()
      reads this`objects
    {
      && (forall c :: c in objects ==> objects[c].id == c && objects[c].channels.maxSessions == maxSessions)
      && (forall c, d :: c in objects && d in objects && c != d ==> objects[c].channels != objects[d].channels)
    }

    ghost predicate SlotsOk()
      reads this`objects, this`connections
    {
      forall a :: a in connections ==> Registered(a)
    }

    ghost predicate Registered(a: AgentId)
      requires a in connections
      reads this`objects, this`connections
    {
      var conn := connections[a];
      conn.agent == a && conn.id in objects && objects[conn.id] == conn
    }

    ghost function Channels(): set<TunnelChannelRegistry>
      reads this`objects
    {
      set c | c in objects :: objects[c].channels
    }

    ghost function Slots(): map<AgentId, ConnId>
      reads this`connections
    {
      map a | a in connections :: connections[a].id
    }

    ghost function Conns(): map<ConnId, Conn>
      reads this`objects, objects.Values, Channels()
    {
      map c | c in objects :: objects[c].View()
    }

    ghost function View(): (b: Broker)
      requires Valid()
      reads this, registry, objects.Values, Channels()
      ensures AgentsOk(b)
    {
      assert forall a :: a in connections ==> Registered(a);
      Broker(registry.active, Slots(), channelAgents, Conns(), maxSessions, maxFrameBytes, encodeError)
    }

    constructor (maxSessions: int, maxFrameBytes: int, encodeError: (Frame, int) -> Option<ProtocolError>)
      ensures Valid() && fresh(registry) && objects == map[]
      ensures View() == Broker(map[], map[], map[], map[], maxSessions, maxFrameBytes, encodeError)
    {
      this.maxSessions, this.maxFrameBytes, this.encodeError := maxSessions, maxFrameBytes, encodeError;
      registry := new ActiveTunnelRegistry();
      connections, channelAgents, objects := map[], map[], map[];
    }

    /** `_write_frame` up to its first suspension. */
    method Write(conn: BrokerTunnelConnection, f: Frame) returns (o: Outcome)
      requires Valid() && conn.id in objects && objects[conn.id] == conn
      modifies conn
      ensures Valid() && View() == WriteFrame(old(View()), conn.id, f).0 && o == WriteFrame(old(View()), conn.id, f).1
    {
      var error := encodeError(f, maxFrameBytes);
      if error.Some? { return Raised(FrameRejected(error.value)); }
      conn.wire := conn.wire + [f];
      assert Conns() == old(Conns())[conn.id := conn.View()];
      return Done;
    }

    /** The agent's slot goes to a known connection. */
    method Seat(conn: BrokerTunnelConnection)
      requires Valid() && conn.id in objects && objects[conn.id] == conn
      modifies this`connections
      ensures Valid() && View() == old(View()).(connections := old(Slots())[conn.agent := conn.id])
    {
      connections := connections[conn.agent := conn];
      assert SlotsOk() by {
        assert forall a :: a in connections && a != conn.agent ==> old(Registered(a));
      }
      assert Slots() == old(Slots())[conn.agent := conn.id];
      assert Conns() == old(Conns());
    }

    /** The two table entries of a new connection. */
    method Enlist(conn: BrokerTunnelConnection)
      requires Valid() && conn.id !in objects && conn.channels.maxSessions == maxSessions
      requires forall c :: c in objects ==> objects[c].channels != conn.channels
      modifies this
      ensures Valid() && View() == old(View()).(connections := old(Slots())[conn.agent := conn.id],
                                                conns := old(Conns())[conn.id := conn.View()])
      ensures objects == old(objects)[conn.id := conn]
    {
      objects := objects[conn.id := conn];
      assert ObjectsOk() && SlotsOk() by {
        assert old(ObjectsOk()) && forall a :: a in connections ==> old(Registered(a));
      }
      assert Conns() == old(Conns())[conn.id := conn.View()];
      Seat(conn);
    }

    /** `handle_stream` once the agent is authenticated, up to the AUTH_OK frame. */
    method Admit(agent: AgentId, c: ConnId, requestId: Str) returns (o: Outcome)
      requires Valid() && c !in objects
      modifies this, registry
      ensures Valid() && View() == Register(old(View()), agent, c, requestId).0
      ensures o == Register(old(View()), agent, c, requestId).1
    {
      if maxSessions <= 0 { return Raised(MaxSessionsInvalid); }
      ghost var before := View();
      var conn := new BrokerTunnelConnection(agent, c, maxSessions);
      assert View() == before;
      o := registry.Connect(agent, c);
      assert View() == before.(active := registry.active);
      if o.Raised? { return; }
      Enlist(conn);
      assert View() == BrokerSpec.Admit(before, agent, c);
      o := Write(conn, Frame(AuthOk, requestId, None, []));
    }

    function RequireConnection(agent: AgentId, channel: Str): Result<BrokerTunnelConnection, StateError>
      reads this
    {
      if channel == [] then Err(ChannelIdRequired)
      else if agent !in connections then Err(NotConnected)
      else Ok(connections[agent])
    }

    /** The adapter and the route of a channel that the registry of its connection has just opened. */
    method Adopt(conn: BrokerTunnelConnection, channel: Str)
      requires Valid() && conn.id in objects && objects[conn.id] == conn
      modifies this`channelAgents, conn
      ensures Valid()
      ensures View() == old(View()).(
        routes := old(View().routes)[channel := conn.agent],
        conns := old(Conns())[conn.id := old(conn.View()).(adapters := old(conn.adapters) + {channel},
                                                                streams := old(conn.streams)[channel := Stream([], false)])])
    {
      conn.streams := conn.streams[channel := Stream([], false)];
      conn.adapters := conn.adapters + {channel};
      channelAgents := channelAgents[channel := conn.agent];
      assert Conns() == old(Conns())[conn.id := conn.View()];
    }

    /** `open_session`, with what it learns from the certificate, the host key and the clock as a parameter. */
    method OpenSession(agent: AgentId, channel: Str, requestId: Str, payload: Bytes, checks: OpenChecks)
      returns (o: Outcome)
      requires Valid()
      modifies this`channelAgents, objects.Values, Channels()
      ensures Valid()
      ensures (View(), o) == OpenOnAgent(old(View()), agent, channel, OpenFrame(channel, requestId, payload), checks)
      // The tables change if and only if every condition holds; a refused call leaves them as they were.
      ensures View() != old(View()) <==>
                checks.principalMatches && checks.hostKeyPinned && checks.heartbeatFresh && channel != []
                && agent in old(connections)
                && channel !in old(connections[agent].channels.open)
                && channel !in old(connections[agent].channels.retired)
                && |old(connections[agent].channels.open)| < maxSessions
      ensures View() != old(View()) ==>
                old(connections[agent]).channels.open == old(connections[agent].channels.open) + {channel}
                && channel in channelAgents && channelAgents[channel] == agent
                && var f := Frame(FrameType.OpenSession, requestId, Some(channel), payload);
                   var error := encodeError(f, maxFrameBytes);
                   o == (if error.None? then Done else Raised(FrameRejected(error.value)))
                   && old(connections[agent]).wire
                      == if error.None? then old(connections[agent].wire) + [f] else old(connections[agent].wire)
      // The error is that of the first condition that fails.
      ensures View() == old(View()) ==>
                o == Raised(if !checks.principalMatches then PrincipalMismatch
                            else if !checks.hostKeyPinned then HostKeyNotPinned
                            else if channel == [] then ChannelIdRequired
                            else if agent !in old(connections) then NotConnected
                            else if !checks.heartbeatFresh then HeartbeatStale
                            else if channel in old(connections[agent].channels.open)
                                    || channel in old(connections[agent].channels.retired) then ChannelReuse
                            else MaxSessionsExceeded)
    {
      if !checks.principalMatches { return Raised(PrincipalMismatch); }
      if !checks.hostKeyPinned { return Raised(HostKeyNotPinned); }
      var found := RequireConnection(agent, channel);
      if found.Err? { return Raised(found.error); }
      var conn := found.value;
      assert Registered(agent);
      if !checks.heartbeatFresh { return Raised(HeartbeatStale); }
      o := OpenOn(conn, channel, requestId, payload);
    }

    /** The channel registry's part of `open_session`. */
    method Claim(conn: BrokerTunnelConnection, channel: Str) returns (o: Outcome)
      requires Valid() && conn.id in objects && objects[conn.id] == conn && channel != []
      modifies conn.channels
      ensures Valid()
      ensures o == match RefuseOpen(old(conn.View()), channel, maxSessions) case Some(e) => Raised(e) case None => Done
      ensures var added := if o.Done? then {channel} else {};
              conn.View() == old(conn.View()).(open := old(conn.channels.open) + added)
      ensures View() == old(View()).(conns := old(Conns())[conn.id := conn.View()])
    {
      o := ApplyChannelFrame(conn.channels, FrameType.OpenSession, Some(channel));
      forall c | c in objects && c != conn.id ensures objects[c].View() == old(objects[c].View()) {
        assert old(ObjectsOk()) && objects[c].channels != conn.channels;
      }
      assert Conns() == old(Conns())[conn.id := conn.View()];
    }

    /** The rest of `open_session`, on the connection it found. */
    method OpenOn(conn: BrokerTunnelConnection, channel: Str, requestId: Str, payload: Bytes) returns (o: Outcome)
      requires Valid() && conn.id in objects && objects[conn.id] == conn && channel != []
      modifies this`channelAgents, conn, conn.channels
      ensures Valid()
      ensures match RefuseOpen(old(conn.View()), channel, maxSessions)
              case Some(e) => View() == old(View()) && o == Raised(e)
              case None => (View(), o) == WriteFrame(Attach(old(View()), conn.agent, conn.id, channel), conn.id,
                                                     OpenFrame(channel, requestId, payload))
    {
      ghost var before, was := View(), conn.View();
      o := Claim(conn, channel);
      if o.Raised? {
        assert conn.View() == was;
        assert before.conns[conn.id := was] == before.conns;
        return;
      }
      AttachInTwo(before, conn.agent, conn.id, channel, View());
      Adopt(conn, channel);
      o := Write(conn, OpenFrame(channel, requestId, payload));
    }

    /** The connection that carries an open channel: `_require_channel_connection` and `require_open`. */
    function RequireChannel(channel: Str): (r: Result<BrokerTunnelConnection, StateError>)
      requires Valid()
      reads this, registry, objects.Values, Channels()
      ensures match ChannelConnection(View(), channel)
              case Err(e) => r == Err(e)
              case Ok(c) => r.Ok? && c in objects && r.value == objects[c]
    {
      if channel !in channelAgents then Err(ChannelNotOpen)
      else if channelAgents[channel] !in connections then Err(LookupFailed)
      else
        assert Registered(channelAgents[channel]);
        var conn := connections[channelAgents[channel]];
        var o := conn.channels.RequireOpen(channel);
        if o.Raised? then Err(o.error) else Ok(conn)
    }

    /** `send_data` and `resize_pty`. */
    method Send(kind: FrameType, channel: Str, requestId: Str, payload: Bytes) returns (o: Outcome)
      requires Valid()
      modifies objects.Values
      ensures Valid() && (View(), o) == SendOnChannel(old(View()), kind, channel, requestId, payload)
    {
      var found := RequireChannel(channel);
      if found.Err? { return Raised(found.error); }
      o := Write(found.value, Frame(kind, requestId, Some(channel), payload));
    }

    /** `close_session` up to its suspension, with the connection object that its second half will use. */
    method BeginClose(channel: Str, requestId: Str) returns (o: Outcome, held: Option<BrokerTunnelConnection>)
      requires Valid()
      modifies objects.Values
      ensures Valid() && (View(), o) == SendOnChannel(old(View()), CloseSession, channel, requestId, [])
      ensures o.Done? ==> held.Some? && held.value.id in objects && objects[held.value.id] == held.value
                          && ChannelConnection(old(View()), channel) == Ok(held.value.id)
    {
      var found := RequireChannel(channel);
      if found.Err? { return Raised(found.error), None; }
      o := Write(found.value, Frame(CloseSession, requestId, Some(channel), []));
      held := Some(found.value);
    }

    /** The channel registry's part of `_retire_channel`. */
    method Close(conn: BrokerTunnelConnection, channel: Str) returns (o: Outcome)
      requires Valid() && conn.id in objects && objects[conn.id] == conn
      modifies conn.channels
      ensures Valid()
      ensures o == if channel in old(conn.channels.open) then Done else Raised(UnknownChannel)
      ensures conn.View() == if o.Raised? then old(conn.View())
                else old(conn.View()).(open := old(conn.channels.open) - {channel},
                                       retired := old(conn.channels.retired) + {channel})
      ensures View() == old(View()).(conns := old(Conns())[conn.id := conn.View()])
    {
      o := ApplyChannelFrame(conn.channels, CloseSession, Some(channel));
      assert Conns() == old(Conns())[conn.id := conn.View()];
    }

    /** The tables' part of `_retire_channel`. */
    method Forget(conn: BrokerTunnelConnection, channel: Str)
      requires Valid() && conn.id in objects && objects[conn.id] == conn
      modifies this`channelAgents, conn`adapters
      ensures Valid()
      ensures View() == old(View()).(
        routes := old(channelAgents) - {channel},
        conns := old(Conns())[conn.id := old(conn.View()).(adapters := old(conn.adapters) - {channel})])
    {
      conn.adapters := conn.adapters - {channel};
      channelAgents := channelAgents - {channel};
      assert Conns() == old(Conns())[conn.id := conn.View()];
    }

    /** `_retire_channel` on a connection object, registered or not. */
    method RetireChannel(conn: BrokerTunnelConnection, channel: Str) returns (o: Outcome)
      requires Valid() && conn.id in objects && objects[conn.id] == conn
      modifies this`channelAgents, conn`adapters, conn.channels
      ensures Valid() && (View(), o) == Retire(old(View()), conn.id, channel)
    {
      ghost var before, was := View(), conn.View();
      o := Close(conn, channel);
      if o.Raised? {
        assert before.conns[conn.id := was] == before.conns;
        return;
      }
      RetireInTwo(before, conn.id, channel, View());
      Forget(conn, channel);
    }

    method Feed(conn: BrokerTunnelConnection, channel: Str, payload: Bytes)
      requires Valid() && conn.id in objects && objects[conn.id] == conn && channel in conn.streams
      modifies conn
      ensures Valid() && View() == SetStream(old(View()), conn.id, channel,
                var stream := old(conn.streams)[channel]; stream.(buffer := stream.buffer + payload))
    {
      conn.FeedData(channel, payload);
      assert Conns() == old(Conns())[conn.id := conn.View()];
    }

    method End(conn: BrokerTunnelConnection, channel: Str)
      requires Valid() && conn.id in objects && objects[conn.id] == conn && channel in conn.streams
      modifies conn
      ensures Valid() && View() == SetStream(old(View()), conn.id, channel, old(conn.streams)[channel].(closed := true))
    {
      conn.FeedEof(channel);
      assert Conns() == old(Conns())[conn.id := conn.View()];
    }

    /** `_handle_agent_frame`. */
    method HandleAgentFrame(conn: BrokerTunnelConnection, f: Frame) returns (o: Outcome)
      requires Valid() && conn.id in objects && objects[conn.id] == conn
      modifies this`channelAgents, conn, conn.channels
      ensures Valid() && (View(), o) == AgentFrame(old(View()), conn.id, f)
    {
      if f.kind == Heartbeat { return Done; }
      if f.kind == SessionData || f.kind == CloseSession {
        if f.channelId.None? { return Raised(ChannelIdRequired); }
        var channel := f.channelId.value;
        o := conn.channels.RequireOpen(channel);
        if o.Raised? { return; }
        if channel !in conn.adapters || channel !in conn.streams { return Raised(LookupFailed); }
        if f.kind == SessionData {
          Feed(conn, channel, f.payload);
        } else {
          End(conn, channel);
          o := RetireChannel(conn, channel);
        }
        return;
      }
      return Raised(FrameTypeNotAccepted);
    }

    /** The loop of `_drop_connection` that takes the routes of a connection's adapters away. */
    method Unroute(channels: set<Str>)
      requires Valid()
      modifies this`channelAgents
      ensures Valid() && View() == old(View()).(routes := old(channelAgents) - channels)
    {
      var todo := channels;
      while todo != {}
        invariant todo <= channels && channelAgents == old(channelAgents) - (channels - todo)
      {
        var ch :| ch in todo;
        channelAgents := channelAgents - {ch};
        todo := todo - {ch};
      }
    }

    /** The connection's slot and its streams. */
    method Vacate(agent: AgentId)
      requires Valid() && agent in connections
      requires connections[agent].adapters <= connections[agent].streams.Keys
      modifies this`connections, objects.Values
      ensures Valid()
      ensures var conn := old(connections[agent]);
              conn.adapters == old(conn.adapters)
              && View() == old(View()).(connections := old(Slots()) - {agent},
                                        conns := old(Conns())[conn.id := EndStreams(old(conn.View()))])
    {
      var conn := connections[agent];
      assert Registered(agent);
      connections := connections - {agent};
      assert SlotsOk() by {
        assert forall a :: a in connections ==> old(Registered(a));
      }
      assert Slots() == old(Slots()) - {agent};
      conn.EndAll();
      assert Conns() == old(Conns())[conn.id := EndStreams(old(conn.View()))];
    }

    /** The connection's slot, its streams and its routes go. */
    method Evict(agent: AgentId)
      requires Valid() && agent in connections
      requires connections[agent].adapters <= connections[agent].streams.Keys
      modifies this`connections, this`channelAgents, objects.Values
      ensures Valid()
      ensures var conn := old(connections[agent]);
              View() == old(View()).(connections := old(Slots()) - {agent},
                                     routes := old(channelAgents) - old(conn.adapters),
                                     conns := old(Conns())[conn.id := EndStreams(old(conn.View()))])
    {
      var conn := connections[agent];
      Vacate(agent);
      Unroute(conn.adapters);
    }

    method Release(agent: AgentId, c: ConnId)
      requires Valid()
      modifies registry
      ensures Valid() && View() == Disconnect(old(View()), agent, c)
    {
      registry.Disconnect(agent, c);
    }

    /** `_drop_connection`. */
    method DropConnection(agent: AgentId, c: ConnId)
      requires Valid()
      requires agent in connections ==> connections[agent].adapters <= connections[agent].streams.Keys
      modifies this`connections, this`channelAgents, registry, objects.Values
      ensures Valid() && View() == Drop(old(View()), agent, c)
    {
      ghost var before := View();
      assert agent in connections ==> Registered(agent);
      if agent in connections && connections[agent].id != c {
        Release(agent, c);
        assert View() == Drop(before, agent, c);
        return;
      }
      if agent in connections {
        Evict(agent);
      }
      Release(agent, c);
      assert View() == Drop(before, agent, c);
    }
  }
}
