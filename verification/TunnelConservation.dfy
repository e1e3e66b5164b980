/**
 Both directions of a tunnel at once. The agent has dispatched some of the frames on its wire, which decides the channels
 it forwards for; their forwarders share one first-in first-out link, the server sorts the frames into per-channel
 buffers, and consumers drain those at will.
 */
module TunnelConservation {
  import opened Wrappers
  import opened Collections
  import opened Text
  import opened FrameCodec
  import opened ChannelData
  import opened BrokerSpec
  import opened BrokerSystem
  import opened AgentSpec
  import opened TunnelSimulation
  import opened TunnelDelivery

  /**
   The agent's side of a connection: how many frames of its wire it has dispatched, the frames it has written and the
   server has not yet handled, the bytes each forwarder has read from its local socket, and the chunk that a forwarder
   died on because it could not be encoded.
   */
  datatype Link = Link(seen: nat, up: seq<Frame>, read: map<Str, Bytes>, lost: map<Str, Bytes>)

  /** The broker with all its links, and what the consumers of each stream have been given so far. */
  datatype Net = Net(
    sys: System,
    links: map<ConnId, Link>,
    consumed: map<(ConnId, Str), Bytes>,
    agentEncodeError: Frame -> Option<ProtocolError>)

  datatype NetStep =
    | NBroker(step: Step)
    | NForward(conn: ConnId, channel: Str, payload: Bytes)
    | NBeat(conn: ConnId, requestId: Str)
    | NDispatch(conn: ConnId)
    | NDeliver(conn: ConnId)
    | NRead(conn: ConnId, channel: Str, n: int)

  function At<K(==)>(m: map<K, Bytes>, k: K): Bytes {
    if k in m then m[k] else []
  }

  function LinkOf(net: Net, c: ConnId): Link {
    if c in net.links then net.links[c] else Link(0, [], map[], map[])
  }

  function Buffered(b: Broker, c: ConnId, ch: Str): Bytes {
    if c in b.conns && ch in b.conns[c].streams then b.conns[c].streams[ch].buffer else []
  }

  predicate IsOpen(b: Broker, c: ConnId, ch: Str) {
    c in b.conns && ch in b.conns[c].open
  }

  predicate Known(b: Broker, c: ConnId, ch: Str) {
    c in b.conns && ch in b.conns[c].streams
  }

  /** `_forward_local_to_tunnel`: one chunk, labelled with its channel. */
  function DataFrame(ch: Str, payload: Bytes): Frame {
    Frame(SessionData, ch + Lit(":data"), Some(ch), payload)
  }

  // ---------------------------------------------------------------- steps

  /** What the agent has made of the frames it has dispatched. */
  function AgentNow(net: Net, c: ConnId): AgentState {
    var wire, seen := Wire(net.sys, c), LinkOf(net, c).seen;
    AgentAfter(if seen <= |wire| then wire[..seen] else wire)
  }

  /** The agent has the channel open, and so a forwarder for it. */
  predicate Forwards(net: Net, c: ConnId, ch: Str) {
    AgentNow(net, c).Running? && ch in AgentNow(net, c).channels
  }

  ghost predicate NetEnabled(net: Net, step: NetStep) {
    match step
    case NBroker(s) => Enabled(net.sys, s) && !s.SAgentFrame? && !s.SRead?
    case NForward(c, ch, payload) => Forwards(net, c, ch) && ch !in LinkOf(net, c).lost && payload != []
    case NBeat(c, _) => c in net.sys.broker.conns
    case NDispatch(c) => LinkOf(net, c).seen < |Wire(net.sys, c)|
    case NDeliver(c) => c in net.sys.handlers && LinkOf(net, c).up != []
    case NRead(c, ch, _) => Known(net.sys.broker, c, ch) && Readable(net.sys.broker.conns[c].streams[ch])
  }

  /** A forwarder has read a chunk and writes it, or ends with it when it cannot be encoded. */
  function Forward(net: Net, c: ConnId, ch: Str, payload: Bytes): Net {
    var link, f := LinkOf(net, c), DataFrame(ch, payload);
    var taken := link.(read := link.read[ch := At(link.read, ch) + payload]);
    net.(links := net.links[c := if net.agentEncodeError(f).None? then taken.(up := link.up + [f])
                                 else taken.(lost := link.lost[ch := payload])])
  }

  function Beat(net: Net, c: ConnId, requestId: Str): Net {
    var link := LinkOf(net, c);
    net.(links := net.links[c := link.(up := link.up + [Frame(Heartbeat, requestId, None, [])])])
  }

  /** The agent dispatches the next frame of its wire. */
  function Sees(net: Net, c: ConnId): Net {
    net.(links := net.links[c := LinkOf(net, c).(seen := LinkOf(net, c).seen + 1)])
  }

  /** The server handles the oldest frame on a link. */
  function Deliver(net: Net, c: ConnId): Net
    requires c in net.sys.broker.conns && LinkOf(net, c).up != []
  {
    var link := LinkOf(net, c);
    net.(sys := net.sys.(broker := AgentFrame(net.sys.broker, c, link.up[0]).0),
         links := net.links[c := link.(up := link.up[1..])])
  }

  function Consume(net: Net, c: ConnId, ch: Str, n: int): Net
    requires Known(net.sys.broker, c, ch)
  {
    var (data, rest) := ReadStream(net.sys.broker.conns[c].streams[ch], n);
    net.(sys := net.sys.(broker := SetStream(net.sys.broker, c, ch, rest)),
         consumed := net.consumed[(c, ch) := At(net.consumed, (c, ch)) + data])
  }

  function NetNext(net: Net, step: NetStep): Net
    requires Inv(net.sys) && NetEnabled(net, step)
  {
    match step
    case NBroker(s) => net.(sys := Next(net.sys, s).0)
    case NForward(c, ch, payload) => Forward(net, c, ch, payload)
    case NBeat(c, requestId) => Beat(net, c, requestId)
    case NDispatch(c) => Sees(net, c)
    case NDeliver(c) =>
      HandlerHasConn(net.sys, c);
      Deliver(net, c)
    case NRead(c, ch, n) => Consume(net, c, ch, n)
  }

  /** The two steps that reach the broker from this side are steps of the broker. */
  lemma DeliverIsStep(s: System, c: ConnId, f: Frame)
    requires Inv(s) && Enabled(s, SAgentFrame(c, f)) && c in s.broker.conns
    ensures Next(s, SAgentFrame(c, f)) == WithBroker(s, AgentFrame(s.broker, c, f))
  {
  }

  lemma ConsumeIsStep(s: System, c: ConnId, ch: Str, n: int)
    requires Inv(s) && Known(s.broker, c, ch) && Readable(s.broker.conns[c].streams[ch])
    ensures Next(s, SRead(c, ch, n))
         == WithBroker(s, (SetStream(s.broker, c, ch, ReadStream(s.broker.conns[c].streams[ch], n).1), Done))
  {
  }

  // ---------------------------------------------------------------- conservation

  /** The books of one channel: where its bytes are, and what the broker thinks of it. */
  datatype Account = Account(
    taken: Bytes, inFlight: Bytes, lost: Bytes, buffered: Bytes, consumed: Bytes,
    broken: bool, open: bool, known: bool)

  function AccountOf(net: Net, c: ConnId, ch: Str): Account {
    var link, b := LinkOf(net, c), net.sys.broker;
    Account(At(link.read, ch), DataFor(link.up, ch), At(link.lost, ch), Buffered(b, c, ch), At(net.consumed, (c, ch)),
            ch in link.lost, IsOpen(b, c, ch), Known(b, c, ch))
  }

  /** What the server has of a channel: everything its consumers were given, then what is still buffered. */
  function Received(a: Account): Bytes {
    a.consumed + a.buffered
  }

  /** Nothing is lost, repeated, reordered or mixed up between the local socket and the stream's consumer. */
  predicate Conserved(a: Account) {
    && Received(a) <= a.taken
    && (a.open ==> a.known && Received(a) + a.inFlight + a.lost == a.taken)
    && (!a.known ==> a.taken == [] && a.inFlight == [] && a.lost == [] && a.consumed == [])
    && (!a.broken ==> a.lost == [])
  }

  /** Only the forwarders and the heartbeat answers write to a link. */
  predicate AgentFrames(up: seq<Frame>) {
    forall i :: 0 <= i < |up| ==> up[i].kind in {SessionData, Heartbeat}
  }

  ghost predicate AllConserved(net: Net) {
    forall c, ch :: Conserved(AccountOf(net, c, ch))
  }

  ghost predicate AllAgentFrames(net: Net) {
    forall c :: AgentFrames(LinkOf(net, c).up)
  }

  /** What the wires are like, as far as the agents depend on it: no agent is ahead of its wire. */
  ghost predicate WiresOk(net: Net) {
    && AllLinked(net.sys.broker) && AllOpenOnce(net.sys.broker)
    && forall c :: LinkOf(net, c).seen <= |Wire(net.sys, c)|
  }

  ghost predicate NetInv(net: Net) {
    Inv(net.sys) && WiresOk(net) && AllConserved(net) && AllAgentFrames(net)
  }

  /** A channel that the agent forwards for is one that the server has opened. */
  lemma ForwardsKnown(net: Net, c: ConnId, ch: Str)
    requires WiresOk(net) && Forwards(net, c, ch)
    ensures Known(net.sys.broker, c, ch)
  {
    assert LinkOf(net, c).seen <= |Wire(net.sys, c)|;
    if c in net.sys.broker.conns {
      var conn := net.sys.broker.conns[c];
      assert WireLinked(conn) && OpensOnce(conn.wire);
      ForwardersAreKnown(conn, LinkOf(net, c).seen, ch);
    }
  }

  // ---------------------------------------------------------------- what the broker's own steps leave alone

  /** Buffers stay as they are, and a channel is open only if it was or is brand new. */
  ghost predicate QuietAt(b: Broker, t: Broker, c: ConnId, ch: Str) {
    && Buffered(t, c, ch) == Buffered(b, c, ch)
    && (IsOpen(t, c, ch) ==> IsOpen(b, c, ch) || !Known(b, c, ch))
    && (Known(b, c, ch) ==> Known(t, c, ch))
  }

  lemma WriteQuiet(b: Broker, d: ConnId, f: Frame, c: ConnId, ch: Str)
    requires d in b.conns
    ensures QuietAt(b, WriteFrame(b, d, f).0, c, ch)
  {
  }

  lemma SendQuiet(b: Broker, kind: FrameType, channel: Str, requestId: Str, payload: Bytes, c: ConnId, ch: Str)
    requires AgentsOk(b)
    ensures QuietAt(b, SendOnChannel(b, kind, channel, requestId, payload).0, c, ch)
  {
    match ChannelConnection(b, channel)
    case Err(_) =>
    case Ok(d) =>
      assert AgentOk(b, b.routes[channel]);
      WriteQuiet(b, d, Frame(kind, requestId, Some(channel), payload), c, ch);
  }

  lemma AttachQuiet(b: Broker, agent: AgentId, d: ConnId, channel: Str, c: ConnId, ch: Str)
    requires d in b.conns && channel !in b.conns[d].streams
    ensures QuietAt(b, Attach(b, agent, d, channel), c, ch)
  {
  }

  lemma OpenQuiet(b: Broker, agent: AgentId, channel: Str, f: Frame, checks: OpenChecks, c: ConnId, ch: Str)
    requires AgentsOk(b) && ConnsOk(b)
    ensures QuietAt(b, OpenOnAgent(b, agent, channel, f, checks).0, c, ch)
  {
    if OpenRefusal(b, agent, channel, checks).None? {
      assert AgentOk(b, agent);
      var d := b.connections[agent];
      assert ConnOk(b.conns[d], b.maxSessions);
      AttachQuiet(b, agent, d, channel, c, ch);
      WriteQuiet(Attach(b, agent, d, channel), d, f, c, ch);
    }
  }

  lemma RegisterQuiet(b: Broker, agent: AgentId, d: ConnId, requestId: Str, c: ConnId, ch: Str)
    requires d !in b.conns
    ensures QuietAt(b, Register(b, agent, d, requestId).0, c, ch)
  {
  }

  lemma MarkQuiet(b: Broker, d: ConnId, channel: Str, c: ConnId, ch: Str)
    requires d in b.conns && channel in b.conns[d].streams
    ensures QuietAt(b, SetStream(b, d, channel, b.conns[d].streams[channel].(closed := true)), c, ch)
    ensures Known(SetStream(b, d, channel, b.conns[d].streams[channel].(closed := true)), c, ch) ==> Known(b, c, ch)
  {
  }

  lemma RetireQuiet(b: Broker, d: ConnId, channel: Str, c: ConnId, ch: Str)
    requires d in b.conns
    ensures QuietAt(b, Retire(b, d, channel).0, c, ch)
  {
  }

  lemma EndQuiet(conn: Conn, ch: Str)
    ensures ch in conn.streams <==> ch in EndStreams(conn).streams
    ensures ch in conn.streams ==> EndStreams(conn).streams[ch].buffer == conn.streams[ch].buffer
    ensures EndStreams(conn).open == conn.open
  {
  }

  lemma DropQuiet(b: Broker, agent: AgentId, d: ConnId, c: ConnId, ch: Str)
    requires agent in b.connections ==> b.connections[agent] in b.conns
    ensures QuietAt(b, Drop(b, agent, d), c, ch)
  {
    var t := Drop(b, agent, d);
    if c in b.conns {
      EndQuiet(b.conns[c], ch);
      assert t.conns[c] == b.conns[c] || t.conns[c] == EndStreams(b.conns[c]);
    }
  }

  lemma CloseStreamQuiet(s: System, d: ConnId, channel: Str, requestId: Str, c: ConnId, ch: Str)
    requires Inv(s) && d in s.broker.conns && channel in s.broker.conns[d].streams
    ensures QuietAt(s.broker, CloseStream(s, d, channel, requestId).0.broker, c, ch)
  {
    CloseStreamShape(s, d, channel, requestId);
    MarkQuiet(s.broker, d, channel, c, ch);
    SendQuiet(SetStream(s.broker, d, channel, s.broker.conns[d].streams[channel].(closed := true)),
              CloseSession, channel, requestId, [], c, ch);
  }

  lemma ErrorFrameQuiet(b: Broker, d: ConnId, requestId: Str, c: ConnId, ch: Str)
    requires d in b.conns
    ensures QuietAt(b, WriteErrorFrame(b, d, requestId), c, ch)
  {
  }

  lemma BrokerStepQuiet(s: System, step: Step, c: ConnId, ch: Str)
    requires Inv(s) && Enabled(s, step) && !step.SAgentFrame? && !step.SRead?
    ensures QuietAt(s.broker, Next(s, step).0.broker, c, ch)
  {
    var b := s.broker;
    match step
    case SRegister(agent, d, requestId) => RegisterQuiet(b, agent, d, requestId, c, ch);
    case SOpen(agent, channel, requestId, payload, checks) =>
      OpenQuiet(b, agent, channel, OpenFrame(channel, requestId, payload), checks, c, ch);
    case SData(channel, requestId, payload) => SendQuiet(b, SessionData, channel, requestId, payload, c, ch);
    case SResize(channel, requestId, payload) => SendQuiet(b, ResizePty, channel, requestId, payload, c, ch);
    case SCloseBegin(channel, requestId) => SendQuiet(b, CloseSession, channel, requestId, [], c, ch);
    case SStreamClose(d, channel, requestId) => CloseStreamQuiet(s, d, channel, requestId, c, ch);
    case SCloseEnd(d, channel) =>
      CloserHasConn(s, d, channel);
      RetireQuiet(b, d, channel, c, ch);
    case SCloseAbort(d, channel) =>
    case SErrorFrame(d, requestId) =>
      HandlerHasConn(s, d);
      ErrorFrameQuiet(b, d, requestId, c, ch);
    case SDrop(agent, d) =>
      if agent in b.connections { assert AgentOk(b, agent); }
      DropQuiet(b, agent, d, c, ch);
  }

  // ---------------------------------------------------------------- every step keeps it

  lemma QuietKeeps(net: Net, sys: System, c: ConnId, ch: Str)
    requires Conserved(AccountOf(net, c, ch)) && QuietAt(net.sys.broker, sys.broker, c, ch)
    requires IsOpen(sys.broker, c, ch) ==> Known(sys.broker, c, ch)
    ensures Conserved(AccountOf(net.(sys := sys), c, ch))
  {
  }

  lemma OpenIsKnown(s: System, c: ConnId, ch: Str)
    requires Inv(s) && IsOpen(s.broker, c, ch)
    ensures Known(s.broker, c, ch)
  {
    assert ConnOk(s.broker.conns[c], s.broker.maxSessions);
  }

  lemma TakeKeeps(a: Account, payload: Bytes)
    requires Conserved(a) && a.known && !a.broken
    ensures Conserved(a.(taken := a.taken + payload, inFlight := a.inFlight + payload))
    ensures Conserved(a.(taken := a.taken + payload, lost := payload, broken := true))
  {
  }

  lemma ForwardEffect(net: Net, d: ConnId, channel: Str, payload: Bytes, c: ConnId, ch: Str)
    requires Known(net.sys.broker, d, channel) && channel !in LinkOf(net, d).lost
    ensures var a, t := AccountOf(net, c, ch), AccountOf(Forward(net, d, channel, payload), c, ch);
            if (c, ch) != (d, channel) then t == a
            else if net.agentEncodeError(Frame(SessionData, channel + Lit(":data"), Some(channel), payload)).None?
            then t == a.(taken := a.taken + payload, inFlight := a.inFlight + payload)
            else t == a.(taken := a.taken + payload, lost := payload, broken := true)
  {
    var link, link', f := LinkOf(net, c), LinkOf(Forward(net, d, channel, payload), c), DataFrame(channel, payload);
    DataForAppend(LinkOf(net, d).up, f, ch);
    assert PayloadFor(f, ch) == if ch == channel then payload else [];
    assert DataFor(link.up, ch) + [] == DataFor(link.up, ch);
    if c != d { assert link' == link; }
  }

  lemma ForwardKeeps(net: Net, d: ConnId, channel: Str, payload: Bytes, c: ConnId, ch: Str)
    requires Known(net.sys.broker, d, channel) && channel !in LinkOf(net, d).lost && Conserved(AccountOf(net, c, ch))
    ensures Conserved(AccountOf(Forward(net, d, channel, payload), c, ch))
  {
    ForwardEffect(net, d, channel, payload, c, ch);
    if (c, ch) == (d, channel) {
      TakeKeeps(AccountOf(net, c, ch), payload);
    }
  }

  lemma BeatKeeps(net: Net, d: ConnId, requestId: Str, c: ConnId, ch: Str)
    requires Conserved(AccountOf(net, c, ch))
    ensures Conserved(AccountOf(Beat(net, d, requestId), c, ch))
  {
    var f := Frame(Heartbeat, requestId, None, []);
    DataForAppend(LinkOf(net, d).up, f, ch);
    assert DataFor(LinkOf(net, d).up, ch) + [] == DataFor(LinkOf(net, d).up, ch);
    assert AccountOf(Beat(net, d, requestId), c, ch) == AccountOf(net, c, ch);
  }

  lemma SeesKeeps(net: Net, d: ConnId, c: ConnId, ch: Str)
    requires Conserved(AccountOf(net, c, ch))
    ensures Conserved(AccountOf(Sees(net, d), c, ch))
  {
    assert AccountOf(Sees(net, d), c, ch) == AccountOf(net, c, ch);
  }

  lemma GiveKeeps(a: Account, payload: Bytes, rest: Bytes)
    requires Conserved(a) && a.inFlight == payload + rest
    ensures Conserved(a.(inFlight := rest, buffered := a.buffered + if a.open then payload else []))
  {
    if a.open {
      var t := a.(inFlight := rest, buffered := a.buffered + payload);
      assert Received(t) == Received(a) + payload;
      assert Received(t) + rest + a.lost == Received(a) + (payload + rest) + a.lost;
    } else {
      assert a.buffered + [] == a.buffered;
    }
  }

  lemma FeedEffect(b: Broker, d: ConnId, channel: Str, stream: Stream, c: ConnId, ch: Str)
    requires d in b.conns && channel in b.conns[d].streams
    ensures var t := SetStream(b, d, channel, stream);
            && Buffered(t, c, ch) == (if (c, ch) == (d, channel) then stream.buffer else Buffered(b, c, ch))
            && IsOpen(t, c, ch) == IsOpen(b, c, ch) && Known(t, c, ch) == Known(b, c, ch)
  {
  }

  /** What handling one frame of the agent does to a buffer. */
  lemma DeliverEffect(b: Broker, d: ConnId, f: Frame, c: ConnId, ch: Str)
    requires d in b.conns && ConnOk(b.conns[d], b.maxSessions) && f.kind in {SessionData, Heartbeat}
    ensures var t := AgentFrame(b, d, f).0;
            && Buffered(t, c, ch)
               == Buffered(b, c, ch) + (if c == d && IsOpen(b, c, ch) then PayloadFor(f, ch) else [])
            && IsOpen(t, c, ch) == IsOpen(b, c, ch) && Known(t, c, ch) == Known(b, c, ch)
  {
    if f.kind == SessionData && f.channelId.Some? && f.channelId.value in b.conns[d].open {
      var channel := f.channelId.value;
      var stream := b.conns[d].streams[channel];
      FeedEffect(b, d, channel, stream.(buffer := stream.buffer + f.payload), c, ch);
    }
  }

  lemma DeliverAccount(net: Net, t: Net, d: ConnId, c: ConnId, ch: Str, f: Frame)
    requires Buffered(t.sys.broker, c, ch) == Buffered(net.sys.broker, c, ch)
               + (if c == d && IsOpen(net.sys.broker, c, ch) then PayloadFor(f, ch) else [])
    requires IsOpen(t.sys.broker, c, ch) == IsOpen(net.sys.broker, c, ch)
    requires Known(t.sys.broker, c, ch) == Known(net.sys.broker, c, ch)
    requires t.consumed == net.consumed && LinkOf(net, d).up != [] && f == LinkOf(net, d).up[0]
    requires LinkOf(t, c) == if c == d then LinkOf(net, d).(up := LinkOf(net, d).up[1..]) else LinkOf(net, c)
    ensures var a, u := AccountOf(net, c, ch), AccountOf(t, c, ch);
            if c != d then u == a
            else a.inFlight == PayloadFor(f, ch) + u.inFlight
                 && u == a.(inFlight := u.inFlight, buffered := a.buffered + if a.open then PayloadFor(f, ch) else [])
  {
    assert Buffered(net.sys.broker, c, ch) + [] == Buffered(net.sys.broker, c, ch);
  }

  lemma DeliverKeeps(net: Net, d: ConnId, c: ConnId, ch: Str)
    requires d in net.sys.broker.conns && ConnOk(net.sys.broker.conns[d], net.sys.broker.maxSessions)
    requires LinkOf(net, d).up != [] && AgentFrames(LinkOf(net, d).up) && Conserved(AccountOf(net, c, ch))
    ensures Conserved(AccountOf(Deliver(net, d), c, ch))
  {
    var b, f, t := net.sys.broker, LinkOf(net, d).up[0], Deliver(net, d);
    DeliverEffect(b, d, f, c, ch);
    DeliverAccount(net, t, d, c, ch, f);
    if c == d {
      GiveKeeps(AccountOf(net, c, ch), PayloadFor(f, ch), AccountOf(t, c, ch).inFlight);
    }
  }

  lemma ReadShape(net: Net, d: ConnId, channel: Str, n: int, c: ConnId, ch: Str)
    requires Known(net.sys.broker, d, channel)
    ensures var b, t := net.sys.broker, Consume(net, d, channel, n);
            var (data, rest) := ReadStream(b.conns[d].streams[channel], n);
            && data + rest.buffer == b.conns[d].streams[channel].buffer
            && t.sys.broker == SetStream(b, d, channel, rest) && t.links == net.links
            && At(t.consumed, (c, ch)) == At(net.consumed, (c, ch)) + (if (c, ch) == (d, channel) then data else [])
  {
    assert At(net.consumed, (c, ch)) + [] == At(net.consumed, (c, ch));
  }

  lemma ReadAccount(net: Net, t: Net, c: ConnId, ch: Str, data: Bytes)
    requires t.links == net.links && At(t.consumed, (c, ch)) == At(net.consumed, (c, ch)) + data
    requires Buffered(net.sys.broker, c, ch) == data + Buffered(t.sys.broker, c, ch)
    requires IsOpen(t.sys.broker, c, ch) == IsOpen(net.sys.broker, c, ch)
    requires Known(t.sys.broker, c, ch) == Known(net.sys.broker, c, ch)
    requires Conserved(AccountOf(net, c, ch)) && (Known(net.sys.broker, c, ch) || data == [])
    ensures Conserved(AccountOf(t, c, ch))
  {
    var a, u := AccountOf(net, c, ch), AccountOf(t, c, ch);
    assert LinkOf(t, c) == LinkOf(net, c);
    assert Received(u) == Received(a) by {
      assert (a.consumed + data) + u.buffered == a.consumed + (data + u.buffered);
    }
  }

  lemma ReadKeeps(net: Net, d: ConnId, channel: Str, n: int, c: ConnId, ch: Str)
    requires Known(net.sys.broker, d, channel) && Conserved(AccountOf(net, c, ch))
    ensures Conserved(AccountOf(Consume(net, d, channel, n), c, ch))
  {
    var b, t := net.sys.broker, Consume(net, d, channel, n);
    var (data, rest) := ReadStream(b.conns[d].streams[channel], n);
    ReadShape(net, d, channel, n, c, ch);
    FeedEffect(b, d, channel, rest, c, ch);
    ReadAccount(net, t, c, ch, if (c, ch) == (d, channel) then data else []);
  }

  lemma LinkKept(link: Link, ch: Str, payload: Bytes, requestId: Str)
    requires AgentFrames(link.up)
    ensures AgentFrames(link.up + [DataFrame(ch, payload)])
    ensures AgentFrames(link.up + [Frame(Heartbeat, requestId, None, [])])
    ensures link.up != [] ==> AgentFrames(link.up[1..])
  {
  }

  lemma AgentFramesKept(net: Net, step: NetStep, c: ConnId)
    requires Inv(net.sys) && NetEnabled(net, step) && AgentFrames(LinkOf(net, c).up)
    ensures AgentFrames(LinkOf(NetNext(net, step), c).up)
  {
    var link := LinkOf(net, c);
    match step
    case NBroker(_) =>
    case NForward(_, ch, payload) => LinkKept(link, ch, payload, []);
    case NBeat(_, requestId) => LinkKept(link, [], [], requestId);
    case NDispatch(_) =>
    case NDeliver(_) => LinkKept(link, [], [], []);
    case NRead(_, _, _) =>
  }

  lemma TablesKept(net: Net, step: NetStep)
    requires Inv(net.sys) && NetEnabled(net, step)
    ensures Inv(NetNext(net, step).sys)
  {
    match step
    case NBroker(s) => StepKeepsInv(net.sys, s);
    case NForward(_, _, _) =>
    case NBeat(_, _) =>
    case NDispatch(_) =>
    case NDeliver(d) =>
      HandlerHasConn(net.sys, d);
      DeliverIsStep(net.sys, d, LinkOf(net, d).up[0]);
      StepKeepsInv(net.sys, SAgentFrame(d, LinkOf(net, d).up[0]));
    case NRead(d, channel, n) =>
      ConsumeIsStep(net.sys, d, channel, n);
      StepKeepsInv(net.sys, SRead(d, channel, n));
  }

  /** The broker's step within a step of the net, if there is one. */
  function BrokerStep(net: Net, step: NetStep): Option<Step>
    requires Inv(net.sys) && NetEnabled(net, step)
  {
    match step
    case NBroker(s) => Some(s)
    case NDeliver(c) => Some(SAgentFrame(c, LinkOf(net, c).up[0]))
    case NRead(c, ch, n) => Some(SRead(c, ch, n))
    case _ => None
  }

  lemma BrokerStepIs(net: Net, step: NetStep)
    requires Inv(net.sys) && NetEnabled(net, step)
    ensures match BrokerStep(net, step)
            case None => NetNext(net, step).sys == net.sys
            case Some(s) => Enabled(net.sys, s) && NetNext(net, step).sys == Next(net.sys, s).0
  {
    match step
    case NDeliver(d) =>
      HandlerHasConn(net.sys, d);
      DeliverIsStep(net.sys, d, LinkOf(net, d).up[0]);
    case NRead(d, channel, n) => ConsumeIsStep(net.sys, d, channel, n);
    case _ =>
  }

  lemma WireKeepsGrowing(s: System, step: Step, c: ConnId)
    requires Inv(s) && Enabled(s, step)
    ensures |Wire(s, c)| <= |Wire(Next(s, step).0, c)|
  {
    if c in s.broker.conns { StepWire(s, step, c); }
  }

  lemma SeenAfter(net: Net, step: NetStep, c: ConnId)
    requires Inv(net.sys) && NetEnabled(net, step)
    ensures LinkOf(NetNext(net, step), c).seen
         == LinkOf(net, c).seen + if step.NDispatch? && step.conn == c then 1 else 0
  {
  }

  lemma WiresKept(net: Net, step: NetStep)
    requires Inv(net.sys) && WiresOk(net) && NetEnabled(net, step)
    ensures WiresOk(NetNext(net, step))
  {
    var t, s := NetNext(net, step), BrokerStep(net, step);
    BrokerStepIs(net, step);
    if s.Some? {
      LinkedKept(net.sys, s.value);
      OpensOnceKept(net.sys, s.value);
    }
    forall c ensures LinkOf(t, c).seen <= |Wire(t.sys, c)| {
      SeenAfter(net, step, c);
      assert LinkOf(net, c).seen <= |Wire(net.sys, c)|;
      if s.Some? { WireKeepsGrowing(net.sys, s.value, c); }
    }
  }

  lemma BrokerKeeps(net: Net, step: Step, c: ConnId, ch: Str)
    requires Inv(net.sys) && NetEnabled(net, NBroker(step)) && Conserved(AccountOf(net, c, ch))
    ensures Conserved(AccountOf(NetNext(net, NBroker(step)), c, ch))
  {
    var t := Next(net.sys, step).0;
    BrokerStepQuiet(net.sys, step, c, ch);
    StepKeepsInv(net.sys, step);
    if IsOpen(t.broker, c, ch) { OpenIsKnown(t, c, ch); }
    QuietKeeps(net, t, c, ch);
  }

  lemma ConservedKept(net: Net, step: NetStep, c: ConnId, ch: Str)
    requires Inv(net.sys) && WiresOk(net) && AllAgentFrames(net) && NetEnabled(net, step)
    requires Conserved(AccountOf(net, c, ch))
    ensures Conserved(AccountOf(NetNext(net, step), c, ch))
  {
    match step
    case NBroker(s) => BrokerKeeps(net, s, c, ch);
    case NForward(d, channel, payload) =>
      ForwardsKnown(net, d, channel);
      ForwardKeeps(net, d, channel, payload, c, ch);
    case NBeat(d, requestId) => BeatKeeps(net, d, requestId, c, ch);
    case NDispatch(d) => SeesKeeps(net, d, c, ch);
    case NDeliver(d) =>
      HandlerHasConn(net.sys, d);
      assert AgentFrames(LinkOf(net, d).up) && ConnOk(net.sys.broker.conns[d], net.sys.broker.maxSessions);
      DeliverKeeps(net, d, c, ch);
    case NRead(d, channel, n) => ReadKeeps(net, d, channel, n, c, ch);
  }

  lemma NetStepKeeps(net: Net, step: NetStep)
    requires NetInv(net) && NetEnabled(net, step)
    ensures NetInv(NetNext(net, step))
  {
    TablesKept(net, step);
    WiresKept(net, step);
    var t := NetNext(net, step);
    forall c ensures AgentFrames(LinkOf(t, c).up) {
      assert AgentFrames(LinkOf(net, c).up);
      AgentFramesKept(net, step, c);
    }
    forall c, ch ensures Conserved(AccountOf(NetNext(net, step), c, ch)) {
      assert Conserved(AccountOf(net, c, ch));
      ConservedKept(net, step, c, ch);
    }
  }

  // ---------------------------------------------------------------- runs

  /** A new broker, with no agent connected yet. */
  ghost function FirstNet(maxSessions: int, maxFrameBytes: int, encodeError: (Frame, int) -> Option<ProtocolError>,
                          agentEncodeError: Frame -> Option<ProtocolError>): (net: Net)
    ensures NetInv(net)
  {
    Net(Initial(maxSessions, maxFrameBytes, encodeError), map[], map[], agentEncodeError)
  }

  ghost predicate IsNetRun(net: Net, steps: seq<NetStep>)
    requires NetInv(net)
    decreases |steps|
  {
    steps == []
    || (NetEnabled(net, steps[0]) && (NetStepKeeps(net, steps[0]); IsNetRun(NetNext(net, steps[0]), steps[1..])))
  }

  ghost function NetAfter(net: Net, steps: seq<NetStep>): (t: Net)
    requires NetInv(net) && IsNetRun(net, steps)
    ensures NetInv(t)
    decreases |steps|
  {
    if steps == [] then net else (NetStepKeeps(net, steps[0]); NetAfter(NetNext(net, steps[0]), steps[1..]))
  }

  /**
   From an empty broker, whatever the channels, heartbeats, drops, closes and reads in between. Upwards: what a stream's
   consumers were given, then its buffer, is a prefix of what the agent read from that channel's socket, and while the
   channel is open the frames under way and a chunk that could not be sent are exactly the rest. Downwards: what the
   socket was given, then the payloads not yet dispatched, is what the wire carries for the channel.
   */
  lemma BytesConserved(maxSessions: int, maxFrameBytes: int, encodeError: (Frame, int) -> Option<ProtocolError>,
                       agentEncodeError: Frame -> Option<ProtocolError>, steps: seq<NetStep>, c: ConnId, ch: Str)
    requires IsNetRun(FirstNet(maxSessions, maxFrameBytes, encodeError, agentEncodeError), steps)
    ensures var net := NetAfter(FirstNet(maxSessions, maxFrameBytes, encodeError, agentEncodeError), steps);
            var link, sent := LinkOf(net, c), At(LinkOf(net, c).read, ch);
            var given := At(net.consumed, (c, ch)) + Buffered(net.sys.broker, c, ch);
            && given <= sent
            && (IsOpen(net.sys.broker, c, ch) && ch !in link.lost ==> given + DataFor(link.up, ch) == sent)
    ensures var net := NetAfter(FirstNet(maxSessions, maxFrameBytes, encodeError, agentEncodeError), steps);
            var wire, seen := Wire(net.sys, c), LinkOf(net, c).seen;
            seen <= |wire|
            && (Forwards(net, c, ch) ==>
                  AgentNow(net, c).channels[ch] + DataFor(wire[seen..], ch) == DataFor(wire, ch))
  {
    var net := NetAfter(FirstNet(maxSessions, maxFrameBytes, encodeError, agentEncodeError), steps);
    var a := AccountOf(net, c, ch);
    assert Conserved(a);
    assert Received(a) + a.inFlight + [] == Received(a) + a.inFlight;
    Downwards(net, c, ch);
  }

  // ---------------------------------------------------------------- what a reader gets

  /**
   One read: as much as was asked for, or all that has arrived, from the front of the buffer. So a read of at least one
   octet comes back empty only at the end of the stream, and one of a buffer that holds something gets something.
   */
  lemma ReadGives(net: Net, c: ConnId, ch: Str, n: int)
    requires NetInv(net) && NetEnabled(net, NRead(c, ch, n))
    ensures var t, buffer := NetNext(net, NRead(c, ch, n)), Buffered(net.sys.broker, c, ch);
            var taken := if 0 <= n < |buffer| then n else |buffer|;
            && At(t.consumed, (c, ch)) == At(net.consumed, (c, ch)) + buffer[..taken]
            && Buffered(t.sys.broker, c, ch) == buffer[taken..]
            && (n != 0 && taken == 0 ==> buffer == [] && net.sys.broker.conns[c].streams[ch].closed)
            && t.links == net.links && t.consumed == net.consumed[(c, ch) := At(t.consumed, (c, ch))]
  {
  }

  lemma ReadMovesOn(net: Net, c: ConnId, ch: Str, n: int)
    requires NetInv(net) && NetEnabled(net, NRead(c, ch, n)) && n != 0
    ensures var t, buffer := NetNext(net, NRead(c, ch, n)), Buffered(net.sys.broker, c, ch);
            && At(t.consumed, (c, ch)) + Buffered(t.sys.broker, c, ch) == At(net.consumed, (c, ch)) + buffer
            && |Buffered(t.sys.broker, c, ch)| <= (if buffer == [] then 0 else |buffer| - 1)
  {
    ReadGives(net, c, ch, n);
    var buffer := Buffered(net.sys.broker, c, ch);
    var taken := if 0 <= n < |buffer| then n else |buffer|;
    assert buffer == buffer[..taken] + buffer[taken..];
    Associates(At(net.consumed, (c, ch)), buffer[..taken], buffer[taken..]);
  }

  /** Reads of one stream, each for at least one octet or for everything. */
  predicate Reads(steps: seq<NetStep>, c: ConnId, ch: Str) {
    steps == []
    || (steps[0].NRead? && steps[0].conn == c && steps[0].channel == ch && steps[0].n != 0 && Reads(steps[1..], c, ch))
  }

  /** Reading on gives what has arrived, in order: as many reads as there are octets, or fewer, give all of it. */
  lemma {:induction false} ReadingOnGivesAll(net: Net, steps: seq<NetStep>, c: ConnId, ch: Str)
    requires NetInv(net) && IsNetRun(net, steps) && Reads(steps, c, ch)
    ensures var t, buffer := NetAfter(net, steps), Buffered(net.sys.broker, c, ch);
            && At(t.consumed, (c, ch)) + Buffered(t.sys.broker, c, ch) == At(net.consumed, (c, ch)) + buffer
            && |Buffered(t.sys.broker, c, ch)| <= (if |steps| < |buffer| then |buffer| - |steps| else 0)
    decreases |steps|
  {
    if steps != [] {
      NetStepKeeps(net, steps[0]);
      ReadMovesOn(net, c, ch, steps[0].n);
      ReadingOnGivesAll(NetNext(net, steps[0]), steps[1..], c, ch);
    }
  }

  lemma NetRunCons(net: Net, step: NetStep, rest: seq<NetStep>)
    requires NetInv(net) && NetEnabled(net, step) && NetInv(NetNext(net, step)) && IsNetRun(NetNext(net, step), rest)
    ensures IsNetRun(net, [step] + rest) && NetAfter(net, [step] + rest) == NetAfter(NetNext(net, step), rest)
  {
    assert ([step] + rest)[1..] == rest;
  }

  lemma ReadTheRest(net: Net, c: ConnId, ch: Str) returns (steps: seq<NetStep>)
    requires NetInv(net) && Known(net.sys.broker, c, ch)
    ensures IsNetRun(net, steps) && NetAfter(net, steps).links == net.links
    ensures At(NetAfter(net, steps).consumed, (c, ch)) == At(net.consumed, (c, ch)) + Buffered(net.sys.broker, c, ch)
  {
    var step := NRead(c, ch, -1);
    if Buffered(net.sys.broker, c, ch) == [] {
      steps := [];
      assert At(net.consumed, (c, ch)) + [] == At(net.consumed, (c, ch));
    } else {
      steps := [step] + [];
      NetStepKeeps(net, step);
      ReadGives(net, c, ch, -1);
      NetRunCons(net, step, []);
      assert Buffered(net.sys.broker, c, ch)[..|Buffered(net.sys.broker, c, ch)|] == Buffered(net.sys.broker, c, ch);
    }
  }

  lemma DeliverGoesOn(net: Net, c: ConnId, ch: Str)
    requires NetInv(net) && NetEnabled(net, NDeliver(c)) && IsOpen(net.sys.broker, c, ch)
    ensures var t := NetNext(net, NDeliver(c));
            && NetInv(t) && IsOpen(t.sys.broker, c, ch) && t.sys.handlers == net.sys.handlers
            && LinkOf(t, c) == LinkOf(net, c).(up := LinkOf(net, c).up[1..])
  {
    NetStepKeeps(net, NDeliver(c));
    HandlerHasConn(net.sys, c);
    assert AgentFrames(LinkOf(net, c).up) && ConnOk(net.sys.broker.conns[c], net.sys.broker.maxSessions);
    DeliverEffect(net.sys.broker, c, LinkOf(net, c).up[0], c, ch);
  }

  /**
   Whatever the agent has read from a socket can reach the reader: while the channel is open and its connection is
   served, there is a way to go on after which the reader has been given exactly that.
   */
  lemma {:induction false} AllCanBeRead(net: Net, c: ConnId, ch: Str) returns (steps: seq<NetStep>)
    requires NetInv(net) && IsOpen(net.sys.broker, c, ch) && c in net.sys.handlers && ch !in LinkOf(net, c).lost
    ensures IsNetRun(net, steps)
    ensures At(NetAfter(net, steps).consumed, (c, ch)) == At(LinkOf(net, c).read, ch)
    decreases |LinkOf(net, c).up|
  {
    if LinkOf(net, c).up == [] {
      OpenIsKnown(net.sys, c, ch);
      steps := ReadTheRest(net, c, ch);
      assert Conserved(AccountOf(net, c, ch));
      assert At(net.consumed, (c, ch)) + Buffered(net.sys.broker, c, ch) + [] + [] == At(LinkOf(net, c).read, ch);
    } else {
      DeliverGoesOn(net, c, ch);
      var rest := AllCanBeRead(NetNext(net, NDeliver(c)), c, ch);
      steps := [NDeliver(c)] + rest;
      NetRunCons(net, NDeliver(c), rest);
    }
  }

  lemma Downwards(net: Net, c: ConnId, ch: Str)
    requires WiresOk(net)
    ensures var wire, seen := Wire(net.sys, c), LinkOf(net, c).seen;
            seen <= |wire|
            && (Forwards(net, c, ch) ==>
                  AgentNow(net, c).channels[ch] + DataFor(wire[seen..], ch) == DataFor(wire, ch))
  {
    var wire, seen := Wire(net.sys, c), LinkOf(net, c).seen;
    assert LinkOf(net, c).seen <= |Wire(net.sys, c)|;
    if Forwards(net, c, ch) {
      if c in net.sys.broker.conns { assert OpensOnce(net.sys.broker.conns[c].wire); }
      OpensOncePrefix(wire, seen);
      GivenSoFar(wire[..seen], wire[seen..], ch);
      assert wire[..seen] + wire[seen..] == wire;
    }
  }
}
