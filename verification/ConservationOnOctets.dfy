/**
 Both directions of a tunnel with the real codec on each: the server encodes its frames and the agent reads them under its
 own limit, the agent encodes what its forwarders read and the server reads that under its configured limit.
 */
module ConservationOnOctets {
  import opened Wrappers
  import opened Collections
  import opened Text
  import opened FrameCodec
  import opened FrameStream
  import opened ChannelData
  import opened BrokerSpec
  import opened BrokerSystem
  import opened AgentOctets
  import opened TunnelSimulation
  import opened TunnelConservation
  import opened TunnelOctets
  import opened TunnelEndToEnd

  /** The most that a forwarder reads from its local socket at once. */
  const CHUNK: nat := 65536

  /** The agent encodes under the limit with which it reads. */
  function AgentCodec(limit: int): Frame -> Option<ProtocolError> {
    (f: Frame) => CodecError(f, limit)
  }

  /** The server's calls fit the agent, the forwarders read in chunks, and heartbeat answers are such as can be encoded. */
  ghost predicate FittingNetStep(step: NetStep, limit: int) {
    match step
    case NBroker(s) => FittingCall(s, limit)
    case NForward(_, _, payload) => |payload| <= CHUNK
    case NBeat(_, requestId) => Sent(Frame(Heartbeat, requestId, None, []))
    case _ => true
  }

  ghost predicate AllFittingNetSteps(steps: seq<NetStep>, limit: int) {
    forall i :: 0 <= i < |steps| ==> FittingNetStep(steps[i], limit)
  }

  // ---------------------------------------------------------------- what the server reads from a link

  lemma WireOctetsAppend(wire: seq<Frame>, f: Frame)
    requires AllSent(wire) && Sent(f)
    ensures AllSent(wire + [f]) && WireOctets(wire + [f]) == WireOctets(wire) + Octets(f)
  {
    assert (wire + [f])[..|wire|] == wire;
  }

  lemma WireOctetsJoin(a: seq<Frame>, init: seq<Frame>, last: Frame, b: seq<Frame>)
    requires AllSent(a) && AllSent(init) && AllSent(a + init) && Sent(last) && b == init + [last]
    requires WireOctets(a + init) == WireOctets(a) + WireOctets(init)
    ensures AllSent(a + b) && AllSent(b) && WireOctets(a + b) == WireOctets(a) + WireOctets(b)
  {
    WireOctetsAppend(a + init, last);
    WireOctetsAppend(init, last);
    Associates(WireOctets(a), WireOctets(init), Octets(last));
    Associates(a, init, [last]);
  }

  lemma AllSentInit(b: seq<Frame>)
    requires AllSent(b) && b != []
    ensures AllSent(b[..|b| - 1]) && Sent(b[|b| - 1]) && b == b[..|b| - 1] + [b[|b| - 1]]
  {
  }

  lemma {:induction false} WireOctetsSplit(a: seq<Frame>, b: seq<Frame>)
    requires AllSent(a) && AllSent(b)
    ensures AllSent(a + b) && WireOctets(a + b) == WireOctets(a) + WireOctets(b)
  {
    if b == [] {
      assert a + b == a;
    } else {
      AllSentInit(b);
      WireOctetsSplit(a, b[..|b| - 1]);
      WireOctetsJoin(a, b[..|b| - 1], b[|b| - 1], b);
    }
  }

  lemma OneFrame(f: Frame)
    requires Sent(f)
    ensures AllSent([f]) && WireOctets([f]) == Octets(f)
  {
    assert [f][..0] == [] && WireOctets([]) + Octets(f) == Octets(f);
  }

  lemma FirstOctets(up: seq<Frame>)
    requires AllSent(up) && up != []
    ensures AllSent(up[1..]) && WireOctets(up) == Octets(up[0]) + WireOctets(up[1..])
  {
    OneFrame(up[0]);
    assert up == [up[0]] + up[1..];
    WireOctetsSplit([up[0]], up[1..]);
  }

  /** The server's reader at the head of a link: the oldest frame as it decodes, or too large for the server. */
  lemma ReadFirst(up: seq<Frame>, maxFrameBytes: int)
    requires AllSent(up) && up != [] && 0 < maxFrameBytes
    ensures ServerRead(WireOctets(up), maxFrameBytes)
         == if |up[0].payload| <= maxFrameBytes then Ok((MergeFrame(up[0]), |Octets(up[0])|))
            else Err(Protocol(PayloadTooLarge))
  {
    var f, rest := up[0], WireOctets(up[1..]);
    FirstOctets(up);
    if |f.payload| <= maxFrameBytes {
      SentUnderLimit(f, maxFrameBytes);
      ServerReadOfEncoding(f, rest, maxFrameBytes);
    } else {
      ReadTooLarge(f, maxFrameBytes);
      ReadMore(Octets(f), rest, maxFrameBytes);
      TooLargeForBoth(Octets(f) + rest, maxFrameBytes);
    }
  }

  lemma TooLargeForBoth(s: Bytes, maxFrameBytes: int)
    requires AgentReadFrame(s, maxFrameBytes) == Failed(BadFrame(PayloadTooLarge))
    ensures ServerRead(s, maxFrameBytes) == Err(Protocol(PayloadTooLarge))
  {
  }

  predicate Within(up: seq<Frame>, maxFrameBytes: int) {
    forall i :: 0 <= i < |up| ==> |up[i].payload| <= maxFrameBytes
  }

  lemma WithinFirst(up: seq<Frame>, maxFrameBytes: int)
    requires up != []
    ensures Within(up, maxFrameBytes) <==> |up[0].payload| <= maxFrameBytes && Within(up[1..], maxFrameBytes)
  {
    assert up == [up[0]] + up[1..];
  }

  /** A reader gets every frame of a link and then its end if and only if no payload is over its limit. */
  lemma {:induction false} LinkReadsBackIff(up: seq<Frame>, maxFrameBytes: int)
    requires AllSent(up) && 0 < maxFrameBytes
    ensures ReadAll(WireOctets(up), maxFrameBytes) == (MergeAll(up), EndOfStream) <==> Within(up, maxFrameBytes)
  {
    if up == [] {
      assert MergeAll(up) == [];
    } else {
      ReadFirst(up, maxFrameBytes);
      FirstOctets(up);
      WithinFirst(up, maxFrameBytes);
      if |up[0].payload| <= maxFrameBytes {
        LinkReadsBackIff(up[1..], maxFrameBytes);
        assert WireOctets(up)[|Octets(up[0])|..] == WireOctets(up[1..]);
        MergeFirst(up, ReadAll(WireOctets(up[1..]), maxFrameBytes).0);
      }
    }
  }

  lemma MergeFirst(up: seq<Frame>, rest: seq<Frame>)
    requires up != []
    ensures [MergeFrame(up[0])] + rest == MergeAll(up) <==> rest == MergeAll(up[1..])
  {
    assert MergeAll(up) == [MergeFrame(up[0])] + MergeAll(up[1..]);
    assert ([MergeFrame(up[0])] + rest)[1..] == rest;
    assert ([MergeFrame(up[0])] + MergeAll(up[1..]))[1..] == MergeAll(up[1..]);
  }

  /** Decoding changes nothing in the data of plain channels. */
  lemma {:induction false} DataOfMerged(frames: seq<Frame>, limit: int, ch: Str)
    requires AllFit(frames, limit)
    ensures DataFor(MergeAll(frames), ch) == DataFor(frames, ch)
  {
    if frames != [] {
      assert Fits(frames[0], limit);
      if frames[0].channelId.Some? { MergePairsFixed(frames[0].channelId.value); }
      assert MergeAll(frames)[1..] == MergeAll(frames[1..]);
      DataOfMerged(frames[1..], limit, ch);
    }
  }

  lemma OctetsInFlight(frames: seq<Frame>, limit: int, bound: int, ch: Str)
    requires AllSent(frames) && AllFit(frames, bound) && bound <= limit && 0 < limit
    ensures ReadAll(WireOctets(frames), limit).1 == EndOfStream
    ensures DataFor(ReadAll(WireOctets(frames), limit).0, ch) == DataFor(frames, ch)
  {
    assert forall i :: 0 <= i < |frames| ==> Fits(frames[i], bound);
    LinkReadsBackIff(frames, limit);
    DataOfMerged(frames, bound, ch);
  }

  // ---------------------------------------------------------------- the invariant

  ghost predicate LinkFits(up: seq<Frame>) {
    AllSent(up) && AllFit(up, CHUNK)
  }

  /** Every wire and every link holds frames that were encoded and that read back as they were written. */
  ghost predicate NetOnOctets(net: Net, limit: int) {
    && OnOctets(net.sys) && WiresFit(net.sys.broker, limit) && net.agentEncodeError == AgentCodec(limit)
    && forall c :: LinkFits(LinkOf(net, c).up)
  }

  /** A channel that the agent forwards for has a plain id. */
  lemma ForwardsPlain(net: Net, c: ConnId, ch: Str, limit: int)
    requires WiresOk(net) && NetOnOctets(net, limit) && Forwards(net, c, ch)
    ensures !HasPair(ch)
  {
    var wire, seen := Wire(net.sys, c), LinkOf(net, c).seen;
    assert LinkOf(net, c).seen <= |Wire(net.sys, c)|;
    assert AllFit(wire, limit);
    OpenedFits(wire[..seen], limit);
    ChannelsOpened(wire[..seen]);
  }

  lemma LinkFitsAppend(up: seq<Frame>, f: Frame)
    requires LinkFits(up) && Sent(f) && Fits(f, CHUNK)
    ensures LinkFits(up + [f])
  {
  }

  lemma ForwardFits(net: Net, c: ConnId, ch: Str, payload: Bytes, limit: int)
    requires WiresOk(net) && NetOnOctets(net, limit) && Forwards(net, c, ch) && |payload| <= CHUNK
    ensures LinkFits(LinkOf(Forward(net, c, ch, payload), c).up)
  {
    var f := DataFrame(ch, payload);
    assert LinkFits(LinkOf(net, c).up);
    ForwardsPlain(net, c, ch, limit);
    SentUnderLimit(f, limit);
    if net.agentEncodeError(f).None? { LinkFitsAppend(LinkOf(net, c).up, f); }
  }

  lemma LinkFitsRest(up: seq<Frame>)
    requires LinkFits(up) && up != []
    ensures LinkFits(up[1..])
  {
  }

  lemma BeatFits(up: seq<Frame>, requestId: Str)
    requires LinkFits(up) && Sent(Frame(Heartbeat, requestId, None, []))
    ensures LinkFits(up + [Frame(Heartbeat, requestId, None, [])])
  {
    LinkFitsAppend(up, Frame(Heartbeat, requestId, None, []));
  }

  /** What a step does to the frames on one link. */
  lemma LinkAfter(net: Net, step: NetStep, c: ConnId)
    requires Inv(net.sys) && NetEnabled(net, step)
    ensures var up, after := LinkOf(net, c).up, LinkOf(NetNext(net, step), c).up;
            match step
            case NForward(d, ch, payload) => d != c ==> after == up
            case NBeat(d, requestId) =>
              after == if d == c then up + [Frame(Heartbeat, requestId, None, [])] else up
            case NDeliver(d) => after == if d == c then up[1..] else up
            case _ => after == up
  {
  }

  lemma LinkFitsKept(net: Net, step: NetStep, limit: int, c: ConnId)
    requires Inv(net.sys) && WiresOk(net) && NetOnOctets(net, limit) && NetEnabled(net, step)
    requires FittingNetStep(step, limit)
    ensures LinkFits(LinkOf(NetNext(net, step), c).up)
  {
    var up := LinkOf(net, c).up;
    assert LinkFits(up);
    LinkAfter(net, step, c);
    match step
    case NForward(d, ch, payload) => if d == c { ForwardFits(net, d, ch, payload, limit); }
    case NBeat(d, requestId) => if d == c { BeatFits(up, requestId); }
    case NDeliver(d) => if d == c { LinkFitsRest(up); }
    case _ =>
  }

  lemma FittingBrokerStep(net: Net, step: NetStep, limit: int)
    requires Inv(net.sys) && NetEnabled(net, step) && FittingNetStep(step, limit) && 0 < limit
    ensures BrokerStep(net, step).Some? ==> FittingCall(BrokerStep(net, step).value, limit)
  {
  }

  lemma NetOnOctetsKept(net: Net, step: NetStep, limit: int)
    requires NetInv(net) && NetOnOctets(net, limit) && NetEnabled(net, step) && FittingNetStep(step, limit) && 0 < limit
    ensures NetOnOctets(NetNext(net, step), limit)
  {
    var t, s := NetNext(net, step), BrokerStep(net, step);
    BrokerStepIs(net, step);
    FittingBrokerStep(net, step, limit);
    if s.Some? {
      OnOctetsKept(net.sys, s.value);
      WiresFitKept(net.sys, s.value, limit);
    }
    forall c ensures LinkFits(LinkOf(t, c).up) {
      LinkFitsKept(net, step, limit, c);
    }
  }

  lemma {:induction false} NetOnOctetsHolds(net: Net, steps: seq<NetStep>, limit: int)
    requires NetInv(net) && NetOnOctets(net, limit) && IsNetRun(net, steps) && AllFittingNetSteps(steps, limit)
    requires 0 < limit
    ensures NetOnOctets(NetAfter(net, steps), limit)
    decreases |steps|
  {
    if steps != [] {
      assert FittingNetStep(steps[0], limit);
      NetStepKeeps(net, steps[0]);
      NetOnOctetsKept(net, steps[0], limit);
      NetOnOctetsHolds(NetNext(net, steps[0]), steps[1..], limit);
    }
  }

  // ---------------------------------------------------------------- the results

  /** A new server and agents that use the repository's codec, each with its own limit. */
  ghost function FirstOnOctets(maxSessions: int, maxFrameBytes: int, limit: int): (net: Net)
    ensures NetInv(net) && NetOnOctets(net, limit)
  {
    FirstNet(maxSessions, maxFrameBytes, CodecError, AgentCodec(limit))
  }

  /** Reading the octets of a link and handling what they decode to is handling the frame that was written. */
  lemma DeliverIsRead(net: Net, c: ConnId, limit: int)
    requires NetOnOctets(net, limit) && c in net.sys.broker.conns && LinkOf(net, c).up != []
    requires CHUNK <= net.sys.broker.maxFrameBytes
    ensures var b, up := net.sys.broker, LinkOf(net, c).up;
            AllSent(up) && AllSent(up[1..])
            && match ServerRead(WireOctets(up), b.maxFrameBytes)
               case Err(_) => false
               case Ok((f, n)) =>
                 n <= |WireOctets(up)| && WireOctets(up)[n..] == WireOctets(up[1..])
                 && AgentFrame(b, c, f) == AgentFrame(b, c, up[0])
  {
    var up := LinkOf(net, c).up;
    assert LinkFits(up) && Fits(up[0], CHUNK);
    ReadFirst(up, net.sys.broker.maxFrameBytes);
    FirstOctets(up);
    MergedIsHandledAlike(net.sys.broker, c, up[0]);
  }

  lemma MergedIsHandledAlike(b: Broker, c: ConnId, f: Frame)
    requires c in b.conns && Fits(f, CHUNK)
    ensures AgentFrame(b, c, MergeFrame(f)) == AgentFrame(b, c, f)
  {
    if f.channelId.Some? { MergePairsFixed(f.channelId.value); }
  }

  /**
   Conservation in both directions over the octets, for every run with the real codec on both sides. Upwards: the server
   can read every octet in flight to the end, and while a channel is open and no chunk of it was refused by the codec,
   what its consumers were given, then its buffer, then the data that those octets decode to, is what the agent read from
   its socket. Downwards: the agent's loop on the octets it has taken has given the socket what they decode to for it,
   and with what the octets in flight decode to this is all that the wire's octets hold for the channel.
   */
  lemma BytesConservedOnOctets(maxSessions: int, maxFrameBytes: int, limit: int, steps: seq<NetStep>, c: ConnId, ch: Str)
    requires CHUNK <= maxFrameBytes && 0 < limit
    requires IsNetRun(FirstOnOctets(maxSessions, maxFrameBytes, limit), steps) && AllFittingNetSteps(steps, limit)
    ensures var net := NetAfter(FirstOnOctets(maxSessions, maxFrameBytes, limit), steps);
            var link, b := LinkOf(net, c), net.sys.broker;
            var given, sent := At(net.consumed, (c, ch)) + Buffered(b, c, ch), At(link.read, ch);
            AllSent(link.up)
            && var (frames, end) := ReadAll(WireOctets(link.up), maxFrameBytes);
               && end == EndOfStream && given <= sent
               && (IsOpen(b, c, ch) && ch !in link.lost ==> given + DataFor(frames, ch) == sent)
    ensures var net := NetAfter(FirstOnOctets(maxSessions, maxFrameBytes, limit), steps);
            var wire, seen := Wire(net.sys, c), LinkOf(net, c).seen;
            seen <= |wire| && AllSent(wire)
            && var now := AgentLoop(map[], WireOctets(wire[..seen]), limit);
               var (frames, end) := ReadAll(WireOctets(wire[seen..]), limit);
               && now == FromState(AgentNow(net, c)) && end == EndOfStream
               && (now.Ended? && ch in now.channels ==>
                     now.channels[ch] + DataFor(frames, ch) == DataFor(ReadAll(WireOctets(wire), limit).0, ch))
  {
    var first := FirstOnOctets(maxSessions, maxFrameBytes, limit);
    var net := NetAfter(first, steps);
    BytesConserved(maxSessions, maxFrameBytes, CodecError, AgentCodec(limit), steps, c, ch);
    NetOnOctetsHolds(first, steps, limit);
    assert LinkFits(LinkOf(net, c).up);
    OctetsInFlight(LinkOf(net, c).up, maxFrameBytes, CHUNK, ch);
    DownOctets(net, c, ch, limit);
  }

  lemma DownOctets(net: Net, c: ConnId, ch: Str, limit: int)
    requires NetOnOctets(net, limit) && LinkOf(net, c).seen <= |Wire(net.sys, c)| && 0 < limit
    ensures var wire, seen := Wire(net.sys, c), LinkOf(net, c).seen;
            AllSent(wire)
            && var (frames, end) := ReadAll(WireOctets(wire[seen..]), limit);
               && AgentLoop(map[], WireOctets(wire[..seen]), limit) == FromState(AgentNow(net, c))
               && end == EndOfStream && DataFor(frames, ch) == DataFor(wire[seen..], ch)
               && DataFor(ReadAll(WireOctets(wire), limit).0, ch) == DataFor(wire, ch)
  {
    var wire, seen := Wire(net.sys, c), LinkOf(net, c).seen;
    assert AllSent(wire) && AllFit(wire, limit);
    OctetsInFlight(wire, limit, limit, ch);
    OctetsInFlight(wire[seen..], limit, limit, ch);
    LoopOnFitting(wire[..seen], limit);
  }

  lemma LoopOnFitting(wire: seq<Frame>, limit: int)
    requires AllSent(wire) && AllFit(wire, limit) && 0 < limit
    ensures AgentLoop(map[], WireOctets(wire), limit) == FromState(AgentAfter(wire))
  {
    LoopOfWire(map[], wire, limit);
    FittingWire(map[], wire, limit);
  }
}
