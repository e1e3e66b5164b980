/**
 The tunnel from the server's calls to the agent's sockets, over the octets between them: what follows for the agent
 from conditions on the calls alone, each of which its caller can check.
 */
module TunnelEndToEnd {
  import opened Wrappers
  import opened Text
  import opened FrameCodec
  import opened ChannelData
  import opened BrokerSpec
  import opened BrokerSystem
  import opened AgentSpec
  import opened AgentOctets
  import opened TunnelSimulation
  import opened TunnelOpenSet
  import opened TunnelDelivery
  import opened TunnelOrder
  import opened TunnelOctets

  // ---------------------------------------------------------------- conditions on a call

  /** The channel id that a call hands to the codec, if any. */
  function CalledChannel(step: Step): Option<Str> {
    match step
    case SOpen(_, ch, _, _, _) => Some(ch)
    case SData(ch, _, _) => Some(ch)
    case SResize(ch, _, _) => Some(ch)
    case SCloseBegin(ch, _) => Some(ch)
    case SStreamClose(_, ch, _) => Some(ch)
    case _ => None
  }

  function CalledPayload(step: Step): Bytes {
    match step
    case SOpen(_, _, _, payload, _) => payload
    case SData(_, _, payload) => payload
    case SResize(_, _, payload) => payload
    case _ => []
  }

  /** The channel id holds no two separate surrogates that decoding would fuse; a UUID's text never does. */
  ghost predicate PlainCall(step: Step) {
    CalledChannel(step).Some? ==> !HasPair(CalledChannel(step).value)
  }

  ghost predicate FittingCall(step: Step, limit: int) {
    PlainCall(step) && |CalledPayload(step)| <= limit
  }

  /** Short enough an `open_session` to be encoded: ids of at most 300 characters, and a payload within the limit. */
  predicate ShortOpen(step: Step, maxFrameBytes: int) {
    step.SOpen? ==>
      0 < |step.requestId| <= 300 && |step.channel| <= 300 && |step.payload| <= maxFrameBytes
  }

  lemma EmittedOfCall(s: System, step: Step)
    requires Inv(s) && Enabled(s, step) && Emits(s, step).Some?
    ensures var f := Emits(s, step).value.1;
            |f.payload| <= |CalledPayload(step)| && (f.channelId.Some? ==> f.channelId == CalledChannel(step))
  {
  }

  // ---------------------------------------------------------------- agents that fail

  /** The loop has raised, and not because of the server's own ERROR frame. */
  ghost predicate FailedOn(wire: seq<Frame>, limit: int)
    requires AllSent(wire)
  {
    var end := AgentLoop(map[], WireOctets(wire), limit);
    !end.Ended? && end != Rejected(Unsupported)
  }

  ghost predicate SomeFailed(b: Broker, limit: int)
    requires WiresSent(b)
  {
    exists c :: c in b.conns && FailedOn(b.conns[c].wire, limit)
  }

  /** A frame over the agent's limit, or data for a channel that the wire does not announce. */
  ghost predicate Unwelcome(wire: seq<Frame>, f: Frame, limit: int) {
    !HasError(wire) && (|f.payload| > limit || LateFrame(wire, f))
  }

  ghost predicate UnwelcomeStep(s: System, step: Step, limit: int)
    requires Inv(s) && Enabled(s, step)
  {
    var e := Emits(s, step);
    e.Some? && Unwelcome(Wire(s, e.value.0), e.value.1, limit)
  }

  /** For a frame with a plain id, to be mistaken is to be too large or late. */
  lemma PlainMistaken(wire: seq<Frame>, f: Frame, limit: int)
    requires WellFormed(wire, f) && (f.channelId.Some? ==> !HasPair(f.channelId.value))
    ensures Mistaken(wire, f, limit) <==> Unwelcome(wire, f, limit)
  {
    if f.channelId.Some? { MergePairsFixed(f.channelId.value); }
  }

  lemma UnwelcomeHandled(channels: map<Str, Bytes>, f: Frame, limit: int)
    requires f.channelId.Some? ==> f.channelId.value != [] && !HasPair(f.channelId.value)
    requires |f.payload| > limit
             || (f.kind in {SessionData, ResizePty} && f.channelId.Some? && f.channelId.value !in channels)
    ensures var end := Handled(channels, f, limit); !end.Ended? && end != Rejected(Unsupported)
  {
    if f.channelId.Some? { MergePairsFixed(f.channelId.value); }
  }

  /** And such a frame fails the agent. */
  lemma UnwelcomeFrameFails(wire: seq<Frame>, f: Frame, limit: int)
    requires AllSent(wire) && AllSent(wire + [f]) && 0 < limit && InStep(wire, limit)
    requires f.channelId.Some? ==> f.channelId.value != [] && !HasPair(f.channelId.value)
    requires Unwelcome(wire, f, limit)
    ensures FailedOn(wire + [f], limit)
  {
    LoopAppend(wire, f, limit);
    UnwelcomeHandled(AgentLoop(map[], WireOctets(wire), limit).channels, f, limit);
  }

  lemma FailureIsFinal(wire: seq<Frame>, written: seq<Frame>, limit: int)
    requires AllSent(wire) && AllSent(wire + written) && 0 < limit && FailedOn(wire, limit)
    ensures FailedOn(wire + written, limit)
  {
    LoopOfWire(map[], wire, limit);
    LoopOfWire(map[], wire + written, limit);
    HandledSplit(map[], wire, written, limit);
  }

  lemma FailedStays(s: System, step: Step, limit: int)
    requires OnOctets(s) && Enabled(s, step) && OnOctets(Next(s, step).0) && 0 < limit && SomeFailed(s.broker, limit)
    ensures SomeFailed(Next(s, step).0.broker, limit)
  {
    var c :| c in s.broker.conns && FailedOn(s.broker.conns[c].wire, limit);
    StepWire(s, step, c);
    FailureIsFinal(s.broker.conns[c].wire, WrittenTo(Emits(s, step), c), limit);
    assert FailedOn(Next(s, step).0.broker.conns[c].wire, limit);
  }

  lemma {:induction false} FailedStaysRun(s: System, steps: seq<Step>, limit: int)
    requires OnOctets(s) && IsRun(s, steps) && OnOctets(After(s, steps)) && 0 < limit && SomeFailed(s.broker, limit)
    ensures SomeFailed(After(s, steps).broker, limit)
    decreases |steps|
  {
    if steps != [] {
      OnOctetsKept(s, steps[0]);
      FailedStays(s, steps[0], limit);
      FailedStaysRun(Next(s, steps[0]).0, steps[1..], limit);
    }
  }

  lemma PlainChannelId(s: System, step: Step)
    requires OnOctets(s) && Enabled(s, step) && PlainCall(step) && Emits(s, step).Some?
    ensures var f := Emits(s, step).value.1;
            f.channelId.Some? ==> f.channelId.value != [] && !HasPair(f.channelId.value)
  {
    EmittedOfCall(s, step);
    EmittedFrame(s, step);
    ControlFrames(s, step);
  }

  lemma ControlFrames(s: System, step: Step)
    requires Inv(s) && Enabled(s, step) && Emits(s, step).Some?
    ensures Emits(s, step).value.1.kind in {AuthOk, FrameType.Error} ==> Emits(s, step).value.1.channelId.None?
  {
  }

  lemma UnwelcomeFails(s: System, step: Step, limit: int)
    requires OnOctets(s) && Enabled(s, step) && OnOctets(Next(s, step).0) && PlainCall(step)
    requires AllInStep(s.broker, limit) && 0 < limit
    ensures MistakenStep(s, step, limit) <==> UnwelcomeStep(s, step, limit)
    ensures UnwelcomeStep(s, step, limit) ==> SomeFailed(Next(s, step).0.broker, limit)
  {
    var e := Emits(s, step);
    if e.Some? {
      var (c, f) := e.value;
      EmittedFrame(s, step);
      EmittedOfCall(s, step);
      EmittedConn(s, step);
      WireWrittenOrNot(s, step, c);
      NothingMistaken(limit);
      PlainMistaken(Wire(s, c), f, limit);
      if UnwelcomeStep(s, step, limit) {
        PlainChannelId(s, step);
        UnwelcomeFrameFails(Wire(s, c), f, limit);
        assert FailedOn(Next(s, step).0.broker.conns[c].wire, limit);
      }
    }
  }

  ghost predicate NoneUnwelcome(s: System, steps: seq<Step>, limit: int)
    requires Inv(s) && IsRun(s, steps)
    decreases |steps|
  {
    steps == []
    || (!UnwelcomeStep(s, steps[0], limit)
        && (StepKeepsInv(s, steps[0]); NoneUnwelcome(Next(s, steps[0]).0, steps[1..], limit)))
  }

  ghost predicate AllPlainCalls(steps: seq<Step>) {
    forall i :: 0 <= i < |steps| ==> PlainCall(steps[i])
  }

  lemma {:induction false} FailsIff(s: System, steps: seq<Step>, limit: int)
    requires OnOctets(s) && AllInStep(s.broker, limit) && AllPlain(s.broker) && IsRun(s, steps) && 0 < limit
    requires AllPlainCalls(steps) && OnOctets(After(s, steps))
    ensures SomeFailed(After(s, steps).broker, limit) <==> !NoneUnwelcome(s, steps, limit)
    decreases |steps|
  {
    if steps == [] {
      forall c | c in s.broker.conns ensures !FailedOn(s.broker.conns[c].wire, limit) {
        assert InStep(s.broker.conns[c].wire, limit);
      }
    } else {
      var t := Next(s, steps[0]).0;
      OnOctetsKept(s, steps[0]);
      InStepKeptIff(s, steps[0], limit);
      UnwelcomeFails(s, steps[0], limit);
      if UnwelcomeStep(s, steps[0], limit) {
        FailedStaysRun(t, steps[1..], limit);
      } else {
        FailsIff(t, steps[1..], limit);
      }
    }
  }

  /**
   With plain channel ids, over every run of a new server: some agent raises on its octets, other than for the server's
   ERROR, if and only if some step writes a frame that is over the agent's limit or late.
   */
  lemma AgentFailsOnOctetsIff(maxSessions: int, maxFrameBytes: int, steps: seq<Step>, limit: int)
    requires IsRun(NewServer(maxSessions, maxFrameBytes), steps) && AllPlainCalls(steps) && 0 < limit
    ensures OnOctets(After(NewServer(maxSessions, maxFrameBytes), steps))
    ensures SomeFailed(After(NewServer(maxSessions, maxFrameBytes), steps).broker, limit)
       <==> !NoneUnwelcome(NewServer(maxSessions, maxFrameBytes), steps, limit)
  {
    var s := NewServer(maxSessions, maxFrameBytes);
    OnOctetsHolds(s, steps);
    FailsIff(s, steps, limit);
  }

  // ---------------------------------------------------------------- fitting calls make fitting wires

  ghost predicate WiresFit(b: Broker, limit: int) {
    forall c :: c in b.conns ==> AllFit(b.conns[c].wire, limit)
  }

  lemma WiresFitKept(s: System, step: Step, limit: int)
    requires Inv(s) && Enabled(s, step) && WiresFit(s.broker, limit) && FittingCall(step, limit)
    ensures WiresFit(Next(s, step).0.broker, limit)
  {
    var t := Next(s, step).0;
    forall d | d in t.broker.conns ensures AllFit(t.broker.conns[d].wire, limit) {
      WireAfterStep(s, step, d);
      if Emits(s, step).Some? { EmittedOfCall(s, step); }
    }
  }

  ghost predicate AllFittingCalls(steps: seq<Step>, limit: int) {
    forall i :: 0 <= i < |steps| ==> FittingCall(steps[i], limit)
  }

  lemma {:induction false} WiresFitHolds(s: System, steps: seq<Step>, limit: int)
    requires Inv(s) && IsRun(s, steps) && WiresFit(s.broker, limit) && AllFittingCalls(steps, limit)
    ensures WiresFit(After(s, steps).broker, limit)
    decreases |steps|
  {
    if steps != [] {
      StepKeepsInv(s, steps[0]);
      WiresFitKept(s, steps[0], limit);
      WiresFitHolds(Next(s, steps[0]).0, steps[1..], limit);
    }
  }

  // ---------------------------------------------------------------- short ids make opens that encode

  lemma SixteenMebibytes()
    ensures 16777216 < Pow10(20)
  {
    assert Pow10(8) == 100000000 by {
      assert Pow10(4) == 10000;
      assert Pow10(5) == 10 * Pow10(4) && Pow10(6) == 10 * Pow10(5);
      assert Pow10(7) == 10 * Pow10(6) && Pow10(8) == 10 * Pow10(7);
    }
    Pow10Grows(8, 20);
  }

  lemma {:induction false} Pow10Grows(i: nat, j: nat)
    requires i <= j
    ensures Pow10(i) <= Pow10(j)
  {
    if i < j { Pow10Grows(i, j - 1); }
  }

  /** Within the configured bounds a short `open_session` is never stranded. */
  lemma ShortOpenIsSafe(s: System, step: Step)
    requires AgentsOk(s.broker) && s.broker.encodeError == CodecError && 0 < s.broker.maxFrameBytes <= 16777216
    requires ShortOpen(step, s.broker.maxFrameBytes)
    ensures !StrandsOpen(s, step)
  {
    if step.SOpen? {
      SixteenMebibytes();
      ShortIdsFit(OpenFrame(step.channel, step.requestId, step.payload), s.broker.maxFrameBytes);
    }
  }

  /** The calls of a server whose peers are the repository's agent and whose sessions have short ids. */
  predicate OrdinaryCall(step: Step, maxFrameBytes: int) {
    FromOwnAgent(step) && ShortOpen(step, maxFrameBytes)
  }

  predicate OrdinaryCalls(steps: seq<Step>, maxFrameBytes: int) {
    forall i :: 0 <= i < |steps| ==> OrdinaryCall(steps[i], maxFrameBytes)
  }

  lemma {:induction false} OrdinaryIsOwn(s: System, steps: seq<Step>)
    requires OnOctets(s) && IsRun(s, steps) && 0 < s.broker.maxFrameBytes <= 16777216
    requires OrdinaryCalls(steps, s.broker.maxFrameBytes)
    ensures OwnAgentRun(s, steps)
    decreases |steps|
  {
    if steps != [] {
      assert OrdinaryCall(steps[0], s.broker.maxFrameBytes);
      ShortOpenIsSafe(s, steps[0]);
      OnOctetsKept(s, steps[0]);
      StepKeepsCodec(s, steps[0]);
      OrdinaryIsOwn(Next(s, steps[0]).0, steps[1..]);
    }
  }

  // ---------------------------------------------------------------- the agent follows the server

  /** The loop on the octets of a fitting wire, in one piece or in two, is the loop on its frames. */
  lemma FittingOctets(wire: seq<Frame>, k: nat, limit: int)
    requires AllSent(wire) && AllFit(wire, limit) && 0 < limit && k <= |wire| && AgentAfter(wire[..k]).Running?
    ensures var now := AgentAfter(wire[..k]);
            && AgentLoop(map[], WireOctets(wire[..k]), limit) == Ended(now.channels)
            && AgentLoop(now.channels, WireOctets(wire[k..]), limit) == FromState(Replay(now, wire[k..]))
  {
    var now := AgentAfter(wire[..k]);
    LoopOfWire(map[], wire[..k], limit);
    FittingWire(map[], wire[..k], limit);
    LoopOfWire(now.channels, wire[k..], limit);
    FittingWire(now.channels, wire[k..], limit);
  }

  /**
   Over every clean run of a new server with fitting calls: the agent has raised nothing wherever it is in its octets,
   and the octets in flight lead it to exactly the server's open channels, less those whose CLOSE is written.
   */
  lemma AgentTracksServerOnOctets(maxSessions: int, maxFrameBytes: int, steps: seq<Step>, limit: int, c: ConnId, k: nat)
    requires var s := NewServer(maxSessions, maxFrameBytes);
             IsRun(s, steps) && CleanRun(s, steps) && OwnAgentRun(s, steps)
    requires AllFittingCalls(steps, limit) && 0 < limit
    requires var b := After(NewServer(maxSessions, maxFrameBytes), steps).broker;
             c in b.conns && k <= |b.conns[c].wire| && !HasError(b.conns[c].wire)
    ensures OnOctets(After(NewServer(maxSessions, maxFrameBytes), steps))
    ensures var conn := After(NewServer(maxSessions, maxFrameBytes), steps).broker.conns[c];
            var now := AgentLoop(map[], WireOctets(conn.wire[..k]), limit);
            && now.Ended?
            && RunsWith(AgentLoop(now.channels, WireOctets(conn.wire[k..]), limit), conn.open - Closed(conn.wire))
    ensures var octets := WireOctets(After(NewServer(maxSessions, maxFrameBytes), steps).broker.conns[c].wire);
            forall j :: 0 <= j <= |octets| ==>
              var end := AgentLoop(map[], octets[..j], limit); end.Ended? || !Definite(end)
  {
    var s := NewServer(maxSessions, maxFrameBytes);
    OnOctetsHolds(s, steps);
    WiresFitHolds(s, steps, limit);
    AgentTracksServer(maxSessions, maxFrameBytes, CodecError, steps, c, k);
    AgentTracksServer(maxSessions, maxFrameBytes, CodecError, steps, c, |After(s, steps).broker.conns[c].wire|);
    var wire := After(s, steps).broker.conns[c].wire;
    FittingOctets(wire, k, limit);
    assert wire[..|wire|] == wire;
    FittingOctets(wire, |wire|, limit);
    forall j | 0 <= j <= |WireOctets(wire)|
      ensures var end := AgentLoop(map[], WireOctets(wire)[..j], limit); end.Ended? || !Definite(end)
    {
      CutIsSafe(map[], WireOctets(wire), j, limit);
    }
  }

  /**
   The same run, per channel: what a socket was given, then the payloads in flight, is what the calls sent; and a socket
   that the agent is about to close has been given all of it.
   */
  lemma BytesReachTheirSocketOnOctets(maxSessions: int, maxFrameBytes: int, steps: seq<Step>, limit: int,
                                      c: ConnId, k: nat, ch: Str)
    requires var s := NewServer(maxSessions, maxFrameBytes); IsRun(s, steps) && CleanRun(s, steps)
    requires AllFittingCalls(steps, limit) && 0 < limit
    requires var b := After(NewServer(maxSessions, maxFrameBytes), steps).broker;
             c in b.conns && k <= |b.conns[c].wire| && !HasError(b.conns[c].wire)
    ensures OnOctets(After(NewServer(maxSessions, maxFrameBytes), steps))
    ensures var s := NewServer(maxSessions, maxFrameBytes);
            var wire := After(s, steps).broker.conns[c].wire;
            var now := AgentLoop(map[], WireOctets(wire[..k]), limit);
            && now.Ended?
            && (ch in now.channels ==> now.channels[ch] + DataFor(wire[k..], ch) == SentTo(s, steps, c, ch))
            && (k < |wire| && wire[k].kind == CloseSession && wire[k].channelId == Some(ch) && ch in now.channels ==>
                  now.channels[ch] == SentTo(s, steps, c, ch))
  {
    var s := NewServer(maxSessions, maxFrameBytes);
    OnOctetsHolds(s, steps);
    WiresFitHolds(s, steps, limit);
    BytesReachTheirSocket(maxSessions, maxFrameBytes, CodecError, steps, c, k, ch);
    FittingOctets(After(s, steps).broker.conns[c].wire, k, limit);
  }

  /**
   The whole tunnel, from conditions on the calls alone: transports at the server's end of every channel under any
   schedule of their tasks, the repository's agent at the other, short ids, plain ids and payloads within the agent's
   limit. No frame is late, the agent raises nothing, the octets in flight lead it to the server's open channels, and
   every socket gets what the accepted calls sent to its channel.
   */
  lemma TransportsKeepAgentInStepOnOctets(maxSessions: int, maxFrameBytes: int, steps: seq<Step>, limit: int,
                                          c: ConnId, k: nat)
    requires 0 < maxFrameBytes <= 16777216 && 0 < limit && IsRun(NewServer(maxSessions, maxFrameBytes), steps)
    requires DrivenByTransports(steps) && OrdinaryCalls(steps, maxFrameBytes) && AllFittingCalls(steps, limit)
    requires var b := After(NewServer(maxSessions, maxFrameBytes), steps).broker;
             c in b.conns && k <= |b.conns[c].wire| && !HasError(b.conns[c].wire)
    ensures OnOctets(After(NewServer(maxSessions, maxFrameBytes), steps))
    ensures CleanRun(NewServer(maxSessions, maxFrameBytes), steps)
    ensures var conn := After(NewServer(maxSessions, maxFrameBytes), steps).broker.conns[c];
            var now := AgentLoop(map[], WireOctets(conn.wire[..k]), limit);
            && now.Ended?
            && RunsWith(AgentLoop(now.channels, WireOctets(conn.wire[k..]), limit), conn.open - Closed(conn.wire))
            && (forall ch :: ch in now.channels ==>
                  now.channels[ch] + DataFor(conn.wire[k..], ch)
                  == SentTo(NewServer(maxSessions, maxFrameBytes), steps, c, ch))
            && (forall ch :: k < |conn.wire| && conn.wire[k].kind == CloseSession && conn.wire[k].channelId == Some(ch)
                             && ch in now.channels ==>
                  now.channels[ch] == SentTo(NewServer(maxSessions, maxFrameBytes), steps, c, ch))
  {
    var s := NewServer(maxSessions, maxFrameBytes);
    OnOctetsHolds(s, steps);
    OrdinaryIsOwn(s, steps);
    TransportsKeepAgentInStep(maxSessions, maxFrameBytes, CodecError, steps, c, k);
    AgentTracksServerOnOctets(maxSessions, maxFrameBytes, steps, limit, c, k);
    var wire := After(s, steps).broker.conns[c].wire;
    var now := AgentLoop(map[], WireOctets(wire[..k]), limit);
    forall ch | ch in now.channels
      ensures now.channels[ch] + DataFor(wire[k..], ch) == SentTo(s, steps, c, ch)
      ensures k < |wire| && wire[k].kind == CloseSession && wire[k].channelId == Some(ch) ==>
                now.channels[ch] == SentTo(s, steps, c, ch)
    {
      BytesReachTheirSocketOnOctets(maxSessions, maxFrameBytes, steps, limit, c, k, ch);
    }
  }
}
