/**
 Server and agent with the real codec between them. The broker's `encodeError` is `CodecError`, its wires are octets,
 and the agent reads them under its own payload limit, which need not be the server's.
 */
module TunnelOctets {
  import opened Wrappers
  import opened Text
  import opened FrameCodec
  import opened BrokerSpec
  import opened BrokerSystem
  import opened AgentSpec
  import opened AgentOctets
  import opened TunnelSimulation
  import opened TunnelDelivery

  /** A new broker with the repository's codec. */
  function NewServer(maxSessions: int, maxFrameBytes: int): (s: System)
    ensures Inv(s)
  {
    Initial(maxSessions, maxFrameBytes, CodecError)
  }

  // ---------------------------------------------------------------- what is on a wire has been encoded

  ghost predicate SameCodec(b: Broker, t: Broker) {
    t.encodeError == b.encodeError && t.maxFrameBytes == b.maxFrameBytes
  }

  lemma SendKeepsCodec(b: Broker, kind: FrameType, channel: Str, requestId: Str, payload: Bytes)
    requires AgentsOk(b)
    ensures SameCodec(b, SendOnChannel(b, kind, channel, requestId, payload).0)
  {
  }

  lemma OpenKeepsCodec(b: Broker, agent: AgentId, channel: Str, f: Frame, checks: OpenChecks)
    requires AgentsOk(b)
    ensures SameCodec(b, OpenOnAgent(b, agent, channel, f, checks).0)
  {
  }

  lemma CloseStreamKeepsCodec(s: System, c: ConnId, channel: Str, requestId: Str)
    requires Inv(s) && c in s.broker.conns && channel in s.broker.conns[c].streams
    ensures SameCodec(s.broker, CloseStream(s, c, channel, requestId).0.broker)
  {
    var stream := s.broker.conns[c].streams[channel].(closed := true);
    CloseStreamShape(s, c, channel, requestId);
    SendKeepsCodec(SetStream(s.broker, c, channel, stream), CloseSession, channel, requestId, []);
  }

  lemma StepKeepsCodec(s: System, step: Step)
    requires Inv(s) && Enabled(s, step)
    ensures SameCodec(s.broker, Next(s, step).0.broker)
  {
    match step
    case SOpen(agent, ch, requestId, payload, checks) =>
      OpenKeepsCodec(s.broker, agent, ch, OpenFrame(ch, requestId, payload), checks);
    case SData(ch, requestId, payload) => SendKeepsCodec(s.broker, SessionData, ch, requestId, payload);
    case SResize(ch, requestId, payload) => SendKeepsCodec(s.broker, ResizePty, ch, requestId, payload);
    case SCloseBegin(ch, requestId) => SendKeepsCodec(s.broker, CloseSession, ch, requestId, []);
    case SStreamClose(c, ch, requestId) => CloseStreamKeepsCodec(s, c, ch, requestId);
    case _ =>
  }

  lemma EmittedIsSent(s: System, step: Step)
    requires Inv(s) && Enabled(s, step) && s.broker.encodeError == CodecError && Emits(s, step).Some?
    ensures Sent(Emits(s, step).value.1)
  {
    var f := Emits(s, step).value.1;
    SentUnderLimit(f, s.broker.maxFrameBytes);
    SentUnderLimit(f, 1024 * 1024);
  }

  ghost predicate WiresSent(b: Broker) {
    forall c :: c in b.conns ==> AllSent(b.conns[c].wire)
  }

  /** The states with the real codec, whose wires are therefore octets. */
  ghost predicate OnOctets(s: System) {
    Inv(s) && AllLinked(s.broker) && s.broker.encodeError == CodecError && WiresSent(s.broker)
  }

  lemma OnOctetsKept(s: System, step: Step)
    requires OnOctets(s) && Enabled(s, step)
    ensures OnOctets(Next(s, step).0)
  {
    var t := Next(s, step).0;
    StepKeepsInv(s, step);
    LinkedKept(s, step);
    StepKeepsCodec(s, step);
    forall d | d in t.broker.conns ensures AllSent(t.broker.conns[d].wire) {
      SentKept(s, step, d);
    }
  }

  lemma SentKept(s: System, step: Step, d: ConnId)
    requires Inv(s) && Enabled(s, step) && s.broker.encodeError == CodecError && WiresSent(s.broker)
    requires d in Next(s, step).0.broker.conns
    ensures AllSent(Next(s, step).0.broker.conns[d].wire)
  {
    WireAfterStep(s, step, d);
    if Emits(s, step).Some? { EmittedIsSent(s, step); }
    SentConcat(Wire(s, d), WrittenTo(Emits(s, step), d));
  }

  lemma SentConcat(a: seq<Frame>, b: seq<Frame>)
    requires AllSent(a) && AllSent(b)
    ensures AllSent(a + b)
  {
  }

  lemma {:induction false} OnOctetsHolds(s: System, steps: seq<Step>)
    requires OnOctets(s) && IsRun(s, steps)
    ensures OnOctets(After(s, steps))
    decreases |steps|
  {
    if steps != [] {
      OnOctetsKept(s, steps[0]);
      OnOctetsHolds(Next(s, steps[0]).0, steps[1..]);
    }
  }

  // ---------------------------------------------------------------- when the agent is in step with a wire

  /** The loop on a wire's octets: it runs with exactly the announced channels, or the server's ERROR has ended it. */
  ghost predicate InStep(wire: seq<Frame>, limit: int)
    requires AllSent(wire)
  {
    var end := AgentLoop(map[], WireOctets(wire), limit);
    if HasError(wire) then end == Rejected(Unsupported) else end.Ended? && end.channels.Keys == Announced(wire)
  }

  /**
   A frame that the agent does not take as the server means it: its payload is over the agent's limit, it opens a
   channel whose id decodes to another, its data finds no channel once decoded, or it closes another channel's id.
   */
  ghost predicate Mistaken(wire: seq<Frame>, f: Frame, limit: int) {
    !HasError(wire)
    && (|f.payload| > limit
        || (f.channelId.Some?
            && match f.kind
               case OpenSession => HasPair(f.channelId.value)
               case SessionData => MergePairs(f.channelId.value) !in Announced(wire)
               case ResizePty => MergePairs(f.channelId.value) !in Announced(wire)
               case CloseSession => HasPair(f.channelId.value) && MergePairs(f.channelId.value) in Announced(wire)
               case _ => false))
  }

  /** Every id opened on a wire that the agent still follows is read back unchanged. */
  ghost predicate PlainOpened(wire: seq<Frame>) {
    !HasError(wire) ==> forall ch :: ch in Opened(wire) ==> !HasPair(ch)
  }

  lemma LoopAppend(wire: seq<Frame>, f: Frame, limit: int)
    requires AllSent(wire + [f]) && AllSent(wire) && 0 < limit
    ensures AgentLoop(map[], WireOctets(wire + [f]), limit)
         == HandledNext(AgentLoop(map[], WireOctets(wire), limit), f, limit)
  {
    LoopOfWire(map[], wire, limit);
    LoopOfWire(map[], wire + [f], limit);
    HandledAppend(map[], wire, f, limit);
  }

  /** The loop has gone on with exactly these channels. */
  ghost predicate RunsWith(end: LoopEnd, open: set<Str>) {
    end.Ended? && end.channels.Keys == open
  }

  lemma MergedId(ch: Str)
    requires ch != []
    ensures MergePairs(ch) != [] && (MergePairs(ch) == ch <==> !HasPair(ch))
  {
    MergePairsFixed(ch);
  }

  lemma OpenHandled(channels: map<Str, Bytes>, f: Frame, ch: Str, limit: int)
    requires f.kind == OpenSession && f.channelId == Some(ch) && ch != [] && |f.payload| <= limit && ch !in channels
    ensures RunsWith(Handled(channels, f, limit), channels.Keys + {ch}) <==> !HasPair(ch)
  {
    MergedId(ch);
    if HasPair(ch) { assert ch !in channels.Keys + {MergePairs(ch)}; }
  }

  lemma CloseHandled(channels: map<Str, Bytes>, f: Frame, ch: Str, limit: int)
    requires f.kind == CloseSession && f.channelId == Some(ch) && ch != [] && |f.payload| <= limit
    requires ch in channels ==> !HasPair(ch)
    ensures RunsWith(Handled(channels, f, limit), channels.Keys - {ch})
       <==> !(HasPair(ch) && MergePairs(ch) in channels)
  {
    var m := MergePairs(ch);
    MergedId(ch);
    if HasPair(ch) {
      assert channels.Keys - {ch} == channels.Keys;
      if m in channels { assert m !in (channels - {m}).Keys; } else { assert (channels - {m}).Keys == channels.Keys; }
    }
  }

  lemma DataHandled(channels: map<Str, Bytes>, f: Frame, ch: Str, limit: int)
    requires f.kind in {SessionData, ResizePty} && f.channelId == Some(ch) && ch != [] && |f.payload| <= limit
    ensures RunsWith(Handled(channels, f, limit), channels.Keys) <==> MergePairs(ch) in channels
  {
    MergedId(ch);
    if f.kind == SessionData && MergePairs(ch) in channels {
      assert channels[MergePairs(ch) := channels[MergePairs(ch)] + f.payload].Keys == channels.Keys;
    }
  }

  /** What one well-formed frame does to a loop that is in step, as far as the set of channels goes. */
  lemma HandledKeys(wire: seq<Frame>, f: Frame, channels: map<Str, Bytes>, limit: int)
    requires 0 < limit && WellFormed(wire, f) && !HasError(wire) && PlainOpened(wire)
    requires channels.Keys == Announced(wire)
    requires f.kind == OpenSession ==> f.channelId.value !in Closed(wire)
    ensures var end := Handled(channels, f, limit);
            Mistaken(wire, f, limit) <==>
              if f.kind == FrameType.Error then end != Rejected(Unsupported) else !RunsWith(end, Announced(wire + [f]))
  {
    if |f.payload| <= limit {
      AnnouncedAfter(wire, f);
      match f.kind
      case OpenSession => OpenHandled(channels, f, f.channelId.value, limit);
      case CloseSession => CloseHandled(channels, f, f.channelId.value, limit);
      case SessionData => DataHandled(channels, f, f.channelId.value, limit);
      case ResizePty => DataHandled(channels, f, f.channelId.value, limit);
      case _ =>
    }
  }

  /** One more frame keeps the agent in step if and only if the agent does not mistake it. */
  lemma InStepAppend(wire: seq<Frame>, f: Frame, limit: int)
    requires AllSent(wire) && AllSent(wire + [f]) && 0 < limit && InStep(wire, limit)
    requires WellFormed(wire, f) && PlainOpened(wire)
    requires f.kind == OpenSession ==> f.channelId.value !in Closed(wire)
    ensures InStep(wire + [f], limit) <==> !Mistaken(wire, f, limit)
    ensures !Mistaken(wire, f, limit) ==> PlainOpened(wire + [f])
  {
    WireAppend(wire, f);
    LoopAppend(wire, f, limit);
    if !HasError(wire) {
      HandledKeys(wire, f, AgentLoop(map[], WireOctets(wire), limit).channels, limit);
    }
  }

  // ---------------------------------------------------------------- when the octets make no difference at all

  /** The shape of a broker's wire: a CLOSE names a channel opened before it, and control frames name none. */
  ghost predicate Shaped(wire: seq<Frame>) {
    wire == []
    || (Shaped(wire[..|wire| - 1])
        && var f := wire[|wire| - 1];
           && (f.kind == CloseSession ==> f.channelId.Some? && f.channelId.value in Opened(wire[..|wire| - 1]))
           && (f.kind in {AuthOk, Heartbeat} ==> f.channelId.None?))
  }

  lemma {:induction false} OpenedFits(wire: seq<Frame>, limit: int)
    requires AllFit(wire, limit)
    ensures forall ch :: ch in Opened(wire) ==> !HasPair(ch)
  {
    if wire != [] {
      OpenedFits(wire[..|wire| - 1], limit);
      assert Fits(wire[|wire| - 1], limit);
    }
  }

  lemma {:induction false} ChannelsOpened(wire: seq<Frame>)
    requires AgentAfter(wire).Running?
    ensures AgentAfter(wire).channels.Keys <= Opened(wire)
  {
    if wire != [] {
      var init, f := wire[..|wire| - 1], wire[|wire| - 1];
      assert wire == init + [f];
      WireAppend(init, f);
      ChannelsOpened(init);
    }
  }

  lemma OpenAgreement(channels: map<Str, Bytes>, ch: Str)
    requires channels[MergePairs(ch) := []] == channels[ch := []] && ch !in channels && ch != []
    ensures !HasPair(ch)
  {
    MergedId(ch);
    assert ch in channels[ch := []];
  }

  /** A frame on which the two loops agree, and which the loop on frames takes, fits. */
  lemma AgreementFits(channels: map<Str, Bytes>, f: Frame, limit: int)
    requires Dispatched(channels, f).Running? && Handled(channels, f, limit) == FromState(Dispatched(channels, f))
    requires forall ch :: ch in channels ==> !HasPair(ch)
    requires f.kind == CloseSession && f.channelId.Some? ==> !HasPair(f.channelId.value)
    requires f.kind in {AuthOk, Heartbeat} ==> f.channelId.None?
    ensures Fits(f, limit)
  {
    if f.kind == OpenSession {
      MergedId(f.channelId.value);
      OpenAgreement(channels, f.channelId.value);
    }
  }

  /** At every point of the wire, the loop on the octets so far is the loop on the frames so far. */
  ghost predicate SameThroughout(wire: seq<Frame>, limit: int)
    requires AllSent(wire)
  {
    AgentLoop(map[], WireOctets(wire), limit) == FromState(AgentAfter(wire))
    && (wire == [] || SameThroughout(wire[..|wire| - 1], limit))
  }

  lemma {:induction false} FittingIsSame(wire: seq<Frame>, limit: int)
    requires AllSent(wire) && 0 < limit && AllFit(wire, limit)
    ensures SameThroughout(wire, limit)
  {
    LoopOfWire(map[], wire, limit);
    FittingWire(map[], wire, limit);
    if wire != [] { FittingIsSame(wire[..|wire| - 1], limit); }
  }

  lemma LastFits(init: seq<Frame>, f: Frame, limit: int)
    requires AllSent(init) && AllSent(init + [f]) && 0 < limit && AllFit(init, limit) && Shaped(init + [f])
    requires AgentAfter(init + [f]).Running?
    requires AgentLoop(map[], WireOctets(init), limit) == FromState(AgentAfter(init))
    requires AgentLoop(map[], WireOctets(init + [f]), limit) == FromState(AgentAfter(init + [f]))
    ensures Fits(f, limit)
  {
    assert (init + [f])[..|init|] == init;
    WireAppend(init, f);
    OpenedFits(init, limit);
    ChannelsOpened(init);
    LoopAppend(init, f, limit);
    AgreementFits(AgentAfter(init).channels, f, limit);
  }

  lemma LastOf(wire: seq<Frame>)
    requires wire != []
    ensures wire == wire[..|wire| - 1] + [wire[|wire| - 1]]
    ensures AgentAfter(wire).Running? ==> AgentAfter(wire[..|wire| - 1]).Running?
  {
  }

  lemma FitsAppend(init: seq<Frame>, f: Frame, limit: int)
    requires AllFit(init, limit) && Fits(f, limit)
    ensures AllFit(init + [f], limit)
  {
  }

  lemma {:induction false} SameMeansFitting(wire: seq<Frame>, limit: int)
    requires AllSent(wire) && 0 < limit && Shaped(wire) && AgentAfter(wire).Running? && SameThroughout(wire, limit)
    ensures AllFit(wire, limit)
  {
    if wire != [] {
      var init, f := wire[..|wire| - 1], wire[|wire| - 1];
      LastOf(wire);
      SameMeansFitting(init, limit);
      LastFits(init, f, limit);
      FitsAppend(init, f, limit);
    }
  }

  /**
   The loop on a wire's octets is the loop on its frames, at every point of the wire, if and only if every id holds no
   separate surrogate pair and every payload is within the agent's limit.
   */
  lemma LoopIsReplayIff(wire: seq<Frame>, limit: int)
    requires AllSent(wire) && 0 < limit && Shaped(wire) && AgentAfter(wire).Running?
    ensures SameThroughout(wire, limit) <==> AllFit(wire, limit)
  {
    if AllFit(wire, limit) { FittingIsSame(wire, limit); }
    if SameThroughout(wire, limit) { SameMeansFitting(wire, limit); }
  }

  // ---------------------------------------------------------------- steps and runs

  ghost predicate MistakenStep(s: System, step: Step, limit: int)
    requires Inv(s) && Enabled(s, step)
  {
    var e := Emits(s, step);
    e.Some? && Mistaken(Wire(s, e.value.0), e.value.1, limit)
  }

  ghost predicate AllInStep(b: Broker, limit: int)
    requires WiresSent(b)
  {
    forall c :: c in b.conns ==> InStep(b.conns[c].wire, limit)
  }

  ghost predicate AllPlain(b: Broker) {
    forall c :: c in b.conns ==> PlainOpened(b.conns[c].wire)
  }

  lemma NothingMistaken(limit: int)
    requires 0 < limit
    ensures InStep([], limit) && PlainOpened([])
  {
  }

  lemma InStepOn(s: System, step: Step, d: ConnId, limit: int)
    requires OnOctets(s) && Enabled(s, step) && OnOctets(Next(s, step).0)
    requires AllInStep(s.broker, limit) && AllPlain(s.broker) && 0 < limit && d in Next(s, step).0.broker.conns
    ensures var wire := Next(s, step).0.broker.conns[d].wire;
            && (InStep(wire, limit) <==> !(MistakenStep(s, step, limit) && Emits(s, step).value.0 == d))
            && (InStep(wire, limit) ==> PlainOpened(wire))
  {
    var e, wire := Emits(s, step), Wire(s, d);
    NothingMistaken(limit);
    WireWrittenOrNot(s, step, d);
    if e.Some? && e.value.0 == d {
      EmittedShape(s, step);
      InStepAppend(wire, e.value.1, limit);
    }
  }

  /** A step leaves a wire as it is, or appends the frame that it writes there. */
  lemma WireWrittenOrNot(s: System, step: Step, d: ConnId)
    requires Inv(s) && Enabled(s, step) && d in Next(s, step).0.broker.conns
    ensures var e := Emits(s, step);
            Next(s, step).0.broker.conns[d].wire
            == if e.Some? && e.value.0 == d then Wire(s, d) + [e.value.1] else Wire(s, d)
  {
    WireAfterStep(s, step, d);
    assert Wire(s, d) + [] == Wire(s, d);
  }

  lemma EmittedShape(s: System, step: Step)
    requires OnOctets(s) && Enabled(s, step) && Emits(s, step).Some?
    ensures var (c, f) := Emits(s, step).value;
            WellFormed(Wire(s, c), f) && (f.kind == OpenSession ==> f.channelId.value !in Closed(Wire(s, c)))
  {
    var c := Emits(s, step).value.0;
    EmittedFrame(s, step);
    if c in s.broker.conns { assert WireLinked(s.broker.conns[c]); }
  }

  lemma InStepKeptIff(s: System, step: Step, limit: int)
    requires OnOctets(s) && Enabled(s, step) && OnOctets(Next(s, step).0)
    requires AllInStep(s.broker, limit) && AllPlain(s.broker) && 0 < limit
    ensures AllInStep(Next(s, step).0.broker, limit) <==> !MistakenStep(s, step, limit)
    ensures !MistakenStep(s, step, limit) ==> AllPlain(Next(s, step).0.broker)
  {
    var t := Next(s, step).0;
    forall d | d in t.broker.conns
      ensures InStep(t.broker.conns[d].wire, limit) <==> !(MistakenStep(s, step, limit) && Emits(s, step).value.0 == d)
      ensures InStep(t.broker.conns[d].wire, limit) ==> PlainOpened(t.broker.conns[d].wire)
    {
      InStepOn(s, step, d, limit);
    }
    if MistakenStep(s, step, limit) {
      var d := Emits(s, step).value.0;
      EmittedConn(s, step);
      assert !InStep(t.broker.conns[d].wire, limit);
    }
  }

  lemma EmittedConn(s: System, step: Step)
    requires OnOctets(s) && Enabled(s, step) && Emits(s, step).Some?
    ensures Emits(s, step).value.0 in Next(s, step).0.broker.conns
  {
    var d := Emits(s, step).value.0;
    EmittedFrame(s, step);
    if d in s.broker.conns { StepWire(s, step, d); }
  }

  /** In every state of the run, every agent is in step with the octets of its wire. */
  ghost predicate AlwaysInStep(s: System, steps: seq<Step>, limit: int)
    requires OnOctets(s) && IsRun(s, steps)
    decreases |steps|
  {
    AllInStep(s.broker, limit)
    && (steps == [] || (OnOctetsKept(s, steps[0]); AlwaysInStep(Next(s, steps[0]).0, steps[1..], limit)))
  }

  ghost predicate NoneMistaken(s: System, steps: seq<Step>, limit: int)
    requires Inv(s) && IsRun(s, steps)
    decreases |steps|
  {
    steps == []
    || (!MistakenStep(s, steps[0], limit)
        && (StepKeepsInv(s, steps[0]); NoneMistaken(Next(s, steps[0]).0, steps[1..], limit)))
  }

  lemma {:induction false} InStepIff(s: System, steps: seq<Step>, limit: int)
    requires OnOctets(s) && AllInStep(s.broker, limit) && AllPlain(s.broker) && IsRun(s, steps) && 0 < limit
    ensures AlwaysInStep(s, steps, limit) <==> NoneMistaken(s, steps, limit)
    decreases |steps|
  {
    if steps != [] {
      var t := Next(s, steps[0]).0;
      OnOctetsKept(s, steps[0]);
      InStepKeptIff(s, steps[0], limit);
      if !MistakenStep(s, steps[0], limit) { InStepIff(t, steps[1..], limit); }
    }
  }

  /**
   For every run of a new server, all channel ids and all payloads included: every agent is in step with its octets at
   every moment if and only if no step writes a frame that the agent mistakes.
   */
  lemma AgentsInStepIff(maxSessions: int, maxFrameBytes: int, steps: seq<Step>, limit: int)
    requires IsRun(NewServer(maxSessions, maxFrameBytes), steps) && 0 < limit
    ensures OnOctets(NewServer(maxSessions, maxFrameBytes))
    ensures AlwaysInStep(NewServer(maxSessions, maxFrameBytes), steps, limit)
       <==> NoneMistaken(NewServer(maxSessions, maxFrameBytes), steps, limit)
  {
    InStepIff(NewServer(maxSessions, maxFrameBytes), steps, limit);
  }
}
