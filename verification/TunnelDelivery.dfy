/** Bytes from the server to the agent's local sockets: what is written there is what the wire carried, in order. */
module TunnelDelivery {
  import opened Wrappers
  import opened Collections
  import opened Text
  import opened FrameCodec
  import opened ChannelData
  import opened BrokerSpec
  import opened BrokerSystem
  import opened AgentSpec
  import opened TunnelSimulation

  /** No channel is opened twice on the wire. */
  predicate OpensOnce(wire: seq<Frame>) {
    wire == []
    || (OpensOnce(wire[..|wire| - 1])
        && var f := wire[|wire| - 1];
           (f.kind == OpenSession && f.channelId.Some? ==> f.channelId.value !in Opened(wire[..|wire| - 1])))
  }

  ghost predicate AllOpenOnce(b: Broker) {
    forall c :: c in b.conns ==> OpensOnce(b.conns[c].wire)
  }

  lemma OpensOnceAppend(wire: seq<Frame>, f: Frame)
    requires OpensOnce(wire) && WellFormed(wire, f)
    ensures OpensOnce(wire + [f])
  {
    assert (wire + [f])[..|wire|] == wire;
  }

  lemma OpensOnceWritten(wire: seq<Frame>, written: seq<Frame>)
    requires OpensOnce(wire) && |written| <= 1 && (written != [] ==> WellFormed(wire, written[0]))
    ensures OpensOnce(wire + written)
  {
    if written == [] {
      assert wire + written == wire;
    } else {
      assert written == [written[0]];
      OpensOnceAppend(wire, written[0]);
    }
  }

  lemma WrittenWellFormed(s: System, step: Step, d: ConnId)
    requires Inv(s) && AllLinked(s.broker) && Enabled(s, step)
    ensures var written := WrittenTo(Emits(s, step), d);
            |written| <= 1 && (written != [] ==> WellFormed(Wire(s, d), written[0]))
  {
    if Emits(s, step).Some? { EmittedFrame(s, step); }
  }

  lemma WireAfterStep(s: System, step: Step, d: ConnId)
    requires Inv(s) && Enabled(s, step) && d in Next(s, step).0.broker.conns
    ensures Next(s, step).0.broker.conns[d].wire == Wire(s, d) + WrittenTo(Emits(s, step), d)
  {
    if d in s.broker.conns {
      StepWire(s, step, d);
    } else {
      NewConnection(s, step, d);
      assert [] + WrittenTo(Emits(s, step), d) == WrittenTo(Emits(s, step), d);
    }
  }

  lemma OpensOnceKept(s: System, step: Step)
    requires Inv(s) && AllLinked(s.broker) && AllOpenOnce(s.broker) && Enabled(s, step)
    ensures AllOpenOnce(Next(s, step).0.broker)
  {
    var t := Next(s, step).0;
    forall d | d in t.broker.conns ensures OpensOnce(t.broker.conns[d].wire) {
      WireAfterStep(s, step, d);
      WrittenWellFormed(s, step, d);
      OpensOnceWritten(Wire(s, d), WrittenTo(Emits(s, step), d));
    }
  }

  /** The invariant of a running agent: per channel, the bytes written locally are those the wire carried. */
  ghost predicate Faithful(wire: seq<Frame>, channels: map<Str, Bytes>) {
    && channels.Keys <= Opened(wire)
    && (forall ch :: ch in channels ==> channels[ch] == DataFor(wire, ch))
    && (forall ch :: ch !in Opened(wire) ==> DataFor(wire, ch) == [])
  }

  lemma FaithfulData(wire: seq<Frame>, f: Frame, channels: map<Str, Bytes>, ch: Str)
    requires OpensOnce(wire + [f]) && Faithful(wire, channels) && Dispatched(channels, f).Running?
    ensures var after := Dispatched(channels, f).channels;
            && (ch in after ==> ch in Opened(wire + [f]) && after[ch] == DataFor(wire + [f], ch))
            && (ch !in Opened(wire + [f]) ==> DataFor(wire + [f], ch) == [])
  {
    WireAppend(wire, f);
    assert (wire + [f])[..|wire|] == wire;
    DataForAppend(wire, f, ch);
  }

  lemma FaithfulAppend(wire: seq<Frame>, f: Frame, channels: map<Str, Bytes>)
    requires OpensOnce(wire + [f]) && Faithful(wire, channels)
    requires Dispatched(channels, f).Running?
    ensures Faithful(wire + [f], Dispatched(channels, f).channels)
  {
    var after := Dispatched(channels, f).channels;
    forall ch | ch in after ensures ch in Opened(wire + [f]) && after[ch] == DataFor(wire + [f], ch) {
      FaithfulData(wire, f, channels, ch);
    }
    forall ch | ch !in Opened(wire + [f]) ensures DataFor(wire + [f], ch) == [] {
      FaithfulData(wire, f, channels, ch);
    }
  }

  lemma {:induction false} AgentIsFaithful(wire: seq<Frame>)
    requires OpensOnce(wire) && AgentAfter(wire).Running?
    ensures Faithful(wire, AgentAfter(wire).channels)
  {
    if wire != [] {
      var init, f := wire[..|wire| - 1], wire[|wire| - 1];
      assert wire == init + [f];
      ReplayAppend(Running(map[]), init, f);
      AgentIsFaithful(init);
      FaithfulAppend(init, f, AgentAfter(init).channels);
    }
  }

  lemma {:induction false} OpensOncePrefix(wire: seq<Frame>, k: nat)
    requires OpensOnce(wire) && k <= |wire|
    ensures OpensOnce(wire[..k])
  {
    if k < |wire| {
      assert wire[..|wire| - 1][..k] == wire[..k];
      OpensOncePrefix(wire[..|wire| - 1], k);
    } else {
      assert wire[..k] == wire;
    }
  }

  /** What an agent that has dispatched `done`, with `pending` in flight, has given to one socket. */
  lemma GivenSoFar(done: seq<Frame>, pending: seq<Frame>, ch: Str)
    requires OpensOnce(done) && AgentAfter(done).Running? && ch in AgentAfter(done).channels
    ensures AgentAfter(done).channels[ch] + DataFor(pending, ch) == DataFor(done + pending, ch)
  {
    AgentIsFaithful(done);
    DataForSplit(done, pending, ch);
  }

  /**
   With `k` frames dispatched, what each local socket has been given, then the payloads in flight for it, is what the
   wire carries for that channel: nothing lost, repeated, reordered or given to another channel.
   */
  lemma LocalBytes(wire: seq<Frame>, k: nat, ch: Str)
    requires OpensOnce(wire) && Agrees(wire) && !HasError(wire) && k <= |wire|
    ensures AgentAfter(wire[..k]).Running?
    ensures var channels := AgentAfter(wire[..k]).channels;
            ch in channels ==> channels[ch] + DataFor(wire[k..], ch) == DataFor(wire, ch)
  {
    var done, pending := wire[..k], wire[k..];
    InFlight(wire, k);
    OpensOncePrefix(wire, k);
    assert done + pending == wire;
    if ch in AgentAfter(done).channels { GivenSoFar(done, pending, ch); }
  }

  lemma ClosedStep(wire: seq<Frame>, f: Frame, ch: Str)
    requires OpensOnce(wire + [f]) && ch in Opened(wire) && AgentAfter(wire).Running?
    requires ch !in AgentAfter(wire).channels && AgentAfter(wire + [f]).Running?
    ensures PayloadFor(f, ch) == [] && ch !in AgentAfter(wire + [f]).channels
  {
    WireAppend(wire, f);
    assert (wire + [f])[..|wire|] == wire;
  }

  /** A channel that the agent has closed has no data on the rest of a wire that it takes. */
  lemma {:induction false} ClosedStaysClosed(done: seq<Frame>, tail: seq<Frame>, ch: Str)
    requires OpensOnce(done + tail) && ch in Opened(done) && AgentAfter(done).Running?
    requires ch !in AgentAfter(done).channels && AgentAfter(done + tail).Running?
    ensures DataFor(tail, ch) == [] && ch in Opened(done + tail) && ch !in AgentAfter(done + tail).channels
  {
    if tail == [] {
      assert done + tail == done;
    } else {
      var init, f := tail[..|tail| - 1], tail[|tail| - 1];
      assert tail == init + [f] && done + tail == (done + init) + [f];
      assert (done + tail)[..|done| + |init|] == done + init;
      OpensOncePrefix(done + tail, |done + init|);
      WireAppend(done + init, f);
      ClosedStaysClosed(done, init, ch);
      ClosedStep(done + init, f, ch);
      DataForAppend(init, f, ch);
    }
  }

  lemma CloseDispatched(before: seq<Frame>, f: Frame, ch: Str)
    requires OpensOnce(before) && AgentAfter(before).Running? && ch in AgentAfter(before).channels && ch != []
    requires f.kind == CloseSession && f.channelId == Some(ch)
    ensures AgentAfter(before + [f]).Running? && ch !in AgentAfter(before + [f]).channels
    ensures ch in Opened(before + [f]) && DataFor(before + [f], ch) == AgentAfter(before).channels[ch]
  {
    AgentIsFaithful(before);
    WireAppend(before, f);
    DataForAppend(before, f, ch);
    assert DataFor(before, ch) + [] == DataFor(before, ch);
  }

  lemma RunningBefore(done: seq<Frame>, tail: seq<Frame>)
    requires AgentAfter(done + tail).Running?
    ensures AgentAfter(done).Running?
  {
    ReplaySplit(Running(map[]), done, tail);
    if AgentAfter(done).Stopped? { StoppedStays(AgentAfter(done), tail); }
  }

  lemma ClosedOnWire(before: seq<Frame>, f: Frame, tail: seq<Frame>, ch: Str)
    requires OpensOnce((before + [f]) + tail) && OpensOnce(before) && AgentAfter((before + [f]) + tail).Running?
    requires f.kind == CloseSession && f.channelId == Some(ch) && ch != []
    requires AgentAfter(before).Running? && ch in AgentAfter(before).channels
    ensures AgentAfter(before).channels[ch] == DataFor((before + [f]) + tail, ch)
  {
    CloseDispatched(before, f, ch);
    ClosedStaysClosed(before + [f], tail, ch);
    DataForSplit(before + [f], tail, ch);
    assert DataFor(before + [f], ch) + [] == DataFor(before + [f], ch);
  }

  lemma NoEmptyId(before: seq<Frame>, f: Frame, tail: seq<Frame>)
    requires AgentAfter((before + [f]) + tail).Running? && f.kind == CloseSession && f.channelId.Some?
    ensures f.channelId.value != []
  {
    RunningBefore(before + [f], tail);
    WireAppend(before, f);
  }

  /** When the agent closes a socket, it has given it all the data that the wire carries for its channel. */
  lemma ClosedSocketGotAll(wire: seq<Frame>, k: nat, ch: Str)
    requires OpensOnce(wire) && AgentAfter(wire).Running? && k < |wire|
    requires wire[k].kind == CloseSession && wire[k].channelId == Some(ch)
    requires AgentAfter(wire[..k]).Running? && ch in AgentAfter(wire[..k]).channels
    ensures AgentAfter(wire[..k]).channels[ch] == DataFor(wire, ch)
  {
    var tail := wire[k + 1..];
    assert wire == (wire[..k] + [wire[k]]) + tail;
    OpensOncePrefix(wire, k);
    NoEmptyId(wire[..k], wire[k], tail);
    ClosedOnWire(wire[..k], wire[k], tail, ch);
  }

  lemma {:induction false} OpenedPrefix(wire: seq<Frame>, k: nat)
    requires k <= |wire|
    ensures Opened(wire[..k]) <= Opened(wire)
  {
    if k < |wire| {
      assert wire[..|wire| - 1][..k] == wire[..k];
      OpenedPrefix(wire[..|wire| - 1], k);
    } else {
      assert wire[..k] == wire;
    }
  }

  /** A channel that the agent forwards for, at whatever point of the wire it is, is one the server has opened. */
  lemma ForwardersAreKnown(conn: Conn, k: nat, ch: Str)
    requires WireLinked(conn) && OpensOnce(conn.wire) && k <= |conn.wire|
    requires AgentAfter(conn.wire[..k]).Running? && ch in AgentAfter(conn.wire[..k]).channels
    ensures ch in conn.streams
  {
    OpensOncePrefix(conn.wire, k);
    AgentIsFaithful(conn.wire[..k]);
    OpenedPrefix(conn.wire, k);
  }

  // ---------------------------------------------------------------- what the server was asked to send

  /** The payload that one step sends to a channel: a `send_data` call that was not refused. */
  function SentBy(s: System, step: Step, c: ConnId, ch: Str): Bytes
    requires Inv(s) && Enabled(s, step)
  {
    if step.SData? && step.channel == ch && Emits(s, step).Some? && Emits(s, step).value.0 == c then step.payload else []
  }

  /** The payloads of a run's accepted `send_data` calls for one channel of one connection, in the order of the calls. */
  ghost function SentTo(s: System, steps: seq<Step>, c: ConnId, ch: Str): Bytes
    requires Inv(s) && IsRun(s, steps)
    decreases |steps|
  {
    if steps == [] then []
    else (StepKeepsInv(s, steps[0]); SentBy(s, steps[0], c, ch) + SentTo(Next(s, steps[0]).0, steps[1..], c, ch))
  }

  lemma EmittedPayload(s: System, step: Step, c: ConnId, ch: Str)
    requires Inv(s) && Enabled(s, step)
    ensures DataFor(WrittenTo(Emits(s, step), c), ch) == SentBy(s, step, c, ch)
  {
    var e := Emits(s, step);
    if e.Some? && e.value.0 == c {
      DataForAppend([], e.value.1, ch);
      assert [] + [e.value.1] == [e.value.1];
    }
  }

  lemma WireStepData(s: System, step: Step, c: ConnId, ch: Str)
    requires Inv(s) && Enabled(s, step)
    ensures DataFor(Wire(Next(s, step).0, c), ch) == DataFor(Wire(s, c), ch) + SentBy(s, step, c, ch)
  {
    EmittedPayload(s, step, c, ch);
    if c in Next(s, step).0.broker.conns {
      WireAfterStep(s, step, c);
      DataForSplit(Wire(s, c), WrittenTo(Emits(s, step), c), ch);
    } else {
      if c in s.broker.conns { StepWire(s, step, c); }
      NothingForUnknown(s, step, c, ch);
    }
  }

  lemma NothingForUnknown(s: System, step: Step, c: ConnId, ch: Str)
    requires Inv(s) && Enabled(s, step) && c !in s.broker.conns
    ensures SentBy(s, step, c, ch) == []
  {
    if step.SData? && step.channel in s.broker.routes { assert RouteOk(s.broker, step.channel); }
  }

  /** A channel's data on the wire is exactly what the calls sent there, in order. */
  lemma {:induction false} WireCarriesCalls(s: System, steps: seq<Step>, c: ConnId, ch: Str)
    requires Inv(s) && IsRun(s, steps)
    ensures DataFor(Wire(After(s, steps), c), ch) == DataFor(Wire(s, c), ch) + SentTo(s, steps, c, ch)
    decreases |steps|
  {
    if steps == [] {
      assert DataFor(Wire(s, c), ch) + [] == DataFor(Wire(s, c), ch);
    } else {
      StepKeepsInv(s, steps[0]);
      var t := Next(s, steps[0]).0;
      WireStepData(s, steps[0], c, ch);
      WireCarriesCalls(t, steps[1..], c, ch);
      Associates(DataFor(Wire(s, c), ch), SentBy(s, steps[0], c, ch), SentTo(t, steps[1..], c, ch));
    }
  }

  lemma {:induction false} OpensOnceHolds(s: System, steps: seq<Step>)
    requires Inv(s) && AllLinked(s.broker) && AllOpenOnce(s.broker) && IsRun(s, steps)
    ensures AllOpenOnce(After(s, steps).broker)
    decreases |steps|
  {
    if steps != [] {
      StepKeepsInv(s, steps[0]);
      LinkedKept(s, steps[0]);
      OpensOnceKept(s, steps[0]);
      OpensOnceHolds(Next(s, steps[0]).0, steps[1..]);
    }
  }

  /**
   From an empty broker, after any clean run, wherever the agent is on the wire: what a local socket was given, then the
   payloads in flight for it, is what the accepted `send_data` calls for the channel sent, in the order of the calls; and
   when the agent comes to the CLOSE of a channel, its socket has been given all of it.
   */
  lemma BytesReachTheirSocket(maxSessions: int, maxFrameBytes: int,
                              encodeError: (Frame, int) -> Option<ProtocolError>, steps: seq<Step>,
                              c: ConnId, k: nat, ch: Str)
    requires var s := Initial(maxSessions, maxFrameBytes, encodeError); IsRun(s, steps) && CleanRun(s, steps)
    requires var b := After(Initial(maxSessions, maxFrameBytes, encodeError), steps).broker;
             c in b.conns && k <= |b.conns[c].wire| && !HasError(b.conns[c].wire)
    ensures var s := Initial(maxSessions, maxFrameBytes, encodeError);
            var wire := After(s, steps).broker.conns[c].wire;
            var now := AgentAfter(wire[..k]);
            now.Running?
            && (ch in now.channels ==> now.channels[ch] + DataFor(wire[k..], ch) == SentTo(s, steps, c, ch))
            && (k < |wire| && wire[k].kind == CloseSession && wire[k].channelId == Some(ch) && ch in now.channels ==>
                  now.channels[ch] == SentTo(s, steps, c, ch))
  {
    var s := Initial(maxSessions, maxFrameBytes, encodeError);
    SimulationHolds(s, steps);
    OpensOnceHolds(s, steps);
    var wire := After(s, steps).broker.conns[c].wire;
    assert Agrees(wire) && OpensOnce(wire);
    LocalBytes(wire, k, ch);
    WireCarriesCalls(s, steps, c, ch);
    if k < |wire| && wire[k].kind == CloseSession && wire[k].channelId == Some(ch) && ch in AgentAfter(wire[..k]).channels {
      ClosedSocketGotAll(wire, k, ch);
    }
  }
}
