/**
 What each call of the broker does and when it is refused, condition by condition on the tables before it. The results
 about runs say what stays true; these say what happens.
 */
module BrokerCalls {
  import opened Wrappers
  import opened Text
  import opened FrameCodec
  import opened BrokerSpec
  import opened BrokerSystem

  /** The conditions of `open_session`, all of which must hold. */
  lemma OpenIffAdmitted(s: System, agent: AgentId, ch: Str, requestId: Str, payload: Bytes, checks: OpenChecks)
    requires Inv(s)
    ensures var b, (t, o) := s.broker, Next(s, SOpen(agent, ch, requestId, payload, checks));
            && (t != s <==>
                  checks.principalMatches && checks.hostKeyPinned && checks.heartbeatFresh && ch != []
                  && agent in b.connections && b.connections[agent] in b.conns
                  && ch !in b.conns[b.connections[agent]].open && ch !in b.conns[b.connections[agent]].retired
                  && |b.conns[b.connections[agent]].open| < b.maxSessions)
            && (t != s <==> o.Done? || o.error.FrameRejected?)
  {
    var t := Next(s, SOpen(agent, ch, requestId, payload, checks)).0;
    if agent in s.broker.connections {
      assert AgentOk(s.broker, agent);
      var c := s.broker.connections[agent];
      if t == s { assert t.broker.conns[c].open == s.broker.conns[c].open; }
    }
  }

  /** What an admitted `open_session` leaves behind: all tables updated, and the frame written unless it cannot be encoded. */
  lemma OpenEffect(s: System, agent: AgentId, ch: Str, requestId: Str, payload: Bytes, checks: OpenChecks)
    requires Inv(s) && Next(s, SOpen(agent, ch, requestId, payload, checks)).0 != s
    ensures var b, (t, o) := s.broker, Next(s, SOpen(agent, ch, requestId, payload, checks));
            var f := Frame(OpenSession, requestId, Some(ch), payload);
            var error := b.encodeError(f, b.maxFrameBytes);
            agent in b.connections && b.connections[agent] in b.conns
            && var c := b.connections[agent]; var conn := b.conns[c];
               && o == (if error.None? then Done else Raised(FrameRejected(error.value)))
               && t == s.(broker := b.(
                    routes := b.routes[ch := agent],
                    conns := b.conns[c := conn.(open := conn.open + {ch}, adapters := conn.adapters + {ch},
                                                streams := conn.streams[ch := Stream([], false)],
                                                wire := if error.None? then conn.wire + [f] else conn.wire)]))
  {
    if agent in s.broker.connections { assert AgentOk(s.broker, agent); }
  }

  /** Which error a refused `open_session` raises: that of the first condition that fails. */
  lemma OpenErrors(s: System, agent: AgentId, ch: Str, requestId: Str, payload: Bytes, checks: OpenChecks)
    requires Inv(s)
    ensures var b, o := s.broker, Next(s, SOpen(agent, ch, requestId, payload, checks)).1;
            if !checks.principalMatches then o == Raised(PrincipalMismatch)
            else if !checks.hostKeyPinned then o == Raised(HostKeyNotPinned)
            else if ch == [] then o == Raised(ChannelIdRequired)
            else if agent !in b.connections then o == Raised(NotConnected)
            else if !checks.heartbeatFresh then o == Raised(HeartbeatStale)
            else b.connections[agent] in b.conns
                 && var conn := b.conns[b.connections[agent]];
                    if ch in conn.open + conn.retired then o == Raised(ChannelReuse)
                    else if |conn.open| >= b.maxSessions then o == Raised(MaxSessionsExceeded)
                    else o.Done? || o.error.FrameRejected?
  {
    if agent in s.broker.connections { assert AgentOk(s.broker, agent); }
  }

  /** A registration: refused while another connection has the agent's slot, else a new connection that owns it. */
  lemma RegisterEffect(s: System, agent: AgentId, c: ConnId, requestId: Str)
    requires Inv(s) && Enabled(s, SRegister(agent, c, requestId))
    ensures var b, (t, o) := s.broker, Next(s, SRegister(agent, c, requestId));
            var f := Frame(AuthOk, requestId, None, []);
            var error := b.encodeError(f, b.maxFrameBytes);
            if b.maxSessions <= 0 then t == s && o == Raised(MaxSessionsInvalid)
            else if agent in b.active then t == s && o == Raised(DuplicateTunnel)
            else
              && o == (if error.None? then Done else Raised(FrameRejected(error.value)))
              && t == System(b.(active := b.active[agent := c], connections := b.connections[agent := c],
                                conns := b.conns[c := Conn(agent, {}, {}, {}, map[], if error.None? then [f] else [])]),
                             s.handlers + {c}, s.closers)
  {
    assert [] + [Frame(AuthOk, requestId, None, [])] == [Frame(AuthOk, requestId, None, [])];
    if agent in s.broker.connections { assert AgentOk(s.broker, agent); }
  }

  /**
   A frame on an open channel, for the three calls that send one: refused if the channel has no route, else it is the
   next frame on the wire of the connection that carries the channel, unless it cannot be encoded.
   */
  lemma SendEffect(s: System, kind: FrameType, ch: Str, requestId: Str, payload: Bytes)
    requires Inv(s)
    ensures var b := s.broker; var (t, o) := SendOnChannel(b, kind, ch, requestId, payload);
            if ch !in b.routes then t == b && o == Raised(ChannelNotOpen)
            else
              b.routes[ch] in b.connections && b.connections[b.routes[ch]] in b.conns
              && var c, f := b.connections[b.routes[ch]], Frame(kind, requestId, Some(ch), payload);
                 var error := b.encodeError(f, b.maxFrameBytes);
                 if error.Some? then t == b && o == Raised(FrameRejected(error.value))
                 else o == Done && t == b.(conns := b.conns[c := b.conns[c].(wire := b.conns[c].wire + [f])])
  {
    if ch in s.broker.routes {
      assert RouteOk(s.broker, ch) && AgentOk(s.broker, s.broker.routes[ch]);
      var c := s.broker.connections[s.broker.routes[ch]];
      assert ConnOk(s.broker.conns[c], s.broker.maxSessions);
    }
  }

  /** Data, resize and the first half of a close are sends of that kind; the close leaves its second half behind. */
  lemma SendSteps(s: System, ch: Str, requestId: Str, payload: Bytes)
    requires Inv(s)
    ensures var (b, o) := SendOnChannel(s.broker, SessionData, ch, requestId, payload);
            Next(s, SData(ch, requestId, payload)) == (s.(broker := b), o)
    ensures var (b, o) := SendOnChannel(s.broker, ResizePty, ch, requestId, payload);
            Next(s, SResize(ch, requestId, payload)) == (s.(broker := b), o)
    ensures var (b, o) := SendOnChannel(s.broker, CloseSession, ch, requestId, []);
            var (t, p) := Next(s, SCloseBegin(ch, requestId));
            p == o && t.broker == b && t.handlers == s.handlers
            && (o != Done ==> t.closers == s.closers)
            && (o == Done ==>
                  ch in s.broker.routes && s.broker.routes[ch] in s.broker.connections
                  && t.closers == s.closers + multiset{(s.broker.connections[s.broker.routes[ch]], ch)})
  {
    SendEffect(s, CloseSession, ch, requestId, []);
  }

  /** `BrokerTunnelStream.close`: once, and the stream is closed even when its CLOSE cannot be sent. */
  lemma StreamCloseEffect(s: System, c: ConnId, ch: Str, requestId: Str)
    requires Inv(s) && Enabled(s, SStreamClose(c, ch, requestId))
    ensures var conn := s.broker.conns[c]; var stream := conn.streams[ch];
            var marked := s.(broker := s.broker.(
              conns := s.broker.conns[c := conn.(streams := conn.streams[ch := Stream(stream.buffer, true)])]));
            Inv(marked)
            && Next(s, SStreamClose(c, ch, requestId))
               == if stream.closed then (s, Done) else Next(marked, SCloseBegin(ch, requestId))
  {
    SetStreamKeepsInv(s, c, ch, s.broker.conns[c].streams[ch].(closed := true));
  }

  /** The second half of a close, and one that was cancelled in between. */
  lemma CloseEndEffect(s: System, c: ConnId, ch: Str)
    requires Inv(s) && (c, ch) in s.closers
    ensures c in s.broker.conns
    ensures var b, left := s.broker, s.closers - multiset{(c, ch)}; var conn := b.conns[c];
            && Next(s, SCloseAbort(c, ch)) == (s.(closers := left), Done)
            && Next(s, SCloseEnd(c, ch))
               == if ch !in conn.open then (s.(closers := left), Raised(UnknownChannel))
                  else (System(b.(routes := b.routes - {ch},
                                  conns := b.conns[c := conn.(open := conn.open - {ch}, retired := conn.retired + {ch},
                                                              adapters := conn.adapters - {ch})]),
                               s.handlers, left),
                        Done)
  {
    CloserHasConn(s, c, ch);
  }

  /**
   A frame of the agent. Data is appended to its channel's buffer and a close ends the stream and retires the channel,
   each only for a channel that is open; anything else but a heartbeat is an error that changes nothing.
   */
  lemma AgentFrameEffect(s: System, c: ConnId, f: Frame)
    requires Inv(s) && Enabled(s, SAgentFrame(c, f))
    ensures c in s.broker.conns
    ensures var b, conn := s.broker, s.broker.conns[c];
            var (t, o) := Next(s, SAgentFrame(c, f));
            if f.kind == Heartbeat then t == s && o == Done
            else if f.kind !in {SessionData, CloseSession} then t == s && o == Raised(FrameTypeNotAccepted)
            else if f.channelId.None? then t == s && o == Raised(ChannelIdRequired)
            else if f.channelId.value !in conn.open then t == s && o == Raised(UnknownChannel)
            else
              var ch := f.channelId.value;
              o == Done && ch in conn.streams
              && t == s.(broker :=
                   if f.kind == SessionData then
                     b.(conns := b.conns[c := conn.(streams := conn.streams[
                       ch := Stream(conn.streams[ch].buffer + f.payload, conn.streams[ch].closed)])])
                   else
                     b.(routes := b.routes - {ch},
                        conns := b.conns[c := conn.(streams := conn.streams[ch := Stream(conn.streams[ch].buffer, true)],
                                                    open := conn.open - {ch}, retired := conn.retired + {ch},
                                                    adapters := conn.adapters - {ch})]))
  {
    HandlerHasConn(s, c);
    assert ConnOk(s.broker.conns[c], s.broker.maxSessions);
  }

  /** The ERROR frame is bounded by 1 MiB, whatever the broker's own limit. */
  lemma ErrorFrameEffect(s: System, c: ConnId, requestId: Str)
    requires Inv(s) && Enabled(s, SErrorFrame(c, requestId))
    ensures c in s.broker.conns
    ensures var b, conn, f := s.broker, s.broker.conns[c], Frame(FrameType.Error, requestId, None, []);
            Next(s, SErrorFrame(c, requestId))
            == (if b.encodeError(f, 1048576).Some? then s
                else s.(broker := b.(conns := b.conns[c := conn.(wire := conn.wire + [f])])), Done)
  {
    HandlerHasConn(s, c);
  }

  /** A drop: the owner's takes slot and routes and ends the open streams, anyone else's takes nothing. */
  lemma DropEffect(s: System, agent: AgentId, c: ConnId)
    requires Inv(s) && Enabled(s, SDrop(agent, c))
    ensures var b := s.broker; var (t, o) := Next(s, SDrop(agent, c));
            && o == Done && t.handlers == s.handlers - {c} && t.closers == s.closers
            && if agent in b.active && b.active[agent] == c then
                 c in b.conns
                 && var conn := b.conns[c];
                    && t.broker == b.(active := b.active - {agent}, connections := b.connections - {agent},
                                      routes := b.routes - conn.open,
                                      conns := b.conns[c := conn.(streams := t.broker.conns[c].streams)])
                    && t.broker.conns[c].streams.Keys == conn.streams.Keys
                    && forall ch :: ch in conn.streams ==>
                         t.broker.conns[c].streams[ch]
                         == Stream(conn.streams[ch].buffer, conn.streams[ch].closed || ch in conn.open)
               else t.broker == b
  {
    if agent in s.broker.connections {
      assert AgentOk(s.broker, agent);
      assert ConnOk(s.broker.conns[s.broker.connections[agent]], s.broker.maxSessions);
    }
  }

  /** A read takes everything, or as many octets as asked for, from the front of the buffer. */
  lemma ReadEffect(s: System, c: ConnId, ch: Str, n: int)
    requires Inv(s) && Enabled(s, SRead(c, ch, n))
    ensures var conn := s.broker.conns[c]; var stream := conn.streams[ch];
            var taken := if 0 <= n < |stream.buffer| then n else |stream.buffer|;
            && ReadStream(stream, n).0 == stream.buffer[..taken]
            && Next(s, SRead(c, ch, n))
               == (s.(broker := s.broker.(
                     conns := s.broker.conns[c := conn.(streams :=
                       conn.streams[ch := Stream(stream.buffer[taken..], stream.closed)])])), Done)
  {
    var stream := s.broker.conns[c].streams[ch];
    assert stream.buffer[|stream.buffer|..] == [];
  }
}
