/**
 Runs that show where the tunnel's promises end: one server, one agent, one connection, with the real codec. Each run
 is one that the code can make, and its last state is computed.
 */
module TunnelExamples {
  import opened Wrappers
  import opened Text
  import opened FrameCodec
  import opened FrameStream
  import opened BrokerSpec
  import opened BrokerSystem
  import opened AgentSpec
  import opened AgentOctets
  import opened TunnelSimulation
  import opened TunnelOpenSet
  import opened TunnelOctets
  import opened TunnelEndToEnd

  // ---------------------------------------------------------------- the states of one connection

  /** Agent 0 on connection 0, with these channels open and nothing received on them. */
  function One(maxSessions: int, maxFrameBytes: int, open: set<Str>, wire: seq<Frame>,
               closers: multiset<(ConnId, Str)>): System
  {
    System(Broker(map[0 := 0], map[0 := 0], map ch | ch in open :: 0,
                  map[0 := Conn(0, open, {}, open, map ch | ch in open :: Stream([], false), wire)],
                  maxSessions, maxFrameBytes, CodecError),
           {0}, closers)
  }

  const ACCEPTED: OpenChecks := OpenChecks(true, true, true)

  ghost predicate ShortId(id: Str) {
    0 < |id| <= 300
  }

  lemma Encodes(f: Frame, maxFrameBytes: int)
    requires 0 < maxFrameBytes <= 16777216 && |f.payload| <= maxFrameBytes && ShortId(f.requestId)
    requires f.channelId.Some? ==> ShortId(f.channelId.value)
    ensures CodecError(f, maxFrameBytes).None? && Sent(f)
  {
    SixteenMebibytes();
    ShortIdsFit(f, maxFrameBytes);
    SentUnderLimit(f, maxFrameBytes);
  }

  function AuthOkFrame(requestId: Str): Frame {
    Frame(AuthOk, requestId, None, [])
  }

  lemma Registers(maxSessions: int, maxFrameBytes: int, requestId: Str)
    requires 0 < maxSessions && 0 < maxFrameBytes <= 16777216 && ShortId(requestId)
    ensures var s, step := NewServer(maxSessions, maxFrameBytes), SRegister(0, 0, requestId);
            Enabled(s, step)
            && Next(s, step).0 == One(maxSessions, maxFrameBytes, {}, [AuthOkFrame(requestId)], multiset{})
  {
    Encodes(AuthOkFrame(requestId), maxFrameBytes);
    var s, t := NewServer(maxSessions, maxFrameBytes),
                One(maxSessions, maxFrameBytes, {}, [AuthOkFrame(requestId)], multiset{});
    var r := Register(s.broker, 0, 0, requestId).0;
    assert [] + [AuthOkFrame(requestId)] == [AuthOkFrame(requestId)];
    assert r.conns[0] == t.broker.conns[0];
    assert r.conns == t.broker.conns && r.routes == t.broker.routes;
  }

  lemma AttachesOne(maxSessions: int, maxFrameBytes: int, open: set<Str>, wire: seq<Frame>,
                    closers: multiset<(ConnId, Str)>, ch: Str)
    ensures var s := One(maxSessions, maxFrameBytes, open, wire, closers);
            0 in s.broker.conns
            && s.(broker := Attach(s.broker, 0, 0, ch)) == One(maxSessions, maxFrameBytes, open + {ch}, wire, closers)
  {
    var s, t := One(maxSessions, maxFrameBytes, open, wire, closers),
                One(maxSessions, maxFrameBytes, open + {ch}, wire, closers);
    var b := Attach(s.broker, 0, 0, ch);
    assert b.routes == t.broker.routes;
    assert b.conns[0].streams == t.broker.conns[0].streams;
    assert b.conns == t.broker.conns;
  }

  /** An `open_session` that nothing refuses; its frame is written if the codec takes it. */
  lemma Opens(maxSessions: int, maxFrameBytes: int, open: set<Str>, wire: seq<Frame>, closers: multiset<(ConnId, Str)>,
              ch: Str, requestId: Str, payload: Bytes)
    requires Inv(One(maxSessions, maxFrameBytes, open, wire, closers))
    requires ch != [] && ch !in open && |open| < maxSessions
    ensures var s, f := One(maxSessions, maxFrameBytes, open, wire, closers), OpenFrame(ch, requestId, payload);
            var step := SOpen(0, ch, requestId, payload, ACCEPTED);
            && OpenRefusal(s.broker, 0, ch, ACCEPTED).None?
            && Next(s, step).0 == One(maxSessions, maxFrameBytes, open + {ch},
                                      if CodecError(f, maxFrameBytes).None? then wire + [f] else wire, closers)
            && Emits(s, step) == if CodecError(f, maxFrameBytes).None? then Some((0, f)) else None
  {
    var s, f := One(maxSessions, maxFrameBytes, open, wire, closers), OpenFrame(ch, requestId, payload);
    AttachesOne(maxSessions, maxFrameBytes, open, wire, closers, ch);
    if CodecError(f, maxFrameBytes).None? {
      WritesOne(maxSessions, maxFrameBytes, open + {ch}, wire, closers, f);
    }
  }

  lemma WritesOne(maxSessions: int, maxFrameBytes: int, open: set<Str>, wire: seq<Frame>,
                  closers: multiset<(ConnId, Str)>, f: Frame)
    requires CodecError(f, maxFrameBytes).None?
    ensures var s := One(maxSessions, maxFrameBytes, open, wire, closers);
            0 in s.broker.conns
            && s.(broker := WriteFrame(s.broker, 0, f).0)
               == One(maxSessions, maxFrameBytes, open, wire + [f], closers)
            && WriteFrame(s.broker, 0, f).1 == Done
  {
    var s, t := One(maxSessions, maxFrameBytes, open, wire, closers),
                One(maxSessions, maxFrameBytes, open, wire + [f], closers);
    assert WriteFrame(s.broker, 0, f).0.conns == t.broker.conns;
  }

  lemma Sends(maxSessions: int, maxFrameBytes: int, open: set<Str>, wire: seq<Frame>, closers: multiset<(ConnId, Str)>,
              ch: Str, requestId: Str, payload: Bytes)
    requires Inv(One(maxSessions, maxFrameBytes, open, wire, closers)) && ch in open
    requires CodecError(Frame(SessionData, requestId, Some(ch), payload), maxFrameBytes).None?
    ensures var s, f := One(maxSessions, maxFrameBytes, open, wire, closers),
                        Frame(SessionData, requestId, Some(ch), payload);
            Next(s, SData(ch, requestId, payload)).0 == One(maxSessions, maxFrameBytes, open, wire + [f], closers)
            && Emits(s, SData(ch, requestId, payload)) == Some((0, f))
  {
    WritesOne(maxSessions, maxFrameBytes, open, wire, closers, Frame(SessionData, requestId, Some(ch), payload));
  }

  lemma BeginsClose(maxSessions: int, maxFrameBytes: int, open: set<Str>, wire: seq<Frame>,
                    closers: multiset<(ConnId, Str)>, ch: Str, requestId: Str)
    requires Inv(One(maxSessions, maxFrameBytes, open, wire, closers)) && ch in open
    requires CodecError(Frame(CloseSession, requestId, Some(ch), []), maxFrameBytes).None?
    ensures var s, f := One(maxSessions, maxFrameBytes, open, wire, closers), Frame(CloseSession, requestId, Some(ch), []);
            Next(s, SCloseBegin(ch, requestId)).0
            == One(maxSessions, maxFrameBytes, open, wire + [f], closers + multiset{(0, ch)})
            && Emits(s, SCloseBegin(ch, requestId)) == Some((0, f))
  {
    WritesOne(maxSessions, maxFrameBytes, open, wire, closers, Frame(CloseSession, requestId, Some(ch), []));
  }

  /** A run with one more step in front. */
  lemma Cons(s: System, step: Step, rest: seq<Step>)
    requires Inv(s) && Enabled(s, step) && Inv(Next(s, step).0) && IsRun(Next(s, step).0, rest)
    ensures IsRun(s, [step] + rest) && After(s, [step] + rest) == After(Next(s, step).0, rest)
    ensures CleanRun(s, [step] + rest) <==> !LateStep(s, step) && CleanRun(Next(s, step).0, rest)
    ensures OwnAgentRun(s, [step] + rest)
       <==> FromOwnAgent(step) && !StrandsOpen(s, step) && OwnAgentRun(Next(s, step).0, rest)
  {
    assert ([step] + rest)[1..] == rest;
  }

  // ---------------------------------------------------------------- the runs

  lemma Registered(maxSessions: int, maxFrameBytes: int, r: Str)
    requires 0 < maxSessions && 0 < maxFrameBytes <= 16777216 && ShortId(r)
    ensures Enabled(NewServer(maxSessions, maxFrameBytes), SRegister(0, 0, r))
    ensures Next(NewServer(maxSessions, maxFrameBytes), SRegister(0, 0, r)).0
         == One(maxSessions, maxFrameBytes, {}, [AuthOkFrame(r)], multiset{})
    ensures Inv(One(maxSessions, maxFrameBytes, {}, [AuthOkFrame(r)], multiset{}))
    ensures !LateStep(NewServer(maxSessions, maxFrameBytes), SRegister(0, 0, r))
    ensures !StrandsOpen(NewServer(maxSessions, maxFrameBytes), SRegister(0, 0, r)) && Sent(AuthOkFrame(r))
  {
    Registers(maxSessions, maxFrameBytes, r);
    Encodes(AuthOkFrame(r), maxFrameBytes);
    StepKeepsInv(NewServer(maxSessions, maxFrameBytes), SRegister(0, 0, r));
  }

  function OpenStep(ch: Str, r: Str): Step {
    SOpen(0, ch, r, [], ACCEPTED)
  }

  /** Opening a channel with short ids, on a connection with room. */
  lemma OpenedShort(maxSessions: int, maxFrameBytes: int, open: set<Str>, wire: seq<Frame>, ch: Str, r: Str)
    requires Inv(One(maxSessions, maxFrameBytes, open, wire, multiset{})) && 0 < maxFrameBytes <= 16777216
    requires ShortId(ch) && ShortId(r) && ch !in open && |open| < maxSessions
    ensures var s, t := One(maxSessions, maxFrameBytes, open, wire, multiset{}),
                        One(maxSessions, maxFrameBytes, open + {ch}, wire + [OpenFrame(ch, r, [])], multiset{});
            && Next(s, OpenStep(ch, r)).0 == t && Inv(t) && Sent(OpenFrame(ch, r, []))
            && !LateStep(s, OpenStep(ch, r)) && !StrandsOpen(s, OpenStep(ch, r))
  {
    Encodes(OpenFrame(ch, r, []), maxFrameBytes);
    Opens(maxSessions, maxFrameBytes, open, wire, multiset{}, ch, r, []);
    StepKeepsInv(One(maxSessions, maxFrameBytes, open, wire, multiset{}), OpenStep(ch, r));
  }

  /** An orderly run, and where it ends. */
  ghost predicate GoodRun(s: System, steps: seq<Step>, end: System) {
    Inv(s) && IsRun(s, steps) && CleanRun(s, steps) && OwnAgentRun(s, steps) && After(s, steps) == end
  }

  lemma ThenOpens(maxSessions: int, maxFrameBytes: int, open: set<Str>, wire: seq<Frame>, ch: Str, r: Str,
                  rest: seq<Step>, end: System)
    requires Inv(One(maxSessions, maxFrameBytes, open, wire, multiset{})) && 0 < maxFrameBytes <= 16777216
    requires ShortId(ch) && ShortId(r) && ch !in open && |open| < maxSessions
    requires GoodRun(One(maxSessions, maxFrameBytes, open + {ch}, wire + [OpenFrame(ch, r, [])], multiset{}), rest, end)
    ensures GoodRun(One(maxSessions, maxFrameBytes, open, wire, multiset{}), [OpenStep(ch, r)] + rest, end)
  {
    OpenedShort(maxSessions, maxFrameBytes, open, wire, ch, r);
    Cons(One(maxSessions, maxFrameBytes, open, wire, multiset{}), OpenStep(ch, r), rest);
  }

  lemma ThenRegisters(maxSessions: int, maxFrameBytes: int, r: Str, rest: seq<Step>, end: System)
    requires 0 < maxSessions && 0 < maxFrameBytes <= 16777216 && ShortId(r)
    requires GoodRun(One(maxSessions, maxFrameBytes, {}, [AuthOkFrame(r)], multiset{}), rest, end)
    ensures GoodRun(NewServer(maxSessions, maxFrameBytes), [SRegister(0, 0, r)] + rest, end)
  {
    Registered(maxSessions, maxFrameBytes, r);
    Cons(NewServer(maxSessions, maxFrameBytes), SRegister(0, 0, r), rest);
  }

  lemma AfterRegister(maxSessions: int, maxFrameBytes: int, r: Str)
    requires 0 < maxSessions && 0 < maxFrameBytes <= 16777216 && ShortId(r)
    ensures Inv(One(maxSessions, maxFrameBytes, {}, [AuthOkFrame(r)], multiset{})) && Sent(AuthOkFrame(r))
  {
    Registered(maxSessions, maxFrameBytes, r);
  }

  lemma AfterOpen(maxSessions: int, maxFrameBytes: int, open: set<Str>, wire: seq<Frame>, ch: Str, r: Str)
    requires Inv(One(maxSessions, maxFrameBytes, open, wire, multiset{})) && 0 < maxFrameBytes <= 16777216
    requires ShortId(ch) && ShortId(r) && ch !in open && |open| < maxSessions
    ensures Inv(One(maxSessions, maxFrameBytes, open + {ch}, wire + [OpenFrame(ch, r, [])], multiset{}))
    ensures Sent(OpenFrame(ch, r, []))
  {
    OpenedShort(maxSessions, maxFrameBytes, open, wire, ch, r);
  }

  lemma SentTogether(a: Frame, b: Frame, c: Frame)
    requires Sent(a) && Sent(b) && Sent(c)
    ensures AllSent([a] + [b] + [c])
  {
  }

  lemma EndsHere(s: System)
    requires Inv(s)
    ensures GoodRun(s, [], s)
  {
  }

  // ---------------------------------------------------------------- two ids that decode to one

  function TwoOpens(a: Str, b: Str, r: Str): seq<Step> {
    [SRegister(0, 0, r)] + ([OpenStep(a, r)] + ([OpenStep(b, r)] + []))
  }

  function TwoOpensWire(a: Str, b: Str, r: Str): seq<Frame> {
    [AuthOkFrame(r)] + [OpenFrame(a, r, [])] + [OpenFrame(b, r, [])]
  }

  function TwoOpensEnd(a: Str, b: Str, r: Str): System {
    One(2, 65536, {} + {a} + {b}, TwoOpensWire(a, b, r), multiset{})
  }

  lemma SecondOpenRun(a: Str, b: Str, r: Str)
    requires ShortId(a) && ShortId(b) && ShortId(r) && a != b
    requires Inv(One(2, 65536, {} + {a}, [AuthOkFrame(r)] + [OpenFrame(a, r, [])], multiset{}))
    ensures GoodRun(One(2, 65536, {} + {a}, [AuthOkFrame(r)] + [OpenFrame(a, r, [])], multiset{}),
                    [OpenStep(b, r)] + [], TwoOpensEnd(a, b, r))
    ensures Sent(OpenFrame(b, r, []))
  {
    var w1 := [AuthOkFrame(r)] + [OpenFrame(a, r, [])];
    AfterOpen(2, 65536, {} + {a}, w1, b, r);
    EndsHere(TwoOpensEnd(a, b, r));
    ThenOpens(2, 65536, {} + {a}, w1, b, r, [], TwoOpensEnd(a, b, r));
  }

  lemma BothOpensRun(a: Str, b: Str, r: Str)
    requires ShortId(a) && ShortId(b) && ShortId(r) && a != b
    requires Inv(One(2, 65536, {}, [AuthOkFrame(r)], multiset{}))
    ensures GoodRun(One(2, 65536, {}, [AuthOkFrame(r)], multiset{}), [OpenStep(a, r)] + ([OpenStep(b, r)] + []),
                    TwoOpensEnd(a, b, r))
    ensures Sent(OpenFrame(a, r, [])) && Sent(OpenFrame(b, r, []))
  {
    AfterOpen(2, 65536, {}, [AuthOkFrame(r)], a, r);
    SecondOpenRun(a, b, r);
    ThenOpens(2, 65536, {}, [AuthOkFrame(r)], a, r, [OpenStep(b, r)] + [], TwoOpensEnd(a, b, r));
  }

  lemma TwoOpensRun(a: Str, b: Str, r: Str)
    requires ShortId(a) && ShortId(b) && ShortId(r) && a != b
    ensures GoodRun(NewServer(2, 65536), TwoOpens(a, b, r), TwoOpensEnd(a, b, r))
    ensures AllSent(TwoOpensWire(a, b, r))
  {
    AfterRegister(2, 65536, r);
    BothOpensRun(a, b, r);
    ThenRegisters(2, 65536, r, [OpenStep(a, r)] + ([OpenStep(b, r)] + []), TwoOpensEnd(a, b, r));
    SentTogether(AuthOkFrame(r), OpenFrame(a, r, []), OpenFrame(b, r, []));
  }

  lemma TwoOpensOnFrames(a: Str, b: Str, r: Str)
    requires ShortId(a) && ShortId(b) && a != b
    ensures AgentAfter(TwoOpensWire(a, b, r)).Running?
  {
    var w0 := [AuthOkFrame(r)];
    assert [] + w0 == w0;
    WireAppend([], AuthOkFrame(r));
    WireAppend(w0, OpenFrame(a, r, []));
    WireAppend(w0 + [OpenFrame(a, r, [])], OpenFrame(b, r, []));
  }

  lemma TwoOpensOnOctets(a: Str, b: Str, r: Str, limit: int)
    requires a != [] && b != [] && MergePairs(a) == MergePairs(b) && 0 < limit
    ensures HandledAll(map[], TwoOpensWire(a, b, r), limit) == Rejected(ReuseRejected)
  {
    var w0 := [AuthOkFrame(r)];
    MergedId(a);
    assert [] + w0 == w0;
    HandledAppend(map[], [], AuthOkFrame(r), limit);
    HandledAppend(map[], w0, OpenFrame(a, r, []), limit);
    HandledAppend(map[], w0 + [OpenFrame(a, r, [])], OpenFrame(b, r, []), limit);
  }

  /** The code points of one surrogate pair, apart and fused. */
  const APART: Str := [0xD800, 0xDC00]

  const FUSED: Str := [0x10000]

  lemma ApartFuses()
    ensures MergePairs(APART) == FUSED && MergePairs(FUSED) == FUSED && APART != FUSED
  {
    assert PairAt(APART, 0);
    assert APART[2..] == [] && FUSED[1..] == [];
    assert |APART| != |FUSED|;
  }

  /**
   Two channel ids that decode to one: an orderly run, which the agent would follow frame by frame, and yet on the
   octets it rejects the second OPEN as a reuse.
   */
  lemma FusedIdsFailAgent(r: Str, limit: int)
    requires ShortId(r) && 0 < limit
    ensures var s, steps := NewServer(2, 65536), TwoOpens(APART, FUSED, r);
            && IsRun(s, steps) && CleanRun(s, steps) && OwnAgentRun(s, steps) && 0 in After(s, steps).broker.conns
            && var wire := After(s, steps).broker.conns[0].wire;
               && AgentAfter(wire).Running? && AllSent(wire)
               && AgentLoop(map[], WireOctets(wire), limit) == Rejected(ReuseRejected)
  {
    ApartFuses();
    TwoOpensRun(APART, FUSED, r);
    TwoOpensOnFrames(APART, FUSED, r);
    TwoOpensOnOctets(APART, FUSED, r, limit);
    LoopOfWire(map[], TwoOpensWire(APART, FUSED, r), limit);
  }

  // ---------------------------------------------------------------- a payload over the agent's limit

  function OpenAndSend(ch: Str, r: Str, payload: Bytes): seq<Step> {
    [SRegister(0, 0, r)] + ([OpenStep(ch, r)] + ([SData(ch, r, payload)] + []))
  }

  function DataTo(ch: Str, r: Str, payload: Bytes): Frame {
    Frame(SessionData, r, Some(ch), payload)
  }

  function OpenAndSendWire(ch: Str, r: Str, payload: Bytes): seq<Frame> {
    [AuthOkFrame(r)] + [OpenFrame(ch, r, [])] + [DataTo(ch, r, payload)]
  }

  /** Sending on an open, announced channel. */
  lemma ThenSends(maxSessions: int, maxFrameBytes: int, open: set<Str>, wire: seq<Frame>, ch: Str, r: Str, payload: Bytes)
    requires Inv(One(maxSessions, maxFrameBytes, open, wire, multiset{})) && 0 < maxFrameBytes <= 16777216
    requires ShortId(ch) && ShortId(r) && ch in open && |payload| <= maxFrameBytes && ch in Announced(wire)
    ensures GoodRun(One(maxSessions, maxFrameBytes, open, wire, multiset{}), [SData(ch, r, payload)] + [],
                    One(maxSessions, maxFrameBytes, open, wire + [DataTo(ch, r, payload)], multiset{}))
    ensures Sent(DataTo(ch, r, payload))
  {
    var s := One(maxSessions, maxFrameBytes, open, wire, multiset{});
    Encodes(DataTo(ch, r, payload), maxFrameBytes);
    Sends(maxSessions, maxFrameBytes, open, wire, multiset{}, ch, r, payload);
    StepKeepsInv(s, SData(ch, r, payload));
    Cons(s, SData(ch, r, payload), []);
  }

  lemma AnnouncesOne(ch: Str, r: Str)
    ensures Announced([AuthOkFrame(r)] + [OpenFrame(ch, r, [])]) == {ch}
  {
    assert [] + [AuthOkFrame(r)] == [AuthOkFrame(r)];
    WireAppend([], AuthOkFrame(r));
    WireAppend([AuthOkFrame(r)], OpenFrame(ch, r, []));
  }

  function OpenAndSendEnd(ch: Str, r: Str, payload: Bytes): System {
    One(1, 16777216, {} + {ch}, OpenAndSendWire(ch, r, payload), multiset{})
  }

  lemma OpenThenSend(ch: Str, r: Str, payload: Bytes)
    requires ShortId(ch) && ShortId(r) && |payload| <= 16777216
    requires Inv(One(1, 16777216, {}, [AuthOkFrame(r)], multiset{}))
    ensures GoodRun(One(1, 16777216, {}, [AuthOkFrame(r)], multiset{}), [OpenStep(ch, r)] + ([SData(ch, r, payload)] + []),
                    OpenAndSendEnd(ch, r, payload))
    ensures Sent(OpenFrame(ch, r, [])) && Sent(DataTo(ch, r, payload))
  {
    AfterOpen(1, 16777216, {}, [AuthOkFrame(r)], ch, r);
    AnnouncesOne(ch, r);
    ThenSends(1, 16777216, {} + {ch}, [AuthOkFrame(r)] + [OpenFrame(ch, r, [])], ch, r, payload);
    ThenOpens(1, 16777216, {}, [AuthOkFrame(r)], ch, r, [SData(ch, r, payload)] + [], OpenAndSendEnd(ch, r, payload));
  }

  lemma OpenAndSendRun(ch: Str, r: Str, payload: Bytes)
    requires ShortId(ch) && ShortId(r) && |payload| <= 16777216
    ensures GoodRun(NewServer(1, 16777216), OpenAndSend(ch, r, payload), OpenAndSendEnd(ch, r, payload))
    ensures AllSent(OpenAndSendWire(ch, r, payload))
  {
    AfterRegister(1, 16777216, r);
    OpenThenSend(ch, r, payload);
    ThenRegisters(1, 16777216, r, [OpenStep(ch, r)] + ([SData(ch, r, payload)] + []), OpenAndSendEnd(ch, r, payload));
    SentTogether(AuthOkFrame(r), OpenFrame(ch, r, []), DataTo(ch, r, payload));
  }

  lemma TooLargeOnOctets(ch: Str, r: Str, payload: Bytes, limit: int)
    requires ch != [] && 0 < limit < |payload|
    ensures HandledAll(map[], OpenAndSendWire(ch, r, payload), limit) == ReadFailed(BadFrame(PayloadTooLarge))
  {
    var w0 := [AuthOkFrame(r)];
    MergedId(ch);
    assert [] + w0 == w0;
    HandledAppend(map[], [], AuthOkFrame(r), limit);
    HandledAppend(map[], w0, OpenFrame(ch, r, []), limit);
    HandledAppend(map[], w0 + [OpenFrame(ch, r, [])], DataTo(ch, r, payload), limit);
  }

  /**
   A server configured for frames of 16 MiB sends 2 MiB on an open channel: the agent, which reads with 1 MiB whatever
   the server's configuration says, raises on the frame.
   */
  lemma LargePayloadFailsAgent(ch: Str, r: Str, payload: Bytes)
    requires ShortId(ch) && ShortId(r) && |payload| == 2 * 1024 * 1024
    ensures var s, steps := NewServer(1, 16777216), OpenAndSend(ch, r, payload);
            && IsRun(s, steps) && CleanRun(s, steps) && OwnAgentRun(s, steps) && 0 in After(s, steps).broker.conns
            && var wire := After(s, steps).broker.conns[0].wire;
               AllSent(wire)
               && AgentLoop(map[], WireOctets(wire), 1024 * 1024) == ReadFailed(BadFrame(PayloadTooLarge))
  {
    OpenAndSendRun(ch, r, payload);
    TooLargeOnOctets(ch, r, payload, 1024 * 1024);
    LoopOfWire(map[], OpenAndSendWire(ch, r, payload), 1024 * 1024);
  }

  // ---------------------------------------------------------------- a send between the halves of a close

  function CloseThenSend(ch: Str, r: Str, payload: Bytes): seq<Step> {
    [SRegister(0, 0, r)] + ([OpenStep(ch, r)] + ([SCloseBegin(ch, r)] + ([SData(ch, r, payload)] + [])))
  }

  function CloseFrame(ch: Str, r: Str): Frame {
    Frame(CloseSession, r, Some(ch), [])
  }

  function CloseThenSendWire(ch: Str, r: Str, payload: Bytes): seq<Frame> {
    [AuthOkFrame(r)] + [OpenFrame(ch, r, [])] + [CloseFrame(ch, r)] + [DataTo(ch, r, payload)]
  }

  /** A run, orderly or not, and where it ends. */
  ghost predicate RunTo(s: System, steps: seq<Step>, end: System) {
    Inv(s) && IsRun(s, steps) && After(s, steps) == end
  }

  lemma ThenLateSend(wire: seq<Frame>, ch: Str, r: Str, payload: Bytes)
    requires var closing := multiset{} + multiset{(0, ch)}; Inv(One(1, 65536, {} + {ch}, wire, closing))
    requires ShortId(ch) && ShortId(r) && |payload| <= 65536
    ensures var closing := multiset{} + multiset{(0, ch)};
            RunTo(One(1, 65536, {} + {ch}, wire, closing), [SData(ch, r, payload)] + [],
                  One(1, 65536, {} + {ch}, wire + [DataTo(ch, r, payload)], closing))
    ensures Sent(DataTo(ch, r, payload))
  {
    var closing := multiset{} + multiset{(0, ch)};
    var s := One(1, 65536, {} + {ch}, wire, closing);
    Encodes(DataTo(ch, r, payload), 65536);
    Sends(1, 65536, {} + {ch}, wire, closing, ch, r, payload);
    StepKeepsInv(s, SData(ch, r, payload));
    Cons(s, SData(ch, r, payload), []);
  }

  lemma ThenCloses(wire: seq<Frame>, ch: Str, r: Str, payload: Bytes)
    requires Inv(One(1, 65536, {} + {ch}, wire, multiset{})) && ShortId(ch) && ShortId(r) && |payload| <= 65536
    ensures RunTo(One(1, 65536, {} + {ch}, wire, multiset{}), [SCloseBegin(ch, r)] + ([SData(ch, r, payload)] + []),
                  One(1, 65536, {} + {ch}, wire + [CloseFrame(ch, r)] + [DataTo(ch, r, payload)],
                      multiset{} + multiset{(0, ch)}))
    ensures Sent(CloseFrame(ch, r)) && Sent(DataTo(ch, r, payload))
  {
    var s := One(1, 65536, {} + {ch}, wire, multiset{});
    Encodes(CloseFrame(ch, r), 65536);
    BeginsClose(1, 65536, {} + {ch}, wire, multiset{}, ch, r);
    StepKeepsInv(s, SCloseBegin(ch, r));
    ThenLateSend(wire + [CloseFrame(ch, r)], ch, r, payload);
    Cons(s, SCloseBegin(ch, r), [SData(ch, r, payload)] + []);
  }

  lemma OpensThenRuns(wire: seq<Frame>, ch: Str, r: Str, rest: seq<Step>, end: System)
    requires Inv(One(1, 65536, {}, wire, multiset{})) && ShortId(ch) && ShortId(r)
    requires RunTo(One(1, 65536, {} + {ch}, wire + [OpenFrame(ch, r, [])], multiset{}), rest, end)
    ensures RunTo(One(1, 65536, {}, wire, multiset{}), [OpenStep(ch, r)] + rest, end)
  {
    OpenedShort(1, 65536, {}, wire, ch, r);
    Cons(One(1, 65536, {}, wire, multiset{}), OpenStep(ch, r), rest);
  }

  lemma RegistersThenRuns(r: Str, rest: seq<Step>, end: System)
    requires ShortId(r) && RunTo(One(1, 65536, {}, [AuthOkFrame(r)], multiset{}), rest, end)
    ensures RunTo(NewServer(1, 65536), [SRegister(0, 0, r)] + rest, end)
  {
    Registered(1, 65536, r);
    Cons(NewServer(1, 65536), SRegister(0, 0, r), rest);
  }

  function CloseThenSendEnd(ch: Str, r: Str, payload: Bytes): System {
    One(1, 65536, {} + {ch}, CloseThenSendWire(ch, r, payload), multiset{} + multiset{(0, ch)})
  }

  lemma OpenCloseSend(ch: Str, r: Str, payload: Bytes)
    requires ShortId(ch) && ShortId(r) && |payload| <= 65536 && Inv(One(1, 65536, {}, [AuthOkFrame(r)], multiset{}))
    ensures RunTo(One(1, 65536, {}, [AuthOkFrame(r)], multiset{}),
                  [OpenStep(ch, r)] + ([SCloseBegin(ch, r)] + ([SData(ch, r, payload)] + [])),
                  CloseThenSendEnd(ch, r, payload))
  {
    AfterOpen(1, 65536, {}, [AuthOkFrame(r)], ch, r);
    ThenCloses([AuthOkFrame(r)] + [OpenFrame(ch, r, [])], ch, r, payload);
    OpensThenRuns([AuthOkFrame(r)], ch, r, [SCloseBegin(ch, r)] + ([SData(ch, r, payload)] + []),
                  CloseThenSendEnd(ch, r, payload));
  }

  lemma CloseThenSendRun(ch: Str, r: Str, payload: Bytes)
    requires ShortId(ch) && ShortId(r) && |payload| <= 65536
    ensures RunTo(NewServer(1, 65536), CloseThenSend(ch, r, payload), CloseThenSendEnd(ch, r, payload))
  {
    AfterRegister(1, 65536, r);
    OpenCloseSend(ch, r, payload);
    RegistersThenRuns(r, [OpenStep(ch, r)] + ([SCloseBegin(ch, r)] + ([SData(ch, r, payload)] + [])),
                      CloseThenSendEnd(ch, r, payload));
  }

  lemma CloseThenSendOnFrames(ch: Str, r: Str, payload: Bytes)
    requires ch != []
    ensures AgentAfter(CloseThenSendWire(ch, r, payload)) == Stopped(AgentStop.UnknownChannel)
  {
    var w0 := [AuthOkFrame(r)];
    var w1 := w0 + [OpenFrame(ch, r, [])];
    assert [] + w0 == w0;
    WireAppend([], AuthOkFrame(r));
    WireAppend(w0, OpenFrame(ch, r, []));
    WireAppend(w1, CloseFrame(ch, r));
    WireAppend(w1 + [CloseFrame(ch, r)], DataTo(ch, r, payload));
  }

  /** Data sent after CLOSE is written and before the channel is retired: the late step, and the agent's error. */
  lemma LateDataFailsAgent(ch: Str, r: Str, payload: Bytes)
    requires ShortId(ch) && ShortId(r) && |payload| <= 65536
    ensures var s, steps := NewServer(1, 65536), CloseThenSend(ch, r, payload);
            IsRun(s, steps) && 0 in After(s, steps).broker.conns
            && AgentAfter(After(s, steps).broker.conns[0].wire) == Stopped(AgentStop.UnknownChannel)
            && !CleanRun(s, steps)
  {
    CloseThenSendRun(ch, r, payload);
    CloseThenSendOnFrames(ch, r, payload);
    var s, steps := NewServer(1, 65536), CloseThenSend(ch, r, payload);
    assert AgentFailed(After(s, steps).broker.conns[0].wire);
    AgentFailsIffLate(s, steps);
  }

  // ---------------------------------------------------------------- an OPEN that cannot be encoded

  /**
   An `open_session` whose payload is over the server's own limit: it raises, and leaves the channel open on the server
   although no frame announced it.
   */
  lemma StrandedOpen(ch: Str, r: Str, payload: Bytes)
    requires ShortId(ch) && ShortId(r) && |payload| > 65536
    ensures var s, open := NewServer(1, 65536), SOpen(0, ch, r, payload, ACCEPTED);
            var steps := [SRegister(0, 0, r)] + ([open] + []);
            && IsRun(s, steps) && CleanRun(s, steps) && 0 in After(s, steps).broker.conns
            && var conn := After(s, steps).broker.conns[0];
               ch in conn.open && ch !in Announced(conn.wire) && Announced(conn.wire) != conn.open - Closed(conn.wire)
  {
    var s0, s1, open := NewServer(1, 65536), One(1, 65536, {}, [AuthOkFrame(r)], multiset{}),
                        SOpen(0, ch, r, payload, ACCEPTED);
    Registered(1, 65536, r);
    assert CodecError(OpenFrame(ch, r, payload), 65536).Some?;
    Opens(1, 65536, {}, [AuthOkFrame(r)], multiset{}, ch, r, payload);
    StepKeepsInv(s1, open);
    Cons(s1, open, []);
    Cons(s0, SRegister(0, 0, r), [open] + []);
    assert [] + [AuthOkFrame(r)] == [AuthOkFrame(r)];
    WireAppend([], AuthOkFrame(r));
  }
}
