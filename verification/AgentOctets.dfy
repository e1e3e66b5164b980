/**
 The agent's loop on the octets of its tunnel (`handle_agent_tunnel_stream`, src/agent/tunnel.py): read a frame under the
 agent's own limit, decode it, dispatch it. What the server writes is read back here through the real codec.
 */
module AgentOctets {
  import opened Wrappers
  import opened Collections
  import opened Text
  import opened FrameCodec
  import opened FrameStream
  import opened AgentSpec

  /** How the loop ends on the octets that arrive before end of file. */
  datatype LoopEnd =
    | Ended(channels: map<Str, Bytes>)
    | Rejected(reason: AgentStop)
    | ReadFailed(error: AgentReadError)
    | DecodeFailed(protocol: ProtocolError)

  function AgentLoop(channels: map<Str, Bytes>, s: Bytes, limit: int): LoopEnd
    decreases |s|
  {
    match AgentReadFrame(s, limit)
    case CleanEnd => Ended(channels)
    case Failed(e) => ReadFailed(e)
    case Data(bytes) =>
      match DecodeFrame(bytes, limit)
      case Err(e) => DecodeFailed(e)
      case Ok(f) =>
        match Dispatched(channels, f)
        case Stopped(reason) => Rejected(reason)
        case Running(after) => AgentLoop(after, s[|bytes|..], limit)
  }

  /** What happens around the loop, turn by turn; nothing does in the turns after those listed. */
  type Environment = seq<Local>

  function Around(env: Environment, turn: nat): Local {
    if turn < |env| then env[turn] else FINE
  }

  /** Closing what is still open when the loop returns: the first failed forwarder or failed close raises instead. */
  function LeftOver(channels: map<Str, Bytes>, local: Local): LoopEnd {
    if channels.Keys * local.dead != {} then Rejected(ForwarderFailed)
    else if channels != map[] && !local.closes then Rejected(LocalFailed)
    else Ended(channels)
  }

  /** The loop among forwarders that may fail and local connections that may not work, and the answers it has sent. */
  function LoopIn(env: Environment, turn: nat, channels: map<Str, Bytes>, s: Bytes, limit: int): (LoopEnd, seq<Frame>)
    decreases |s|
  {
    match AgentReadFrame(s, limit)
    case CleanEnd => (LeftOver(channels, Around(env, turn)), [])
    case Failed(e) => (ReadFailed(e), [])
    case Data(bytes) =>
      match DecodeFrame(bytes, limit)
      case Err(e) => (DecodeFailed(e), [])
      case Ok(f) =>
        match Turn(channels, f, Around(env, turn))
        case Stopped(reason) => (Rejected(reason), [])
        case Running(after) =>
          var rest := LoopIn(env, turn + 1, after, s[|bytes|..], limit);
          (rest.0, Echo(f) + rest.1)
  }

  /** The frame at the head of the octets, if it can be read, decoded and dispatched, and where the next one begins. */
  function TakenTurn(channels: map<Str, Bytes>, s: Bytes, limit: int): (r: Option<(map<Str, Bytes>, Bytes)>)
    ensures r.Some? ==> |r.value.1| < |s|
  {
    match AgentReadFrame(s, limit)
    case Data(bytes) =>
      (match DecodeFrame(bytes, limit)
       case Ok(f) =>
         (match Dispatched(channels, f)
          case Running(after) => Some((after, s[|bytes|..]))
          case _ => None)
       case _ => None)
    case _ => None
  }

  lemma LoopTurn(channels: map<Str, Bytes>, s: Bytes, limit: int)
    requires TakenTurn(channels, s, limit).Some?
    ensures var (after, rest) := TakenTurn(channels, s, limit).value;
            AgentLoop(channels, s, limit) == AgentLoop(after, rest, limit)
  {
  }

  lemma LoopInTurn(env: Environment, turn: nat, channels: map<Str, Bytes>, s: Bytes, limit: int)
    requires Around(env, turn) == FINE
    ensures match TakenTurn(channels, s, limit)
            case Some((after, rest)) =>
              LoopIn(env, turn, channels, s, limit).0 == LoopIn(env, turn + 1, after, rest, limit).0
            case None => LoopIn(env, turn, channels, s, limit).0 == AgentLoop(channels, s, limit)
  {
    var read := AgentReadFrame(s, limit);
    assert LeftOver(channels, FINE) == Ended(channels);
    if read.Data? && DecodeFrame(read.bytes, limit).Ok? { FineTurn(channels, DecodeFrame(read.bytes, limit).value); }
  }

  /** Where nothing outside the protocol fails, only the octets decide. */
  lemma {:induction false} LoopInFine(env: Environment, turn: nat, channels: map<Str, Bytes>, s: Bytes, limit: int)
    requires forall i :: 0 <= i < |env| ==> env[i] == FINE
    ensures LoopIn(env, turn, channels, s, limit).0 == AgentLoop(channels, s, limit)
    decreases |s|
  {
    LoopInTurn(env, turn, channels, s, limit);
    match TakenTurn(channels, s, limit)
    case Some((after, rest)) =>
      LoopTurn(channels, s, limit);
      LoopInFine(env, turn + 1, after, rest, limit);
    case None =>
  }

  /** At end of file the loop returns unless closing what is still open raises. */
  lemma LoopInAtEnd(env: Environment, turn: nat, channels: map<Str, Bytes>, limit: int)
    ensures LoopIn(env, turn, channels, [], limit).1 == []
    ensures var end, local := LoopIn(env, turn, channels, [], limit).0, if turn < |env| then env[turn] else FINE;
            if exists ch :: ch in channels && ch in local.dead then end == Rejected(ForwarderFailed)
            else if channels != map[] && !local.closes then end == Rejected(LocalFailed)
            else end == Ended(channels)
  {
    var local := if turn < |env| then env[turn] else FINE;
    if ch :| ch in channels && ch in local.dead { assert ch in channels.Keys * local.dead; }
  }

  lemma FineTurn(channels: map<Str, Bytes>, f: Frame)
    ensures Turn(channels, f, FINE) == Dispatched(channels, f)
  {
  }

  /** The loop as it is written, on the objects. */
  method HandleAgentTunnelStream(reader: StreamReader, limit: int, env: Environment)
    returns (end: LoopEnd, answers: seq<Frame>)
    modifies reader
    ensures (end, answers) == LoopIn(env, 0, map[], old(reader.data), limit)
  {
    var agent := new AgentTunnel();
    var turn := 0;
    ghost var all := LoopIn(env, 0, map[], reader.data, limit);
    assert agent.echoes + all.1 == all.1;
    while true
      invariant var rest := LoopIn(env, turn, agent.channels, reader.data, limit);
                all == (rest.0, agent.echoes + rest.1)
      decreases |reader.data|
    {
      assert agent.echoes + [] == agent.echoes;
      ghost var sent := agent.echoes;
      var read := AgentReadOneFrame(reader, limit);
      match read {
        case CleanEnd => return LeftOver(agent.channels, Around(env, turn)), agent.echoes;
        case Failed(e) => return ReadFailed(e), agent.echoes;
        case Data(bytes) =>
          var decoded := DecodeFrame(bytes, limit);
          if decoded.Err? { return DecodeFailed(decoded.error), agent.echoes; }
          var stop := agent.Dispatch(decoded.value, Around(env, turn));
          if stop.Some? { return Rejected(stop.value), agent.echoes; }
          turn := turn + 1;
          Associates(sent, Echo(decoded.value), LoopIn(env, turn, agent.channels, reader.data, limit).1);
      }
    }
  }

  // ---------------------------------------------------------------- octets in several parts

  /** The end does not come from a frame that is cut short, so further octets would not change it. */
  predicate Definite(end: LoopEnd) {
    end != ReadFailed(PartialHeaderLength) && end != ReadFailed(Incomplete)
  }

  lemma ReadMore(s: Bytes, t: Bytes, limit: int)
    requires AgentReadFrame(s, limit).Data?
             || (AgentReadFrame(s, limit).Failed? && AgentReadFrame(s, limit).error.BadFrame?)
    ensures AgentReadFrame(s + t, limit) == AgentReadFrame(s, limit)
  {
    var end := 4 + Unpack(s);
    assert Unpack(s + t) == Unpack(s);
    if |s| >= end {
      assert (s + t)[4..end] == s[4..end];
      if AgentReadFrame(s, limit).Data? {
        var n := |AgentReadFrame(s, limit).bytes|;
        assert (s + t)[..n] == s[..n];
      }
    }
  }

  /** Octets handled to the end may be followed by more; an error is final. */
  lemma {:induction false} LoopMore(channels: map<Str, Bytes>, s: Bytes, t: Bytes, limit: int)
    ensures var end := AgentLoop(channels, s, limit);
            && (end.Ended? ==> AgentLoop(channels, s + t, limit) == AgentLoop(end.channels, t, limit))
            && (!end.Ended? && Definite(end) ==> AgentLoop(channels, s + t, limit) == end)
    decreases |s|
  {
    match AgentReadFrame(s, limit)
    case CleanEnd => assert s + t == t;
    case Failed(e) => if e.BadFrame? { ReadMore(s, t, limit); }
    case Data(bytes) =>
      ReadMore(s, t, limit);
      assert (s + t)[|bytes|..] == s[|bytes|..] + t;
      match DecodeFrame(bytes, limit)
      case Err(_) =>
      case Ok(f) =>
        if Dispatched(channels, f).Running? { LoopMore(Dispatched(channels, f).channels, s[|bytes|..], t, limit); }
  }

  /** Wherever the agent is within octets that it can handle, it has raised nothing: at most it waits for more. */
  lemma CutIsSafe(channels: map<Str, Bytes>, s: Bytes, j: nat, limit: int)
    requires AgentLoop(channels, s, limit).Ended? && j <= |s|
    ensures var end := AgentLoop(channels, s[..j], limit); end.Ended? || !Definite(end)
  {
    assert s[..j] + s[j..] == s;
    LoopMore(channels, s[..j], s[j..], limit);
  }

  // ---------------------------------------------------------------- one frame

  /** A frame that `encode_frame` accepts under some payload limit. */
  predicate Sent(f: Frame) {
    EncodeFrame(f, |f.payload| + 1).Ok?
  }

  /** What is written for it; the limit does not show in the octets. */
  function Octets(f: Frame): Bytes
    requires Sent(f)
  {
    EncodeFrame(f, |f.payload| + 1).value
  }

  lemma SentUnderLimit(f: Frame, limit: int)
    ensures EncodeFrame(f, limit).Ok? <==> 0 < limit && |f.payload| <= limit && Sent(f)
    ensures EncodeFrame(f, limit).Ok? ==> EncodeFrame(f, limit).value == Octets(f)
  {
  }

  /** What the loop does with one frame of the server: too large for the agent, or dispatched as it decodes. */
  function Handled(channels: map<Str, Bytes>, f: Frame, limit: int): LoopEnd {
    if |f.payload| > limit then ReadFailed(BadFrame(PayloadTooLarge))
    else
      match Dispatched(channels, MergeFrame(f))
      case Stopped(reason) => Rejected(reason)
      case Running(after) => Ended(after)
  }

  lemma ReadWhole(f: Frame, limit: int)
    requires Sent(f) && 0 < limit && |f.payload| <= limit
    ensures AgentReadFrame(Octets(f), limit) == Data(Octets(f))
    ensures DecodeFrame(Octets(f), limit) == Ok(MergeFrame(f))
  {
    var b := Octets(f);
    SentUnderLimit(f, limit);
    DecodeOfEncode(f, limit);
    assert b[..|b|] == b;
    ServerReadIsDecode(b, limit, MergeFrame(f), |b|);
    ReadersAgree(b, limit, MergeFrame(f), |b|);
  }

  lemma ReadTooLarge(f: Frame, limit: int)
    requires Sent(f) && |f.payload| > limit
    ensures AgentReadFrame(Octets(f), limit) == Failed(BadFrame(PayloadTooLarge))
  {
    var b := Octets(f);
    DecodeOfEncode(f, |f.payload| + 1);
    AcceptedSize(b, |f.payload| + 1);
    EncodingParts(f, |f.payload| + 1);
  }

  lemma LoopFrame(channels: map<Str, Bytes>, f: Frame, limit: int)
    requires Sent(f) && 0 < limit
    ensures AgentLoop(channels, Octets(f), limit) == Handled(channels, f, limit)
  {
    if |f.payload| > limit {
      ReadTooLarge(f, limit);
    } else {
      ReadWhole(f, limit);
      assert Octets(f)[|Octets(f)|..] == [];
    }
  }

  /** A frame within the limit takes one turn, and a heartbeat is answered in it; what follows is for the next turn. */
  lemma LoopInOnFrame(env: Environment, turn: nat, channels: map<Str, Bytes>, f: Frame, rest: Bytes, limit: int)
    requires Sent(f) && 0 < limit && |f.payload| <= limit
    ensures LoopIn(env, turn, channels, Octets(f) + rest, limit)
         == match Turn(channels, MergeFrame(f), if turn < |env| then env[turn] else FINE)
            case Stopped(reason) => (Rejected(reason), [])
            case Running(after) =>
              var (end, answers) := LoopIn(env, turn + 1, after, rest, limit);
              (end, (if f.kind == Heartbeat then [Frame(Heartbeat, MergePairs(f.requestId), None, [])] else []) + answers)
  {
    ReadWhole(f, limit);
    ReadMore(Octets(f), rest, limit);
    assert (Octets(f) + rest)[|Octets(f)|..] == rest;
  }

  // ---------------------------------------------------------------- a whole wire

  ghost predicate AllSent(wire: seq<Frame>) {
    forall i :: 0 <= i < |wire| ==> Sent(wire[i])
  }

  /** The octets of a wire. */
  function WireOctets(wire: seq<Frame>): Bytes
    requires AllSent(wire)
  {
    if wire == [] then [] else WireOctets(wire[..|wire| - 1]) + Octets(wire[|wire| - 1])
  }

  function HandledNext(end: LoopEnd, f: Frame, limit: int): LoopEnd {
    if end.Ended? then Handled(end.channels, f, limit) else end
  }

  function HandledAll(start: map<Str, Bytes>, wire: seq<Frame>, limit: int): LoopEnd {
    if wire == [] then Ended(start)
    else HandledNext(HandledAll(start, wire[..|wire| - 1], limit), wire[|wire| - 1], limit)
  }

  lemma HandledAppend(start: map<Str, Bytes>, wire: seq<Frame>, f: Frame, limit: int)
    ensures HandledAll(start, wire + [f], limit) == HandledNext(HandledAll(start, wire, limit), f, limit)
  {
    assert (wire + [f])[..|wire|] == wire;
  }

  lemma {:induction false} HandledSplit(start: map<Str, Bytes>, a: seq<Frame>, b: seq<Frame>, limit: int)
    ensures var mid := HandledAll(start, a, limit);
            HandledAll(start, a + b, limit) == if mid.Ended? then HandledAll(mid.channels, b, limit) else mid
  {
    if b == [] {
      assert a + b == a;
    } else {
      var init, last := b[..|b| - 1], b[|b| - 1];
      HandledSplit(start, a, init, limit);
      assert a + b == (a + init) + [last];
      HandledAppend(start, a + init, last, limit);
    }
  }

  /** On the octets of any wire the loop does, frame by frame, what it does with the decoded frames that fit. */
  lemma {:induction false} LoopOfWire(start: map<Str, Bytes>, wire: seq<Frame>, limit: int)
    requires AllSent(wire) && 0 < limit
    ensures AgentLoop(start, WireOctets(wire), limit) == HandledAll(start, wire, limit)
    ensures Definite(HandledAll(start, wire, limit))
  {
    if wire != [] {
      var init, f := wire[..|wire| - 1], wire[|wire| - 1];
      LoopOfWire(start, init, limit);
      LoopMore(start, WireOctets(init), Octets(f), limit);
      var mid := HandledAll(start, init, limit);
      if mid.Ended? { LoopFrame(mid.channels, f, limit); }
    }
  }

  // ---------------------------------------------------------------- when decoding makes no difference

  /** The frame reads back as it was written, as far as the agent looks at it: its id is plain and its payload fits. */
  ghost predicate Fits(f: Frame, limit: int) {
    |f.payload| <= limit && (f.channelId.Some? ==> !HasPair(f.channelId.value))
  }

  ghost predicate AllFit(wire: seq<Frame>, limit: int) {
    forall i :: 0 <= i < |wire| ==> Fits(wire[i], limit)
  }

  function FromState(st: AgentState): LoopEnd {
    match st
    case Running(channels) => Ended(channels)
    case Stopped(reason) => Rejected(reason)
  }

  lemma FittingFrame(channels: map<Str, Bytes>, f: Frame, limit: int)
    requires Fits(f, limit)
    ensures Handled(channels, f, limit) == FromState(Dispatched(channels, f))
  {
    if f.channelId.Some? { MergePairsFixed(f.channelId.value); }
  }

  /** On a wire of fitting frames the loop on octets is the loop on frames. */
  lemma {:induction false} FittingWire(start: map<Str, Bytes>, wire: seq<Frame>, limit: int)
    requires AllFit(wire, limit)
    ensures HandledAll(start, wire, limit) == FromState(Replay(Running(start), wire))
  {
    if wire != [] {
      var init := wire[..|wire| - 1];
      FittingWire(start, init, limit);
      var st := Replay(Running(start), init);
      if st.Running? { FittingFrame(st.channels, wire[|wire| - 1], limit); }
    }
  }
}
