/**
 The two stream readers: the server's `_read_one_frame` (src/server/tunnel.py) and the agent's (src/agent/tunnel.py).
 A stream is the octets that will arrive before end of file, so `readexactly(n)` fails exactly when fewer remain.
 */
module FrameStream {
  import opened Wrappers
  import opened Text
  import opened Json
  import opened FrameCodec

  /** `asyncio.StreamReader` as far as the readers use it. */
  class StreamReader {
    var data: Bytes

    constructor (data: Bytes)
      ensures this.data == data
    {
      this.data := data;
    }

    /** None is IncompleteReadError, which takes what is left. */
    method ReadExactly(n: nat) returns (r: Option<Bytes>)
      modifies this
      ensures n <= |old(data)| ==> r == Some(old(data)[..n]) && data == old(data)[n..]
      ensures n > |old(data)| ==> r == None && data == []
    {
      if n <= |data| {
        r, data := Some(data[..n]), data[n..];
      } else {
        r, data := None, [];
      }
    }
  }

  datatype ReadError = EndOfStream | Protocol(error: ProtocolError)

  /** The frame at the head of the stream with the octets it takes, as the server's reader finds it. */
  function ServerRead(s: Bytes, maxFrameBytes: int): Result<(Frame, nat), ReadError> {
    if |s| < 4 then Err(EndOfStream)
    else if Unpack(s) == 0 || Unpack(s) > FRAME_HEADER_MAX_BYTES then Err(Protocol(HeaderLengthInvalid))
    else if |s| < 4 + Unpack(s) then Err(EndOfStream)
    else
      var end := 4 + Unpack(s);
      match HeaderObject(s[4..end])
      case Err(e) => Err(Protocol(e))
      case Ok(members) =>
        var length := Get(members, PAYLOAD_LENGTH);
        if length.None? || !length.value.JInt? then Err(Protocol(PayloadLengthNotInteger))
        else if length.value.n < 0 || length.value.n > maxFrameBytes then Err(Protocol(PayloadTooLarge))
        else if |s| < end + length.value.n then Err(EndOfStream)
        else
          match DecodeFrame(s[..end + length.value.n], maxFrameBytes)
          case Err(e) => Err(Protocol(e))
          case Ok(f) => Ok((f, end + length.value.n))
  }

  datatype AgentRead = CleanEnd | Data(bytes: Bytes) | Failed(error: AgentReadError)

  datatype AgentReadError = PartialHeaderLength | Incomplete | BadFrame(error: ProtocolError)

  /** The octets of the frame at the head of the stream, as the agent's reader returns them for `decode_frame`. */
  function AgentReadFrame(s: Bytes, maxFrameBytes: int): AgentRead {
    if s == [] then CleanEnd
    else if |s| < 4 then Failed(PartialHeaderLength)
    else if Unpack(s) == 0 || Unpack(s) > FRAME_HEADER_MAX_BYTES then Failed(BadFrame(HeaderLengthInvalid))
    else if |s| < 4 + Unpack(s) then Failed(Incomplete)
    else
      var end := 4 + Unpack(s);
      match HeaderObject(s[4..end])
      case Err(e) => Failed(BadFrame(e))
      case Ok(members) =>
        var length := Get(members, PAYLOAD_LENGTH);
        if length.None? || !length.value.JInt? then Failed(BadFrame(PayloadLengthNotInteger))
        else if length.value.n < 0 then Failed(BadFrame(PayloadLengthNegative))
        else if length.value.n > maxFrameBytes then Failed(BadFrame(PayloadTooLarge))
        else if |s| < end + length.value.n then Failed(Incomplete)
        else Data(s[..end + length.value.n])
  }

  /** The server's reader, octet by octet off the stream. */
  method ServerReadOneFrame(reader: StreamReader, maxFrameBytes: int) returns (r: Result<Frame, ReadError>)
    modifies reader
    ensures match ServerRead(old(reader.data), maxFrameBytes)
            case Ok((f, n)) => r == Ok(f) && n <= |old(reader.data)| && reader.data == old(reader.data)[n..]
            case Err(e) => r == Err(e)
  {
    ghost var s := reader.data;
    var prefix := reader.ReadExactly(4);
    if prefix.None? { return Err(EndOfStream); }
    var headerLength := Unpack(prefix.value);
    assert headerLength == Unpack(s);
    if headerLength == 0 || headerLength > FRAME_HEADER_MAX_BYTES { return Err(Protocol(HeaderLengthInvalid)); }
    var header := reader.ReadExactly(headerLength);
    if header.None? { return Err(EndOfStream); }
    assert header.value == s[4..4 + headerLength];
    var values := HeaderObject(header.value);
    if values.Err? { return Err(Protocol(values.error)); }
    var length := Get(values.value, PAYLOAD_LENGTH);
    if length.None? || !length.value.JInt? { return Err(Protocol(PayloadLengthNotInteger)); }
    if length.value.n < 0 || length.value.n > maxFrameBytes { return Err(Protocol(PayloadTooLarge)); }
    var payload := reader.ReadExactly(length.value.n);
    if payload.None? { return Err(EndOfStream); }
    assert prefix.value + header.value + payload.value == s[..4 + headerLength + length.value.n];
    assert reader.data == s[4 + headerLength + length.value.n..];
    var decoded := DecodeFrame(prefix.value + header.value + payload.value, maxFrameBytes);
    if decoded.Err? { return Err(Protocol(decoded.error)); }
    return Ok(decoded.value);
  }

  /** The agent's reader: it returns the raw octets, and treats end of file between frames as a clean end. */
  method AgentReadOneFrame(reader: StreamReader, maxFrameBytes: int) returns (r: AgentRead)
    modifies reader
    ensures r == AgentReadFrame(old(reader.data), maxFrameBytes)
    ensures r.Data? ==> |r.bytes| <= |old(reader.data)| && reader.data == old(reader.data)[|r.bytes|..]
  {
    ghost var s := reader.data;
    var atEnd := reader.data == [];
    var prefix := reader.ReadExactly(4);
    if prefix.None? { return if atEnd then CleanEnd else Failed(PartialHeaderLength); }
    var headerLength := Unpack(prefix.value);
    assert headerLength == Unpack(s);
    if headerLength == 0 || headerLength > FRAME_HEADER_MAX_BYTES { return Failed(BadFrame(HeaderLengthInvalid)); }
    var header := reader.ReadExactly(headerLength);
    if header.None? { return Failed(Incomplete); }
    assert header.value == s[4..4 + headerLength];
    var values := HeaderObject(header.value);
    if values.Err? { return Failed(BadFrame(values.error)); }
    var length := Get(values.value, PAYLOAD_LENGTH);
    if length.None? || !length.value.JInt? { return Failed(BadFrame(PayloadLengthNotInteger)); }
    if length.value.n < 0 { return Failed(BadFrame(PayloadLengthNegative)); }
    if length.value.n > maxFrameBytes { return Failed(BadFrame(PayloadTooLarge)); }
    var payload := reader.ReadExactly(length.value.n);
    if payload.None? { return Failed(Incomplete); }
    assert prefix.value + header.value + payload.value == s[..4 + headerLength + length.value.n];
    assert reader.data == s[4 + headerLength + length.value.n..];
    return Data(prefix.value + header.value + payload.value);
  }

  // ---------------------------------------------------------------- agreement with decode_frame

  lemma AcceptedLength(members: seq<Member>, maxFrameBytes: int)
    requires CheckHeader(members, maxFrameBytes).Ok?
    ensures var h := CheckHeader(members, maxFrameBytes).value;
            Get(members, PAYLOAD_LENGTH) == Some(JInt(h.payloadLength)) && h.payloadLength <= maxFrameBytes
  {
  }

  /** The size of the frame that `data` encodes is fixed by its length prefix and header alone. */
  lemma AcceptedSize(data: Bytes, maxFrameBytes: int)
    requires DecodeFrame(data, maxFrameBytes).Ok?
    ensures var end := 4 + Unpack(data); var h := HeaderObject(data[4..end]);
            h.Ok? && Get(h.value, PAYLOAD_LENGTH) == Some(JInt(|data| - end))
            && 0 < Unpack(data) <= FRAME_HEADER_MAX_BYTES && end <= |data| <= end + maxFrameBytes
  {
    var end := 4 + Unpack(data);
    var h := DecodeHeader(data[4..end], maxFrameBytes);
    assert h.Ok? && |data| == end + h.value.payloadLength;
    AcceptedLength(HeaderObject(data[4..end]).value, maxFrameBytes);
  }

  /** A stream's first frame, read piecemeal by the server, is exactly the one prefix that `decode_frame` accepts. */
  lemma ServerReadIsDecode(s: Bytes, maxFrameBytes: int, f: Frame, n: nat)
    ensures ServerRead(s, maxFrameBytes) == Ok((f, n)) <==> n <= |s| && DecodeFrame(s[..n], maxFrameBytes) == Ok(f)
  {
    if n <= |s| && DecodeFrame(s[..n], maxFrameBytes) == Ok(f) {
      AcceptedSize(s[..n], maxFrameBytes);
      assert Unpack(s[..n]) == Unpack(s);
      var end := 4 + Unpack(s);
      assert s[..n][4..end] == s[4..end];
    }
  }

  /** No accepted frame is a proper prefix of another, so where one ends is never in doubt. */
  lemma PrefixFree(a: Bytes, b: Bytes, maxFrameBytes: int)
    requires DecodeFrame(a, maxFrameBytes).Ok? && DecodeFrame(b, maxFrameBytes).Ok? && a <= b
    ensures a == b
  {
    assert b[..|a|] == a && b[..|b|] == b;
    ServerReadIsDecode(b, maxFrameBytes, DecodeFrame(a, maxFrameBytes).value, |a|);
    ServerReadIsDecode(b, maxFrameBytes, DecodeFrame(b, maxFrameBytes).value, |b|);
  }

  /** A frame costs a bounded number of octets, whoever wrote it. */
  lemma FrameCost(s: Bytes, maxFrameBytes: int)
    requires ServerRead(s, maxFrameBytes).Ok?
    ensures 4 < ServerRead(s, maxFrameBytes).value.1 <= 4 + FRAME_HEADER_MAX_BYTES + maxFrameBytes
  {
  }

  /** Reading and then decoding on the agent is reading on the server: same frame, same octets taken. */
  lemma ReadersAgree(s: Bytes, maxFrameBytes: int, f: Frame, n: nat)
    ensures ServerRead(s, maxFrameBytes) == Ok((f, n)) <==>
            n <= |s| && AgentReadFrame(s, maxFrameBytes) == Data(s[..n])
            && DecodeFrame(s[..n], maxFrameBytes) == Ok(f)
  {
    ServerReadIsDecode(s, maxFrameBytes, f, n);
    if n <= |s| && DecodeFrame(s[..n], maxFrameBytes) == Ok(f) {
      AcceptedSize(s[..n], maxFrameBytes);
      assert Unpack(s[..n]) == Unpack(s);
      var end := 4 + Unpack(s);
      assert s[..n][4..end] == s[4..end];
    }
  }

  /** The errors of `decode_frame` that say its octets are not one whole frame. */
  predicate NotWhole(e: ProtocolError) {
    e.PayloadLengthMismatch? || e.HeaderLengthMissing? || e.HeaderIncomplete?
  }

  /** `decode_frame` on octets of which the header tells the size. */
  lemma NoMismatch(s: Bytes, n: nat, maxFrameBytes: int)
    requires 4 <= |s| && 0 < Unpack(s) <= FRAME_HEADER_MAX_BYTES && 4 + Unpack(s) <= n <= |s|
    requires var h := HeaderObject(s[4..4 + Unpack(s)]);
             h.Ok? && Get(h.value, PAYLOAD_LENGTH) == Some(JInt(n - 4 - Unpack(s)))
    ensures var r := DecodeFrame(s[..n], maxFrameBytes);
            r.Err? ==> !NotWhole(r.error) && !r.error.HeaderLengthInvalid?
  {
    var end := 4 + Unpack(s);
    assert Unpack(s[..n]) == Unpack(s) && s[..n][4..end] == s[4..end];
    var h := DecodeHeader(s[4..end], maxFrameBytes);
    if h.Ok? { AcceptedLength(HeaderObject(s[4..end]).value, maxFrameBytes); }
  }

  /** Where a reader gets as far as the payload, the header has told the size of the octets it passes on. */
  ghost predicate Announces(s: Bytes, n: nat) {
    && 4 <= |s| && 0 < Unpack(s) <= FRAME_HEADER_MAX_BYTES && 4 + Unpack(s) <= n <= |s|
    && var h := HeaderObject(s[4..4 + Unpack(s)]);
       h.Ok? && Get(h.value, PAYLOAD_LENGTH) == Some(JInt(n - 4 - Unpack(s)))
  }

  lemma ServerDecodes(s: Bytes, maxFrameBytes: int)
    ensures var r := ServerRead(s, maxFrameBytes);
            (r.Err? && r.error.Protocol? && NotWhole(r.error.error)) ==>
              exists n: nat :: Announces(s, n) && DecodeFrame(s[..n], maxFrameBytes) == Err(r.error.error)
  {
    var r := ServerRead(s, maxFrameBytes);
    if r.Err? && r.error.Protocol? && NotWhole(r.error.error) {
      var end := 4 + Unpack(s);
      var n := end + Get(HeaderObject(s[4..end]).value, PAYLOAD_LENGTH).value.n;
      assert Announces(s, n);
    }
  }

  lemma AgentPasses(s: Bytes, maxFrameBytes: int)
    requires AgentReadFrame(s, maxFrameBytes).Data?
    ensures exists n: nat :: Announces(s, n) && AgentReadFrame(s, maxFrameBytes).bytes == s[..n]
  {
    var n := |AgentReadFrame(s, maxFrameBytes).bytes|;
    assert Announces(s, n);
  }

  /** Neither reader can make `decode_frame` report a length mismatch, nor a missing or cut-off header. */
  lemma MismatchUnreachable(s: Bytes, maxFrameBytes: int)
    ensures var r := ServerRead(s, maxFrameBytes); r.Err? && r.error.Protocol? ==> !NotWhole(r.error.error)
    ensures AgentReadFrame(s, maxFrameBytes).Data? ==>
              var r := DecodeFrame(AgentReadFrame(s, maxFrameBytes).bytes, maxFrameBytes);
              r.Err? ==> !NotWhole(r.error) && !r.error.HeaderLengthInvalid?
  {
    ServerDecodes(s, maxFrameBytes);
    forall n: nat | Announces(s, n)
      ensures var r := DecodeFrame(s[..n], maxFrameBytes); r.Err? ==> !NotWhole(r.error) && !r.error.HeaderLengthInvalid?
    {
      NoMismatch(s, n, maxFrameBytes);
    }
    if AgentReadFrame(s, maxFrameBytes).Data? { AgentPasses(s, maxFrameBytes); }
  }

  // ---------------------------------------------------------------- whole streams

  ghost predicate AllEncodable(frames: seq<Frame>, maxFrameBytes: int) {
    forall i :: 0 <= i < |frames| ==> EncodeFrame(frames[i], maxFrameBytes).Ok?
  }

  function EncodeAll(frames: seq<Frame>, maxFrameBytes: int): Bytes
    requires AllEncodable(frames, maxFrameBytes)
  {
    if frames == [] then []
    else EncodeFrame(frames[0], maxFrameBytes).value + EncodeAll(frames[1..], maxFrameBytes)
  }

  /** The frames a reader delivers one after another until the stream ends or fails. */
  function ReadAll(s: Bytes, maxFrameBytes: int): (r: (seq<Frame>, ReadError))
    decreases |s|
  {
    match ServerRead(s, maxFrameBytes)
    case Err(e) => ([], e)
    case Ok((f, n)) =>
      FrameCost(s, maxFrameBytes);
      ServerReadIsDecode(s, maxFrameBytes, f, n);
      var (rest, e) := ReadAll(s[n..], maxFrameBytes);
      ([f] + rest, e)
  }

  function MergeAll(frames: seq<Frame>): seq<Frame> {
    seq(|frames|, i requires 0 <= i < |frames| => MergeFrame(frames[i]))
  }

  lemma ServerReadOfEncoding(f: Frame, rest: Bytes, maxFrameBytes: int)
    requires EncodeFrame(f, maxFrameBytes).Ok?
    ensures var b := EncodeFrame(f, maxFrameBytes).value;
            ServerRead(b + rest, maxFrameBytes) == Ok((MergeFrame(f), |b|))
  {
    var b := EncodeFrame(f, maxFrameBytes).value;
    DecodeOfEncode(f, maxFrameBytes);
    assert (b + rest)[..|b|] == b;
    ServerReadIsDecode(b + rest, maxFrameBytes, MergeFrame(f), |b|);
  }

  /** A stream of any frames, one after another with nothing between, is read back as exactly those frames. */
  lemma {:induction false} ReadAllOfEncodeAll(frames: seq<Frame>, maxFrameBytes: int)
    requires AllEncodable(frames, maxFrameBytes)
    ensures ReadAll(EncodeAll(frames, maxFrameBytes), maxFrameBytes) == (MergeAll(frames), EndOfStream)
  {
    if frames == [] {
      assert MergeAll(frames) == [];
    } else {
      var b, rest := EncodeFrame(frames[0], maxFrameBytes).value, EncodeAll(frames[1..], maxFrameBytes);
      ServerReadOfEncoding(frames[0], rest, maxFrameBytes);
      assert (b + rest)[|b|..] == rest;
      ReadAllOfEncodeAll(frames[1..], maxFrameBytes);
      assert MergeAll(frames) == [MergeFrame(frames[0])] + MergeAll(frames[1..]);
    }
  }

  lemma TooFewOctets(s: Bytes, maxFrameBytes: int, length: int)
    requires |s| >= 4 ==>
               0 < Unpack(s) <= FRAME_HEADER_MAX_BYTES
               && (|s| >= 4 + Unpack(s) ==>
                     var h := HeaderObject(s[4..4 + Unpack(s)]);
                     h.Ok? && Get(h.value, PAYLOAD_LENGTH) == Some(JInt(length)) && 0 <= length <= maxFrameBytes
                     && |s| < 4 + Unpack(s) + length)
    ensures ServerRead(s, maxFrameBytes) == Err(EndOfStream)
  {
  }

  lemma CutServer(b: Bytes, k: nat, maxFrameBytes: int)
    requires DecodeFrame(b, maxFrameBytes).Ok? && k < |b|
    ensures ServerRead(b[..k], maxFrameBytes) == Err(EndOfStream)
  {
    AcceptedSize(b, maxFrameBytes);
    var end := 4 + Unpack(b);
    if k >= 4 { assert Unpack(b[..k]) == Unpack(b); }
    if k >= end { assert b[..k][4..end] == b[4..end]; }
    TooFewOctets(b[..k], maxFrameBytes, |b| - end);
  }

  lemma CutAgent(b: Bytes, k: nat, maxFrameBytes: int)
    requires DecodeFrame(b, maxFrameBytes).Ok? && k < |b|
    ensures AgentReadFrame(b[..k], maxFrameBytes)
         == if k == 0 then CleanEnd else if k < 4 then Failed(PartialHeaderLength) else Failed(Incomplete)
  {
    AcceptedSize(b, maxFrameBytes);
    var end := 4 + Unpack(b);
    if k >= 4 { assert Unpack(b[..k]) == Unpack(b); }
    if k >= end { assert b[..k][4..end] == b[4..end]; }
  }

  /** A frame cut short anywhere reads as an ended stream: never as a shorter frame, never as a malformed one. */
  lemma TruncatedFrame(f: Frame, k: nat, maxFrameBytes: int)
    requires EncodeFrame(f, maxFrameBytes).Ok? && k < |EncodeFrame(f, maxFrameBytes).value|
    ensures ServerRead(EncodeFrame(f, maxFrameBytes).value[..k], maxFrameBytes) == Err(EndOfStream)
    ensures AgentReadFrame(EncodeFrame(f, maxFrameBytes).value[..k], maxFrameBytes)
         == if k == 0 then CleanEnd else if k < 4 then Failed(PartialHeaderLength) else Failed(Incomplete)
  {
    DecodeOfEncode(f, maxFrameBytes);
    CutServer(EncodeFrame(f, maxFrameBytes).value, k, maxFrameBytes);
    CutAgent(EncodeFrame(f, maxFrameBytes).value, k, maxFrameBytes);
  }
}
