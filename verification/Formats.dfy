/** The formats on the wire and on disk, character by character, where a round trip alone would allow any other. */
module Formats {
  import opened Wrappers
  import opened Collections
  import opened Text
  import Utf8
  import opened Json
  import opened JsonRoundTrip
  import opened FrameCodec
  import opened FrameStream
  import opened ReplayFile

  // ---------------------------------------------------------------- characters

  /** The UTF-8 examples of section 7 of RFC 3629, and the number of octets of every character. */
  lemma Utf8Form(c: Char)
    requires !IsSurrogate(c)
    ensures Utf8.EncodeChar(0x2262) == [0xE2, 0x89, 0xA2] && Utf8.EncodeChar(0x0391) == [0xCE, 0x91]
    ensures Utf8.EncodeChar(0x233B4) == [0xF0, 0xA3, 0x8E, 0xB4] && Utf8.EncodeChar(0x41) == [0x41]
    ensures |Utf8.EncodeChar(c)| == if c < 0x80 then 1 else if c < 0x800 then 2 else if c < 0x10000 then 3 else 4
  {
  }

  /** An octet that is not UTF-8 travels as the code point U+DC00 plus the octet. */
  lemma EscapedOctet(b: Bytes)
    requires b != [] && forall c: Char | !IsSurrogate(c) :: !(Utf8.EncodeChar(c) <= b)
    ensures Utf8.DecodeEscape(b) == [0xDC00 + b[0] as int] + Utf8.DecodeEscape(b[1..])
  {
    Utf8.DecodeFirstComplete(b);
  }

  /** The short escapes of JSON strings. */
  lemma ShortEscapes(c: Char)
    ensures EscapeChar(0x22) == Lit("\\\"") && EscapeChar(0x5C) == Lit("\\\\")
    ensures EscapeChar(0x0A) == Lit("\\n") && EscapeChar(0x0D) == Lit("\\r") && EscapeChar(0x09) == Lit("\\t")
    ensures EscapeChar(0x08) == Lit("\\b") && EscapeChar(0x0C) == Lit("\\f")
    ensures PlainChar(c) ==> EscapeChar(c) == [c]
  {
  }

  /** The others: four lower-case hexadecimal digits, twice for a character past U+FFFF. */
  lemma LongEscapes()
    ensures EscapeChar(0x1B) == Lit("\\u001b") && EscapeChar(0xE9) == Lit("\\u00e9")
    ensures EscapeChar(0x1F600) == Lit("\\ud83d") + Lit("\\ude00")
  {
    assert UEscape(0xD83D) == Lit("\\ud83d");
    assert UEscape(0xDE00) == Lit("\\ude00");
  }

  predicate IsHex(c: Char) {
    0x30 <= c <= 0x39 || 0x41 <= c <= 0x46 || 0x61 <= c <= 0x66
  }

  /**
   What a JSON string may not hold: an unescaped control character, or a backslash that is not followed by one of the
   eight escapes or by `u` and four hexadecimal digits of either case.
   */
  lemma StringsAreStrict(t: Str)
    requires t != []
    ensures ScanChar(t).None? <==>
              t[0] < 0x20
              || (t[0] == 0x5C
                  && (|t| == 1 || t[1] !in {0x22, 0x5C, 0x2F, 0x62, 0x66, 0x6E, 0x72, 0x74, 0x75}
                      || (t[1] == 0x75
                          && !(|t| >= 6 && IsHex(t[2]) && IsHex(t[3]) && IsHex(t[4]) && IsHex(t[5])))))
  {
  }

  predicate PlainChar(c: Char) {
    0x20 <= c <= 0x7E && c != 0x22 && c != 0x5C
  }

  /** Printable ASCII without quotes and backslashes. */
  predicate Plain(s: Str) {
    forall i :: 0 <= i < |s| ==> PlainChar(s[i])
  }

  function InQuotes(s: Str): Str {
    [0x22] + s + [0x22]
  }

  lemma PlainText(s: Str)
    requires Plain(s)
    ensures Quoted(s) == InQuotes(s)
  {
    PlainEscape(s);
  }

  lemma {:induction false} PlainEscape(s: Str)
    requires Plain(s)
    ensures EscapeAll(s) == s
  {
    if s != [] { PlainEscape(s[1..]); }
  }

  // ---------------------------------------------------------------- frames

  /** Every frame type under its name, in both directions. */
  lemma TypeNames()
    ensures TypeName(Auth) == Lit("auth") && TypeName(AuthOk) == Lit("auth_ok")
    ensures TypeName(Heartbeat) == Lit("heartbeat") && TypeName(OpenSession) == Lit("open_session")
    ensures TypeName(SessionData) == Lit("session_data") && TypeName(ResizePty) == Lit("resize_pty")
    ensures TypeName(CloseSession) == Lit("close_session") && TypeName(RenewAgentCert) == Lit("renew_agent_cert")
    ensures TypeName(RotateTunnelSecret) == Lit("rotate_tunnel_secret") && TypeName(FrameType.Error) == Lit("error")
  {
  }

  /** The header length is big-endian. */
  function BigEndian(b: Bytes): int
    requires |b| >= 4
  {
    ((b[0] as int * 256 + b[1] as int) * 256 + b[2] as int) * 256 + b[3] as int
  }

  lemma LengthIsBigEndian(b: Bytes)
    requires |b| >= 4
    ensures Unpack(b) == BigEndian(b)
  {
  }

  /** When `encode_frame` accepts a frame, what it then gives, and otherwise its error: that of the first failing check. */
  lemma EncodeFrameIff(f: Frame, maxFrameBytes: int)
    ensures var r := EncodeFrame(f, maxFrameBytes);
            && (r.Ok? <==> 0 < maxFrameBytes && |f.payload| <= maxFrameBytes && f.requestId != []
                           && |HeaderBytes(f)| <= 16384)
            && (r.Ok? ==> |r.value| >= 4 && BigEndian(r.value) == |HeaderBytes(f)|
                          && r.value[4..] == HeaderBytes(f) + f.payload)
            && (r.Err? ==> r.error == if maxFrameBytes <= 0 then MaxFrameBytesInvalid
                                      else if |f.payload| > maxFrameBytes then PayloadTooLarge
                                      else if f.requestId == [] then RequestIdRequired else HeaderTooLarge)
  {
    if EncodeFrame(f, maxFrameBytes).Ok? {
      var b := EncodeFrame(f, maxFrameBytes).value;
      EncodingParts(f, maxFrameBytes);
      LengthIsBigEndian(b);
      assert b == Pack(|HeaderBytes(f)|) + (HeaderBytes(f) + f.payload);
    }
  }

  /** Octets 4 to 4 + n are strict UTF-8 for the text of a JSON object with these members. */
  predicate HasHeader(data: Bytes, n: nat, members: seq<Member>) {
    4 + n <= |data|
    && var text := Utf8.Decode(data[4..4 + n]); text.Some? && Loads(text.value) == Some(JObj(members))
  }

  /** The four fields tell what the frame is; a missing channel is null or left out, and the payload is within the limit. */
  predicate HeaderSays(members: seq<Member>, f: Frame, maxFrameBytes: int) {
    && Get(members, Lit("type")) == Some(JStr(TypeName(f.kind)))
    && f.requestId != [] && Get(members, Lit("request_id")) == Some(JStr(f.requestId))
    && (if f.channelId.Some? then Get(members, Lit("channel_id")) == Some(JStr(f.channelId.value))
        else Get(members, Lit("channel_id")) in {None, Some(JNull)})
    && Get(members, Lit("payload_length")) == Some(JInt(|f.payload|))
    && 0 < maxFrameBytes && |f.payload| <= maxFrameBytes
  }

  /**
   What `decode_frame` accepts: a big-endian header length of 1 to 16384, that many octets of a JSON object with the four
   fields, and a payload of exactly the length it tells, within the limit.
   */
  lemma DecodeFrameIff(data: Bytes, f: Frame, maxFrameBytes: int)
    ensures DecodeFrame(data, maxFrameBytes) == Ok(f) <==>
              4 <= |data| && 0 < BigEndian(data) <= 16384
              && exists members :: HasHeader(data, BigEndian(data), members)
                   && HeaderSays(members, f, maxFrameBytes) && f.payload == data[4 + BigEndian(data)..]
  {
    if 4 <= |data| {
      LengthIsBigEndian(data);
      var n := BigEndian(data);
      if 0 < n <= 16384 && 4 + n <= |data| {
        HeaderFound(data);
        var h := HeaderObject(data[4..4 + n]);
        if h.Ok? {
          assert HasHeader(data, n, h.value);
          AcceptsHeader(h.value, f, maxFrameBytes);
          DecodeParts(data, f, maxFrameBytes);
        }
      }
    }
  }

  lemma DecodeParts(data: Bytes, f: Frame, maxFrameBytes: int)
    requires 4 <= |data| && 0 < Unpack(data) <= 16384 && 4 + Unpack(data) <= |data|
    requires HeaderObject(data[4..4 + Unpack(data)]).Ok?
    ensures DecodeFrame(data, maxFrameBytes) == Ok(f) <==>
              CheckHeader(HeaderObject(data[4..4 + Unpack(data)]).value, maxFrameBytes)
              == Ok(Header(f.kind, f.requestId, f.channelId, |f.payload|))
              && f.payload == data[4 + Unpack(data)..]
  {
  }

  lemma AcceptsHeader(members: seq<Member>, f: Frame, maxFrameBytes: int)
    ensures CheckHeader(members, maxFrameBytes) == Ok(Header(f.kind, f.requestId, f.channelId, |f.payload|)) <==>
              HeaderSays(members, f, maxFrameBytes)
  {
    var kind := Get(members, TYPE);
    assert kind == Get(members, Lit("type"));
    assert (kind.Some? && kind.value.JStr? && TypeFromName(kind.value.s) == Some(f.kind))
      <==> kind == Some(JStr(TypeName(f.kind))) by {
      if kind.Some? && kind.value.JStr? { TypeFromNameIff(kind.value.s, f.kind); }
      TypeFromNameOfTypeName(f.kind);
    }
    assert Get(members, REQUEST_ID) == Get(members, Lit("request_id"));
    assert Get(members, CHANNEL_ID) == Get(members, Lit("channel_id"));
    assert Get(members, PAYLOAD_LENGTH) == Get(members, Lit("payload_length"));
  }

  /** A header is first refused for its type: one that is no text, or the name of no frame type. */
  lemma TypeErrorIs(members: seq<Member>, maxFrameBytes: int)
    ensures var kind, r := Get(members, Lit("type")), CheckHeader(members, maxFrameBytes);
            && (kind.None? || !kind.value.JStr? ==> r == Err(FrameTypeRequired))
            && (kind.Some? && kind.value.JStr? && (forall k :: kind.value.s != TypeName(k)) ==>
                  r == Err(UnknownFrameType))
  {
    var kind := Get(members, TYPE);
    assert kind == Get(members, Lit("type"));
    if kind.Some? && kind.value.JStr? && forall k :: kind.value.s != TypeName(k) {
      KnownNames(kind.value.s);
      UnknownTypeRefused(members, kind.value.s, maxFrameBytes);
    }
  }

  lemma UnknownTypeRefused(members: seq<Member>, name: Str, maxFrameBytes: int)
    requires Get(members, TYPE) == Some(JStr(name)) && TypeFromName(name).None?
    ensures CheckHeader(members, maxFrameBytes) == Err(UnknownFrameType)
  {
  }

  /** Then for the first other check that fails, in the order of `decode_frame`. */
  lemma HeaderErrorIs(members: seq<Member>, kind: FrameType, maxFrameBytes: int)
    requires Get(members, Lit("type")) == Some(JStr(TypeName(kind)))
    ensures var id, channel := Get(members, Lit("request_id")), Get(members, Lit("channel_id"));
            var length, r := Get(members, Lit("payload_length")), CheckHeader(members, maxFrameBytes);
            r.Err? ==>
              r.error ==
              if id.None? || !id.value.JStr? || id.value.s == [] then RequestIdRequired
              else if channel.Some? && channel.value != JNull && !channel.value.JStr? then ChannelIdInvalid
              else if length.None? || !length.value.JInt? then PayloadLengthNotInteger
              else if length.value.n < 0 then PayloadLengthNegative
              else if maxFrameBytes <= 0 then MaxFrameBytesInvalid
              else PayloadTooLarge
  {
    assert Get(members, TYPE) == Get(members, Lit("type"));
    assert Get(members, REQUEST_ID) == Get(members, Lit("request_id"));
    assert Get(members, CHANNEL_ID) == Get(members, Lit("channel_id"));
    assert Get(members, PAYLOAD_LENGTH) == Get(members, Lit("payload_length"));
    TypeFromNameOfTypeName(kind);
  }

  lemma KnownNames(name: Str)
    ensures TypeFromName(name).None? <==> forall k :: name != TypeName(k)
  {
    forall k ensures TypeFromName(name) == Some(k) <==> name == TypeName(k) { TypeFromNameIff(name, k); }
  }

  /** Why `decode_frame` refuses octets. */
  lemma DecodeErrorIs(data: Bytes, maxFrameBytes: int)
    ensures var r := DecodeFrame(data, maxFrameBytes);
            && (|data| < 4 ==> r == Err(HeaderLengthMissing))
            && (|data| >= 4 && !(0 < BigEndian(data) <= 16384) ==> r == Err(HeaderLengthInvalid))
            && (|data| >= 4 && 0 < BigEndian(data) <= 16384 && |data| < 4 + BigEndian(data) ==> r == Err(HeaderIncomplete))
    ensures |data| >= 4 && 0 < BigEndian(data) <= 16384 && |data| >= 4 + BigEndian(data) ==>
              var r, n := DecodeFrame(data, maxFrameBytes), BigEndian(data);
              var text := Utf8.Decode(data[4..4 + n]);
              && (text.None? || Loads(text.value).None? ==> r == Err(HeaderNotJson))
              && (text.Some? && Loads(text.value).Some? && !Loads(text.value).value.JObj? ==> r == Err(HeaderNotObject))
              && forall members :: HasHeader(data, n, members) && r.Err? ==>
                   r == if CheckHeader(members, maxFrameBytes).Err? then Err(CheckHeader(members, maxFrameBytes).error)
                        else Err(PayloadLengthMismatch)
  {
    if |data| >= 4 {
      LengthIsBigEndian(data);
      if 0 < BigEndian(data) <= 16384 && |data| >= 4 + BigEndian(data) { HeaderFound(data); }
    }
  }

  /** The octets so far tell that more belong to the frame: of the header, or of a payload within the limit. */
  ghost predicate ToldOfMore(s: Bytes, maxFrameBytes: int) {
    4 <= |s| && 0 < BigEndian(s) <= 16384
    && (|s| < 4 + BigEndian(s)
        || exists members, n :: HasHeader(s, BigEndian(s), members) && Get(members, Lit("payload_length")) == Some(JInt(n))
                                && 0 <= n <= maxFrameBytes && |s| < 4 + BigEndian(s) + n)
  }

  lemma HeaderFound(s: Bytes)
    requires 4 <= |s| && 0 < BigEndian(s) && 4 + BigEndian(s) <= |s|
    ensures var h := HeaderObject(s[4..4 + BigEndian(s)]);
            forall members :: HasHeader(s, BigEndian(s), members) <==> h == Ok(members)
  {
  }

  /** When the stream ends, the server's reader says so only if a frame was under way; all else it has refused before. */
  lemma ServerWaitsIff(s: Bytes, maxFrameBytes: int)
    ensures ServerRead(s, maxFrameBytes) == Err(EndOfStream) <==> |s| < 4 || ToldOfMore(s, maxFrameBytes)
  {
    if |s| >= 4 {
      LengthIsBigEndian(s);
      if 0 < BigEndian(s) && 4 + BigEndian(s) <= |s| { HeaderFound(s); }
    }
  }

  /** The agent's reader likewise, with a clean end between frames and another error within the first four octets. */
  lemma AgentWaitsIff(s: Bytes, maxFrameBytes: int)
    ensures AgentReadFrame(s, maxFrameBytes) == CleanEnd <==> s == []
    ensures AgentReadFrame(s, maxFrameBytes) == Failed(PartialHeaderLength) <==> 0 < |s| < 4
    ensures AgentReadFrame(s, maxFrameBytes) == Failed(Incomplete) <==> ToldOfMore(s, maxFrameBytes)
  {
    if |s| >= 4 {
      LengthIsBigEndian(s);
      if 0 < BigEndian(s) && 4 + BigEndian(s) <= |s| { HeaderFound(s); }
    }
  }

  /**
   Why the two readers refuse a frame whose header has come. Only a negative length is told apart by the agent alone;
   for the server the other fields are `decode_frame`'s to refuse.
   */
  lemma ReaderErrors(s: Bytes, maxFrameBytes: int)
    requires |s| >= 4
    ensures var server, agent := ServerRead(s, maxFrameBytes), AgentReadFrame(s, maxFrameBytes);
            !(0 < BigEndian(s) <= 16384) ==>
              server == Err(Protocol(HeaderLengthInvalid)) && agent == Failed(BadFrame(HeaderLengthInvalid))
    ensures 0 < BigEndian(s) <= 16384 && |s| >= 4 + BigEndian(s) ==>
              var server, agent := ServerRead(s, maxFrameBytes), AgentReadFrame(s, maxFrameBytes);
              var text := Utf8.Decode(s[4..4 + BigEndian(s)]);
              && (text.None? || Loads(text.value).None? ==>
                    server == Err(Protocol(HeaderNotJson)) && agent == Failed(BadFrame(HeaderNotJson)))
              && (text.Some? && Loads(text.value).Some? && !Loads(text.value).value.JObj? ==>
                    server == Err(Protocol(HeaderNotObject)) && agent == Failed(BadFrame(HeaderNotObject)))
    ensures forall members :: 0 < BigEndian(s) <= 16384 && HasHeader(s, BigEndian(s), members) ==>
              var server, agent := ServerRead(s, maxFrameBytes), AgentReadFrame(s, maxFrameBytes);
              var length := Get(members, Lit("payload_length"));
              && (length.None? || !length.value.JInt? ==>
                    server == Err(Protocol(PayloadLengthNotInteger)) && agent == Failed(BadFrame(PayloadLengthNotInteger)))
              && (length.Some? && length.value.JInt? && length.value.n < 0 ==>
                    server == Err(Protocol(PayloadTooLarge)) && agent == Failed(BadFrame(PayloadLengthNegative)))
              && (length.Some? && length.value.JInt? && length.value.n >= 0 && length.value.n > maxFrameBytes ==>
                    server == Err(Protocol(PayloadTooLarge)) && agent == Failed(BadFrame(PayloadTooLarge)))
              && (length.Some? && length.value.JInt? && 0 <= length.value.n <= maxFrameBytes
                  && |s| >= 4 + BigEndian(s) + length.value.n && CheckHeader(members, maxFrameBytes).Err? ==>
                    server == Err(Protocol(CheckHeader(members, maxFrameBytes).error))
                    && agent == Data(s[..4 + BigEndian(s) + length.value.n]))
  {
    LengthIsBigEndian(s);
    if 0 < BigEndian(s) <= 16384 && |s| >= 4 + BigEndian(s) {
      HeaderFound(s);
      var h := HeaderObject(s[4..4 + BigEndian(s)]);
      if h.Ok? { ReadThenDecoded(s, h.value, maxFrameBytes); }
    }
  }

  lemma SliceOfPrefix(s: Bytes, i: nat, j: nat, k: nat)
    requires i <= j <= k <= |s|
    ensures s[..k][i..j] == s[i..j]
  {
  }

  lemma ReadThenDecoded(s: Bytes, members: seq<Member>, maxFrameBytes: int)
    requires |s| >= 4 && 0 < Unpack(s) <= 16384 && |s| >= 4 + Unpack(s)
    requires HeaderObject(s[4..4 + Unpack(s)]) == Ok(members)
    ensures Get(members, PAYLOAD_LENGTH) == Get(members, Lit("payload_length"))
    ensures var length := Get(members, PAYLOAD_LENGTH);
            length.Some? && length.value.JInt? && 0 <= length.value.n && |s| >= 4 + Unpack(s) + length.value.n
            && CheckHeader(members, maxFrameBytes).Err? ==>
              DecodeFrame(s[..4 + Unpack(s) + length.value.n], maxFrameBytes)
              == Err(CheckHeader(members, maxFrameBytes).error)
  {
    var length := Get(members, PAYLOAD_LENGTH);
    if length.Some? && length.value.JInt? && 0 <= length.value.n && |s| >= 4 + Unpack(s) + length.value.n {
      var data := s[..4 + Unpack(s) + length.value.n];
      SliceOfPrefix(s, 4, 4 + Unpack(s), |data|);
    }
  }

  /** The tokens of a text, one after another. */
  function Cat(tokens: seq<Str>): Str {
    if tokens == [] then [] else tokens[0] + Cat(tokens[1..])
  }

  function MemberTokens(members: seq<Member>): seq<Str>
    requires members != []
  {
    [Quoted(members[0].key), Lit(":"), Dumps(members[0].value)]
    + if |members| == 1 then [] else [Lit(",")] + MemberTokens(members[1..])
  }

  lemma {:induction false} CatConcat(a: seq<Str>, b: seq<Str>)
    ensures Cat(a + b) == Cat(a) + Cat(b)
  {
    if a == [] {
      assert a + b == b;
    } else {
      assert (a + b)[1..] == a[1..] + b;
      CatConcat(a[1..], b);
      Associates(a[0], Cat(a[1..]), Cat(b));
    }
  }

  lemma CatThree(a: Str, b: Str, c: Str)
    ensures Cat([a, b, c]) == a + b + c
  {
    assert [a, b, c][1..] == [b, c] && [b, c][1..] == [c] && [c][1..] == [];
    assert Cat([c]) == c + Cat([]);
    assert Cat([b, c]) == b + Cat([c]);
  }

  lemma CatCons(a: Str, rest: seq<Str>)
    ensures Cat([a] + rest) == a + Cat(rest)
  {
    assert ([a] + rest)[1..] == rest;
  }

  lemma Separators()
    ensures Lit(":") == [COLON] && Lit(",") == [COMMA]
  {
  }

  lemma MemberText(k: Str, v: Str, more: seq<Str>, tail: Str)
    requires tail == Cat(more)
    ensures Cat([k, Lit(":"), v] + more) == k + [COLON] + v + tail
  {
    Separators();
    CatThree(k, Lit(":"), v);
    CatConcat([k, Lit(":"), v], more);
  }

  lemma {:induction false} MembersText(members: seq<Member>)
    requires members != []
    ensures DumpsMembers(members) == Cat(MemberTokens(members))
  {
    var k, v := Quoted(members[0].key), Dumps(members[0].value);
    if |members| == 1 {
      MemberText(k, v, [], []);
    } else {
      var more := MemberTokens(members[1..]);
      Separators();
      MembersText(members[1..]);
      CatCons(Lit(","), more);
      MemberText(k, v, [Lit(",")] + more, [COMMA] + DumpsMembers(members[1..]));
    }
  }

  function IdText(channelId: Option<Str>): Str {
    if channelId.Some? then InQuotes(channelId.value) else Lit("null")
  }

  lemma LitPlain(s: string)
    requires forall i :: 0 <= i < |s| ==> PlainChar(s[i] as int)
    ensures Plain(Lit(s)) && Quoted(Lit(s)) == InQuotes(Lit(s))
  {
    PlainText(Lit(s));
  }

  lemma NameQuoted(kind: FrameType)
    ensures Quoted(TypeName(kind)) == InQuotes(TypeName(kind))
  {
    match kind
    case Auth => LitPlain("auth");
    case AuthOk => LitPlain("auth_ok");
    case Heartbeat => LitPlain("heartbeat");
    case OpenSession => LitPlain("open_session");
    case SessionData => LitPlain("session_data");
    case ResizePty => LitPlain("resize_pty");
    case CloseSession => LitPlain("close_session");
    case RenewAgentCert => LitPlain("renew_agent_cert");
    case RotateTunnelSecret => LitPlain("rotate_tunnel_secret");
    case Error => LitPlain("error");
  }

  lemma TokensCons(m: Member, rest: seq<Member>)
    requires rest != []
    ensures MemberTokens([m] + rest) == [Quoted(m.key), Lit(":"), Dumps(m.value), Lit(",")] + MemberTokens(rest)
  {
    assert ([m] + rest)[1..] == rest;
  }

  lemma FourTokens(a: Member, b: Member, c: Member, d: Member)
    ensures MemberTokens([a, b, c, d])
         == [Quoted(a.key), Lit(":"), Dumps(a.value), Lit(","), Quoted(b.key), Lit(":"), Dumps(b.value), Lit(","),
             Quoted(c.key), Lit(":"), Dumps(c.value), Lit(","), Quoted(d.key), Lit(":"), Dumps(d.value)]
  {
    assert MemberTokens([d]) == [Quoted(d.key), Lit(":"), Dumps(d.value)];
    TokensCons(c, [d]);
    TokensCons(b, [c] + [d]);
    TokensCons(a, [b] + ([c] + [d]));
    assert [a] + ([b] + ([c] + [d])) == [a, b, c, d];
  }

  lemma ChannelTokens(f: Frame)
    requires f.channelId.Some? ==> Plain(f.channelId.value)
    ensures var m := HeaderMembers(f)[0];
            Quoted(m.key) == InQuotes(Lit("channel_id")) && Dumps(m.value) == IdText(f.channelId)
  {
    LitPlain("channel_id");
    if f.channelId.Some? { PlainText(f.channelId.value); }
  }

  lemma RequestTokens(f: Frame)
    requires Plain(f.requestId)
    ensures var m := HeaderMembers(f)[2];
            Quoted(m.key) == InQuotes(Lit("request_id")) && Dumps(m.value) == InQuotes(f.requestId)
  {
    LitPlain("request_id");
    PlainText(f.requestId);
  }

  lemma LengthTokens(f: Frame)
    ensures var m := HeaderMembers(f)[1];
            Quoted(m.key) == InQuotes(Lit("payload_length")) && Dumps(m.value) == PrintNat(|f.payload|)
  {
    LitPlain("payload_length");
  }

  lemma TypeTokens(f: Frame)
    ensures var m := HeaderMembers(f)[3];
            Quoted(m.key) == InQuotes(Lit("type")) && Dumps(m.value) == InQuotes(TypeName(f.kind))
  {
    LitPlain("type");
    NameQuoted(f.kind);
  }

  lemma ObjectText(a: Member, b: Member, c: Member, d: Member)
    ensures Dumps(JObj([a, b, c, d])) == Lit("{") + Cat(MemberTokens([a, b, c, d])) + Lit("}")
  {
    MembersText([a, b, c, d]);
  }

  /** The text of a header with plain identifiers: four keys in sorted order, no spaces, the length in decimal. */
  lemma HeaderText(f: Frame)
    requires Plain(f.requestId) && (f.channelId.Some? ==> Plain(f.channelId.value))
    ensures HeaderBytes(f)
         == Lit("{")
            + Cat([InQuotes(Lit("channel_id")), Lit(":"), IdText(f.channelId), Lit(","),
                   InQuotes(Lit("payload_length")), Lit(":"), PrintNat(|f.payload|), Lit(","),
                   InQuotes(Lit("request_id")), Lit(":"), InQuotes(f.requestId), Lit(","),
                   InQuotes(Lit("type")), Lit(":"), InQuotes(TypeName(f.kind))])
            + Lit("}")
  {
    var m := HeaderMembers(f);
    ObjectText(m[0], m[1], m[2], m[3]);
    FourTokens(m[0], m[1], m[2], m[3]);
    ChannelTokens(f);
    RequestTokens(f);
    LengthTokens(f);
    TypeTokens(f);
    assert m == [m[0], m[1], m[2], m[3]];
  }

  // ---------------------------------------------------------------- replay files

  lemma FieldNames()
    ensures Quoted(Lit("version")) == InQuotes(Lit("version"))
    ensures Quoted(Lit("command")) == InQuotes(Lit("command"))
    ensures Quoted(Lit("timestamp")) == InQuotes(Lit("timestamp"))
  {
    LitPlain("version");
    LitPlain("command");
    LitPlain("timestamp");
  }

  lemma SizeNames()
    ensures Quoted(Lit("width")) == InQuotes(Lit("width")) && Quoted(Lit("height")) == InQuotes(Lit("height"))
  {
    LitPlain("width");
    LitPlain("height");
  }

  lemma FiveTokens(z: Member, a: Member, b: Member, c: Member, d: Member)
    ensures MemberTokens([z, a, b, c, d])
         == [Quoted(z.key), Lit(":"), Dumps(z.value), Lit(",")]
            + [Quoted(a.key), Lit(":"), Dumps(a.value), Lit(","), Quoted(b.key), Lit(":"), Dumps(b.value), Lit(","),
               Quoted(c.key), Lit(":"), Dumps(c.value), Lit(","), Quoted(d.key), Lit(":"), Dumps(d.value)]
  {
    TokensCons(z, [a, b, c, d]);
    assert [z] + [a, b, c, d] == [z, a, b, c, d];
    FourTokens(a, b, c, d);
  }

  lemma FiveText(z: Member, a: Member, b: Member, c: Member, d: Member)
    ensures Dumps(JObj([z, a, b, c, d])) == Lit("{") + Cat(MemberTokens([z, a, b, c, d])) + Lit("}")
  {
    MembersText([z, a, b, c, d]);
  }

  /** The header line of a replay file whose node has a plain name: the five fields of asciinema version 2. */
  lemma ReplayHeaderText(nodeName: Str, width: int, height: int, timestamp: int)
    requires Plain(nodeName)
    ensures Dumps(HeaderValue(nodeName, width, height, timestamp))
         == Lit("{")
            + Cat([InQuotes(Lit("version")), Lit(":"), PrintInt(2), Lit(",")]
                  + [InQuotes(Lit("command")), Lit(":"), InQuotes(nodeName), Lit(","),
                     InQuotes(Lit("width")), Lit(":"), PrintInt(width), Lit(","),
                     InQuotes(Lit("height")), Lit(":"), PrintInt(height), Lit(","),
                     InQuotes(Lit("timestamp")), Lit(":"), PrintInt(timestamp)])
            + Lit("}")
  {
    var z, a := Member(Lit("version"), JInt(2)), Member(Lit("command"), JStr(nodeName));
    var b, c := Member(Lit("width"), JInt(width)), Member(Lit("height"), JInt(height));
    var d := Member(Lit("timestamp"), JInt(timestamp));
    FiveText(z, a, b, c, d);
    FiveTokens(z, a, b, c, d);
    FieldNames();
    SizeNames();
    PlainText(nodeName);
    assert HeaderValue(nodeName, width, height, timestamp) == JObj([z, a, b, c, d]);
  }

  /** A line of a replay file is its JSON text and a newline; an event is its time, its direction and its text. */
  lemma EventText(e: Event)
    requires e.stream in {INPUT, OUTPUT} && Plain(e.data)
    ensures Dumps(EventValue(e))
         == Lit("[") + Cat([e.seconds, Lit(","), InQuotes(if e.stream == INPUT then Lit("i") else Lit("o")), Lit(","),
                            InQuotes(e.data)]) + Lit("]")
    ensures Line(EventValue(e)) == TextOf(EventValue(e)) + [0x0A]
  {
    PlainText(e.data);
    LitPlain("i");
    LitPlain("o");
    var a, b, c := JFloat(e.seconds), JStr([e.stream]), JStr(e.data);
    assert [e.stream] == if e.stream == INPUT then Lit("i") else Lit("o");
    ThreeItems(a, b, c);
  }

  function ItemTokens(items: seq<Value>): seq<Str>
    requires items != []
  {
    [Dumps(items[0])] + if |items| == 1 then [] else [Lit(",")] + ItemTokens(items[1..])
  }

  lemma {:induction false} ItemsText(items: seq<Value>)
    requires items != []
    ensures DumpsItems(items) == Cat(ItemTokens(items))
  {
    if |items| == 1 {
      CatCons(Dumps(items[0]), []);
    } else {
      ItemsText(items[1..]);
      CatCons(Lit(","), ItemTokens(items[1..]));
      CatCons(Dumps(items[0]), [Lit(",")] + ItemTokens(items[1..]));
    }
  }

  lemma ThreeItems(a: Value, b: Value, c: Value)
    ensures ItemTokens([a, b, c]) == [Dumps(a), Lit(","), Dumps(b), Lit(","), Dumps(c)]
    ensures Dumps(JArr([a, b, c])) == Lit("[") + Cat(ItemTokens([a, b, c])) + Lit("]")
  {
    assert [a, b, c][1..] == [b, c] && [b, c][1..] == [c];
    assert ItemTokens([c]) == [Dumps(c)];
    ItemsText([a, b, c]);
  }
}
