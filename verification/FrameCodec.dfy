/**
 Tunnel frames on the wire: a 4-byte big-endian header length, a compact JSON header with its four keys in sorted
 order, and an opaque payload (src/vibeconnect_common/tunnel.py).
 */
module FrameCodec {
  import opened Wrappers
  import opened Text
  import opened Json
  import opened JsonRoundTrip
  import Utf8

  const FRAME_HEADER_MAX_BYTES: nat := 16 * 1024

  datatype FrameType =
    | Auth | AuthOk | Heartbeat | OpenSession | SessionData | ResizePty | CloseSession
    | RenewAgentCert | RotateTunnelSecret | Error

  /** An envelope with its payload; `payload_length` is the payload's length in every frame that is accepted. */
  datatype Frame = Frame(kind: FrameType, requestId: Str, channelId: Option<Str>, payload: Bytes)

  datatype Header = Header(kind: FrameType, requestId: Str, channelId: Option<Str>, payloadLength: nat)

  datatype ProtocolError =
    | HeaderLengthMissing | HeaderLengthInvalid | HeaderIncomplete | HeaderTooLarge
    | HeaderNotJson | HeaderNotObject
    | FrameTypeRequired | UnknownFrameType | RequestIdRequired | ChannelIdInvalid
    | PayloadLengthNotInteger | PayloadLengthNegative | PayloadTooLarge | PayloadLengthMismatch
    | MaxFrameBytesInvalid

  function TypeName(kind: FrameType): Str {
    Lit(match kind
        case Auth => "auth"
        case AuthOk => "auth_ok"
        case Heartbeat => "heartbeat"
        case OpenSession => "open_session"
        case SessionData => "session_data"
        case ResizePty => "resize_pty"
        case CloseSession => "close_session"
        case RenewAgentCert => "renew_agent_cert"
        case RotateTunnelSecret => "rotate_tunnel_secret"
        case Error => "error")
  }

  function TypeFromName(name: Str): Option<FrameType> {
    if name == TypeName(Auth) then Some(Auth)
    else if name == TypeName(AuthOk) then Some(AuthOk)
    else if name == TypeName(Heartbeat) then Some(Heartbeat)
    else if name == TypeName(OpenSession) then Some(OpenSession)
    else if name == TypeName(SessionData) then Some(SessionData)
    else if name == TypeName(ResizePty) then Some(ResizePty)
    else if name == TypeName(CloseSession) then Some(CloseSession)
    else if name == TypeName(RenewAgentCert) then Some(RenewAgentCert)
    else if name == TypeName(RotateTunnelSecret) then Some(RotateTunnelSecret)
    else if name == TypeName(Error) then Some(Error)
    else None
  }

  /** `struct.pack("!I", n)`. */
  function Pack(n: nat): (b: Bytes)
    requires n < 0x1_0000_0000
    ensures |b| == 4
  {
    [n / 0x100_0000, n / 0x1_0000 % 0x100, n / 0x100 % 0x100, n % 0x100]
  }

  function Unpack(b: Bytes): (n: int)
    requires |b| >= 4
    ensures 0 <= n
  {
    b[0] as int * 0x100_0000 + b[1] as int * 0x1_0000 + b[2] as int * 0x100 + b[3] as int
  }

  const CHANNEL_ID: Str := Lit("channel_id")
  const PAYLOAD_LENGTH: Str := Lit("payload_length")
  const REQUEST_ID: Str := Lit("request_id")
  const TYPE: Str := Lit("type")

  function HeaderMembers(f: Frame): seq<Member> {
    [Member(CHANNEL_ID, if f.channelId.Some? then JStr(f.channelId.value) else JNull),
     Member(PAYLOAD_LENGTH, JInt(|f.payload|)),
     Member(REQUEST_ID, JStr(f.requestId)),
     Member(TYPE, JStr(TypeName(f.kind)))]
  }

  /** The header's octets: the JSON text is ASCII, so encoding it as UTF-8 cannot fail. */
  function HeaderBytes(f: Frame): (b: Bytes)
    ensures Utf8.Encode(Dumps(JObj(HeaderMembers(f)))) == Some(b) && b == Dumps(JObj(HeaderMembers(f)))
  {
    var text := Dumps(JObj(HeaderMembers(f)));
    DumpsPrintable(JObj(HeaderMembers(f)));
    Utf8.EncodeOfAscii(text);
    Utf8.Encode(text).value
  }

  function EncodeFrame(f: Frame, maxFrameBytes: int): Result<Bytes, ProtocolError> {
    if maxFrameBytes <= 0 then Err(MaxFrameBytesInvalid)
    else if |f.payload| > maxFrameBytes then Err(PayloadTooLarge)
    else if f.requestId == [] then Err(RequestIdRequired)
    else if |HeaderBytes(f)| > FRAME_HEADER_MAX_BYTES then Err(HeaderTooLarge)
    else Ok(Pack(|HeaderBytes(f)|) + HeaderBytes(f) + f.payload)
  }

  /** `json.loads(header.decode("utf-8"))` where the result is an object. */
  function HeaderObject(header: Bytes): Result<seq<Member>, ProtocolError> {
    match Utf8.Decode(header)
    case None => Err(HeaderNotJson)
    case Some(text) =>
      match Loads(text)
      case None => Err(HeaderNotJson)
      case Some(JObj(members)) => Ok(members)
      case Some(_) => Err(HeaderNotObject)
  }

  /** The checks on the header's fields, in the order in which `decode_frame` makes them. */
  function CheckHeader(members: seq<Member>, maxFrameBytes: int): Result<Header, ProtocolError> {
    var kind := Get(members, TYPE);
    var requestId := Get(members, REQUEST_ID);
    var channelId := Get(members, CHANNEL_ID);
    var payloadLength := Get(members, PAYLOAD_LENGTH);
    if kind.None? || !kind.value.JStr? then Err(FrameTypeRequired)
    else if TypeFromName(kind.value.s).None? then Err(UnknownFrameType)
    else if requestId.None? || !requestId.value.JStr? || requestId.value.s == [] then Err(RequestIdRequired)
    else if channelId.Some? && !channelId.value.JNull? && !channelId.value.JStr? then Err(ChannelIdInvalid)
    else if payloadLength.None? || !payloadLength.value.JInt? then Err(PayloadLengthNotInteger)
    else if payloadLength.value.n < 0 then Err(PayloadLengthNegative)
    else if maxFrameBytes <= 0 then Err(MaxFrameBytesInvalid)
    else if payloadLength.value.n > maxFrameBytes then Err(PayloadTooLarge)
    else
      Ok(Header(TypeFromName(kind.value.s).value,
                requestId.value.s,
                if channelId.Some? && channelId.value.JStr? then Some(channelId.value.s) else None,
                payloadLength.value.n))
  }

  function DecodeHeader(header: Bytes, maxFrameBytes: int): Result<Header, ProtocolError> {
    match HeaderObject(header)
    case Err(e) => Err(e)
    case Ok(members) => CheckHeader(members, maxFrameBytes)
  }

  function DecodeFrame(data: Bytes, maxFrameBytes: int): Result<Frame, ProtocolError> {
    if |data| < 4 then Err(HeaderLengthMissing)
    else if Unpack(data) == 0 || Unpack(data) > FRAME_HEADER_MAX_BYTES then Err(HeaderLengthInvalid)
    else if |data| < 4 + Unpack(data) then Err(HeaderIncomplete)
    else
      var end := 4 + Unpack(data);
      match DecodeHeader(data[4..end], maxFrameBytes)
      case Err(e) => Err(e)
      case Ok(h) =>
        if |data[end..]| != h.payloadLength then Err(PayloadLengthMismatch)
        else Ok(Frame(h.kind, h.requestId, h.channelId, data[end..]))
  }

  // ---------------------------------------------------------------- round trip

  lemma UnpackOfPack(n: nat, rest: Bytes)
    requires n < 0x1_0000_0000
    ensures Unpack(Pack(n) + rest) == n
  {
    assert n / 0x1_0000 == n / 0x100_0000 * 0x100 + n / 0x1_0000 % 0x100;
    assert n / 0x100 == n / 0x1_0000 * 0x100 + n / 0x100 % 0x100;
    assert n == n / 0x100 * 0x100 + n % 0x100;
  }

  /** No two frame types share a name. */
  lemma TypeFromNameOfTypeName(kind: FrameType)
    ensures TypeFromName(TypeName(kind)) == Some(kind)
  {
    assert "auth"[0] == 'a' && "heartbeat"[0] == 'h' && "error"[0] == 'e';
    assert "open_session"[0] == 'o' && "session_data"[0] == 's';
  }

  lemma TypeFromNameSound(name: Str)
    ensures TypeFromName(name).Some? ==> TypeName(TypeFromName(name).value) == name
  {
  }

  /** And no other text is read as a frame type. */
  lemma TypeFromNameIff(name: Str, kind: FrameType)
    ensures TypeFromName(name) == Some(kind) <==> name == TypeName(kind)
  {
    TypeFromNameSound(name);
    TypeFromNameOfTypeName(kind);
  }

  lemma AsciiHasNoPair(s: Str)
    requires IsAscii(s)
    ensures MergePairs(s) == s
  {
    MergePairsFixed(s);
  }

  lemma KeysDistinct()
    ensures CHANNEL_ID != REQUEST_ID && |CHANNEL_ID| == 10 && |REQUEST_ID| == 10
    ensures |PAYLOAD_LENGTH| == 14 && |TYPE| == 4
  {
    assert "channel_id"[0] == 'c' && "request_id"[0] == 'r';
    assert CHANNEL_ID[0] != REQUEST_ID[0];
  }

  lemma LitAscii(s: string)
    requires forall i :: 0 <= i < |s| ==> s[i] as int < 0x80
    ensures IsAscii(Lit(s))
  {
  }

  lemma HeaderKeysAscii(f: Frame, i: nat)
    requires i < 4
    ensures IsAscii(HeaderMembers(f)[i].key)
  {
    if i == 0 {
      LitAscii("channel_id");
    } else if i == 1 {
      LitAscii("payload_length");
    } else if i == 2 {
      LitAscii("request_id");
    } else {
      LitAscii("type");
    }
  }

  lemma TypeNameAscii(kind: FrameType)
    ensures IsAscii(TypeName(kind)) && |TypeName(kind)| <= 20
  {
  }

  /** The frame with the surrogate pairs of its two identifiers fused. */
  function MergeFrame(f: Frame): Frame {
    f.(requestId := MergePairs(f.requestId),
       channelId := if f.channelId.Some? then Some(MergePairs(f.channelId.value)) else None)
  }

  ghost predicate IdsHavePair(f: Frame) {
    HasPair(f.requestId) || (f.channelId.Some? && HasPair(f.channelId.value))
  }

  lemma MergeFrameFixed(f: Frame)
    ensures MergeFrame(f) == f <==> !IdsHavePair(f)
  {
    MergePairsFixed(f.requestId);
    if f.channelId.Some? { MergePairsFixed(f.channelId.value); }
  }

  lemma {:induction false} MergeMembersAt(members: seq<Member>)
    ensures |MergeMembers(members)| == |members|
    ensures forall i :: 0 <= i < |members| ==>
              MergeMembers(members)[i] == Member(MergePairs(members[i].key), MergeValue(members[i].value))
  {
    if members != [] {
      MergeMembersAt(members[1..]);
    }
  }

  lemma MergeHeaderMembers(f: Frame)
    ensures MergeMembers(HeaderMembers(f)) == HeaderMembers(MergeFrame(f))
  {
    var m, g := HeaderMembers(f), HeaderMembers(MergeFrame(f));
    MergeMembersAt(m);
    TypeNameAscii(f.kind);
    AsciiHasNoPair(TypeName(f.kind));
    forall i | 0 <= i < 4 ensures MergePairs(m[i].key) == m[i].key {
      HeaderKeysAscii(f, i);
      AsciiHasNoPair(m[i].key);
    }
    assert MergeMembers(m) == g;
  }

  lemma {:induction false} GetLast(members: seq<Member>, i: nat)
    requires i < |members| && forall j :: i < j < |members| ==> members[j].key != members[i].key
    ensures Get(members, members[i].key) == Some(members[i].value)
  {
    if i < |members| - 1 {
      GetLast(members[..|members| - 1], i);
    }
  }

  lemma GetHeaderMembers(f: Frame)
    ensures Get(HeaderMembers(f), TYPE) == Some(JStr(TypeName(f.kind)))
    ensures Get(HeaderMembers(f), REQUEST_ID) == Some(JStr(f.requestId))
    ensures Get(HeaderMembers(f), PAYLOAD_LENGTH) == Some(JInt(|f.payload|))
    ensures Get(HeaderMembers(f), CHANNEL_ID)
         == Some(if f.channelId.Some? then JStr(f.channelId.value) else JNull)
  {
    var m := HeaderMembers(f);
    KeysDistinct();
    GetLast(m, 0);
    GetLast(m, 1);
    GetLast(m, 2);
    GetLast(m, 3);
  }

  lemma HeaderObjectOfDumps(members: seq<Member>)
    requires FloatsOk(JObj(members))
    ensures IsAscii(Dumps(JObj(members)))
    ensures HeaderObject(Dumps(JObj(members))) == Ok(MergeMembers(members))
  {
    var text := Dumps(JObj(members));
    DumpsPrintable(JObj(members));
    Utf8.EncodeOfAscii(text);
    Utf8.DecodeOfEncode(text);
    LoadsOfDumps(JObj(members));
  }

  lemma HeaderObjectOfHeaderBytes(f: Frame)
    ensures HeaderObject(HeaderBytes(f)) == Ok(HeaderMembers(MergeFrame(f)))
  {
    HeaderObjectOfDumps(HeaderMembers(f));
    MergeHeaderMembers(f);
  }

  lemma CheckHeaderOfMembers(f: Frame, maxFrameBytes: int)
    requires 0 < maxFrameBytes && |f.payload| <= maxFrameBytes && f.requestId != []
    ensures CheckHeader(HeaderMembers(f), maxFrameBytes)
         == Ok(Header(f.kind, f.requestId, f.channelId, |f.payload|))
  {
    GetHeaderMembers(f);
    TypeFromNameOfTypeName(f.kind);
  }

  lemma DecodeHeaderOfHeaderBytes(f: Frame, maxFrameBytes: int)
    requires 0 < maxFrameBytes && |f.payload| <= maxFrameBytes && f.requestId != []
    ensures var g := MergeFrame(f);
            DecodeHeader(HeaderBytes(f), maxFrameBytes) == Ok(Header(g.kind, g.requestId, g.channelId, |g.payload|))
  {
    HeaderObjectOfHeaderBytes(f);
    CheckHeaderOfMembers(MergeFrame(f), maxFrameBytes);
  }

  /** Where an encoding's parts lie. */
  lemma EncodingParts(f: Frame, maxFrameBytes: int)
    requires EncodeFrame(f, maxFrameBytes).Ok?
    ensures var b := EncodeFrame(f, maxFrameBytes).value; var n := |HeaderBytes(f)|;
            0 < n <= FRAME_HEADER_MAX_BYTES && |b| == 4 + n + |f.payload|
            && Unpack(b) == n && b[4..4 + n] == HeaderBytes(f) && b[4 + n..] == f.payload
  {
    var b, h := EncodeFrame(f, maxFrameBytes).value, HeaderBytes(f);
    assert b == Pack(|h|) + (h + f.payload);
    UnpackOfPack(|h|, h + f.payload);
    DumpsHead(JObj(HeaderMembers(f)));
  }

  /** Whatever `encode_frame` accepts, `decode_frame` turns back into its fields and payload. */
  lemma DecodeOfEncode(f: Frame, maxFrameBytes: int)
    requires EncodeFrame(f, maxFrameBytes).Ok?
    ensures DecodeFrame(EncodeFrame(f, maxFrameBytes).value, maxFrameBytes) == Ok(MergeFrame(f))
  {
    EncodingParts(f, maxFrameBytes);
    DecodeHeaderOfHeaderBytes(f, maxFrameBytes);
  }

  /** The round trip is exact if and only if neither identifier holds two surrogates that the JSON reader would fuse. */
  lemma RoundTrip(f: Frame, maxFrameBytes: int)
    requires EncodeFrame(f, maxFrameBytes).Ok?
    ensures DecodeFrame(EncodeFrame(f, maxFrameBytes).value, maxFrameBytes) == Ok(f) <==> !IdsHavePair(f)
  {
    DecodeOfEncode(f, maxFrameBytes);
    MergeFrameFixed(f);
  }

  // ---------------------------------------------------------------- what fits

  function Pow10(k: nat): (n: nat)
    ensures n > 0
  {
    if k == 0 then 1 else 10 * Pow10(k - 1)
  }

  lemma {:induction false} PrintNatLength(n: nat, k: nat)
    requires 1 <= k && n < Pow10(k)
    ensures |PrintNat(n)| <= k
  {
    assert Pow10(1) == 10 * Pow10(0) == 10;
    if n >= 10 {
      PrintNatLength(n / 10, k - 1);
    }
  }

  lemma {:induction false} EscapeAllLength(s: Str)
    ensures |EscapeAll(s)| <= 12 * |s|
  {
    if s != [] {
      EscapeAllLength(s[1..]);
    }
  }

  lemma {:induction false} DumpsMembersLength(members: seq<Member>)
    requires members != []
    requires forall i :: 0 <= i < |members| ==> 12 * |members[i].key| + |Dumps(members[i].value)| + 4 <= 4000
    ensures |DumpsMembers(members)| <= 4000 * |members|
  {
    EscapeAllLength(members[0].key);
    if |members| > 1 {
      DumpsMembersLength(members[1..]);
    }
  }

  /** What one header member costs, commas and quotes included. */
  lemma MemberFits(f: Frame, i: nat)
    requires i < 4 && |f.payload| < Pow10(20)
    requires |f.requestId| <= 300 && (f.channelId.Some? ==> |f.channelId.value| <= 300)
    ensures var m := HeaderMembers(f)[i]; 12 * |m.key| + |Dumps(m.value)| + 4 <= 4000
  {
    KeysDistinct();
    if i == 0 {
      if f.channelId.Some? { EscapeAllLength(f.channelId.value); }
    } else if i == 1 {
      PrintNatLength(|f.payload|, 20);
    } else if i == 2 {
      EscapeAllLength(f.requestId);
    } else {
      TypeNameAscii(f.kind);
      EscapeAllLength(TypeName(f.kind));
    }
  }

  lemma ShortMembersFit(members: seq<Member>)
    requires |members| == 4
    requires forall i :: 0 <= i < 4 ==> 12 * |members[i].key| + |Dumps(members[i].value)| + 4 <= 4000
    ensures |Dumps(JObj(members))| <= FRAME_HEADER_MAX_BYTES
  {
    DumpsMembersLength(members);
  }

  lemma HeaderBytesLength(f: Frame, members: seq<Member>)
    requires members == HeaderMembers(f)
    ensures |HeaderBytes(f)| == |Dumps(JObj(members))|
  {
  }

  /** Identifiers of at most 300 characters and payloads of fewer than 10^20 octets always fit the header bound. */
  lemma ShortIdsFit(f: Frame, maxFrameBytes: int)
    requires 0 < maxFrameBytes && |f.payload| <= maxFrameBytes && |f.payload| < Pow10(20)
    requires 0 < |f.requestId| <= 300 && (f.channelId.Some? ==> |f.channelId.value| <= 300)
    ensures EncodeFrame(f, maxFrameBytes).Ok?
  {
    ShortHeaderFits(f, HeaderMembers(f));
  }

  lemma ShortHeaderFits(f: Frame, members: seq<Member>)
    requires members == HeaderMembers(f) && |f.payload| < Pow10(20)
    requires |f.requestId| <= 300 && (f.channelId.Some? ==> |f.channelId.value| <= 300)
    ensures |HeaderBytes(f)| <= FRAME_HEADER_MAX_BYTES
  {
    forall i | 0 <= i < 4 ensures 12 * |members[i].key| + |Dumps(members[i].value)| + 4 <= 4000 {
      MemberFits(f, i);
    }
    ShortMembersFit(members);
    HeaderBytesLength(f, members);
  }

  /** An id that does not come back: the two code points U+D800 U+DC00, which are read as the one character U+10000. */
  lemma PairExample(f: Frame, maxFrameBytes: int)
    requires |f.requestId| == 2 && f.requestId[0] == 0xD800 && f.requestId[1] == 0xDC00
    requires f.channelId.None? && |f.payload| == 0 && 0 < maxFrameBytes
    ensures EncodeFrame(f, maxFrameBytes).Ok?
    ensures DecodeFrame(EncodeFrame(f, maxFrameBytes).value, maxFrameBytes) != Ok(f)
  {
    ShortIdsFit(f, maxFrameBytes);
    assert PairAt(f.requestId, 0);
    RoundTrip(f, maxFrameBytes);
  }
}
