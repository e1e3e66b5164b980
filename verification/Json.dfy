/**
 JSON text (RFC 8259) the way Python's `json` writes and reads it: `dumps` with compact separators and
 `ensure_ascii`, and `loads` with its strict scanner. Numbers that are not integers stay opaque tokens.
 */
module Json {
  import opened Wrappers
  import opened Text

  datatype Value =
    | JNull
    | JBool(b: bool)
    | JInt(n: int)
    | JFloat(token: Str)
    | JStr(s: Str)
    | JArr(items: seq<Value>)
    | JObj(members: seq<Member>)

  datatype Member = Member(key: Str, value: Value)

  const QUOTE: Char := 0x22
  const BACKSLASH: Char := 0x5C
  const LOWER_U: Char := 0x75
  const COMMA: Char := 0x2C
  const COLON: Char := 0x3A
  const MINUS: Char := 0x2D
  const DOT: Char := 0x2E

  // ---------------------------------------------------------------- strings

  function HexDigit(d: int): Char
    requires 0 <= d < 0x10
  {
    if d < 10 then 0x30 + d else 0x57 + d
  }

  function HexValue(c: Char): (r: Option<int>)
    ensures r.Some? ==> 0 <= r.value < 0x10
  {
    if 0x30 <= c <= 0x39 then Some(c as int - 0x30)
    else if 0x61 <= c <= 0x66 then Some(c as int - 0x57)
    else if 0x41 <= c <= 0x46 then Some(c as int - 0x37)
    else None
  }

  function UEscape(n: int): (t: Str)
    requires 0 <= n < 0x10000
    ensures |t| == 6
  {
    [BACKSLASH, LOWER_U,
     HexDigit(n / 0x1000), HexDigit(n / 0x100 % 0x10), HexDigit(n / 0x10 % 0x10), HexDigit(n % 0x10)]
  }

  function EscapeChar(c: Char): (t: Str)
    ensures 1 <= |t|
  {
    if c == QUOTE || c == BACKSLASH then [BACKSLASH, c]
    else if c == 0x08 then [BACKSLASH, 0x62]
    else if c == 0x0C then [BACKSLASH, 0x66]
    else if c == 0x0A then [BACKSLASH, 0x6E]
    else if c == 0x0D then [BACKSLASH, 0x72]
    else if c == 0x09 then [BACKSLASH, 0x74]
    else if 0x20 <= c <= 0x7E then [c]
    else if c < 0x10000 then UEscape(c)
    else UEscape(HighPart(c)) + UEscape(LowPart(c))
  }

  function HighPart(c: Char): (h: Char)
    requires 0x10000 <= c
    ensures IsHigh(h)
  {
    0xD800 + (c - 0x10000) / 0x400
  }

  function LowPart(c: Char): (l: Char)
    requires 0x10000 <= c
    ensures IsLow(l)
  {
    0xDC00 + (c - 0x10000) % 0x400
  }

  function EscapeAll(s: Str): Str {
    if s == [] then [] else EscapeChar(s[0]) + EscapeAll(s[1..])
  }

  function Quoted(s: Str): Str {
    [QUOTE] + EscapeAll(s) + [QUOTE]
  }

  function SimpleEscape(c: Char): Option<Char> {
    if c == QUOTE || c == BACKSLASH || c == 0x2F then Some(c)
    else if c == 0x62 then Some(0x08)
    else if c == 0x66 then Some(0x0C)
    else if c == 0x6E then Some(0x0A)
    else if c == 0x72 then Some(0x0D)
    else if c == 0x74 then Some(0x09)
    else None
  }

  /** The code unit of a `\uXXXX` escape at the head of `t`. */
  function ScanUEscape(t: Str): (r: Option<Char>)
    ensures r.Some? ==> |t| >= 6 && r.value < 0x10000
  {
    if |t| >= 6 && t[0] == BACKSLASH && t[1] == LOWER_U
       && HexValue(t[2]).Some? && HexValue(t[3]).Some? && HexValue(t[4]).Some? && HexValue(t[5]).Some? then
      Some(HexValue(t[2]).value * 0x1000 + HexValue(t[3]).value * 0x100
           + HexValue(t[4]).value * 0x10 + HexValue(t[5]).value)
    else None
  }

  /** One character of a string body with the text it takes; a high and a low escape in a row are one character. */
  function ScanChar(t: Str): (r: Option<(Char, nat)>)
    requires t != []
    ensures r.Some? ==> 1 <= r.value.1 <= |t|
  {
    if t[0] != BACKSLASH then
      if t[0] < 0x20 then None else Some((t[0], 1))
    else if |t| == 1 then None
    else if t[1] != LOWER_U then
      match SimpleEscape(t[1]) case None => None case Some(c) => Some((c, 2))
    else
      match ScanUEscape(t)
      case None => None
      case Some(c) =>
        match if IsHigh(c) then ScanUEscape(t[6..]) else None
        case Some(d) => if IsLow(d) then Some((Join(c, d), 12)) else Some((c, 6))
        case None => Some((c, 6))
  }

  /** The rest of a string whose opening quote has been read, and the text after its closing quote. */
  function ScanString(t: Str): (r: Option<(Str, Str)>)
    ensures r.Some? ==> |r.value.1| < |t|
    decreases |t|
  {
    if t == [] then None
    else if t[0] == QUOTE then Some(([], t[1..]))
    else
      match ScanChar(t)
      case None => None
      case Some((c, n)) =>
        match ScanString(t[n..])
        case None => None
        case Some((s, rest)) => Some(([c] + s, rest))
  }

  // ---------------------------------------------------------------- numbers

  predicate IsDigit(c: Char) {
    0x30 <= c <= 0x39
  }

  function PrintNat(n: nat): (t: Str)
    ensures t != [] && forall i :: 0 <= i < |t| ==> IsDigit(t[i])
    ensures t[0] == 0x30 ==> n == 0 && |t| == 1
  {
    if n < 10 then [0x30 + n] else PrintNat(n / 10) + [0x30 + n % 10]
  }

  function PrintInt(n: int): Str {
    if n < 0 then [MINUS] + PrintNat(-n) else PrintNat(n)
  }

  function DigitsValue(d: Str): (n: int)
    requires forall i :: 0 <= i < |d| ==> IsDigit(d[i])
    ensures 0 <= n
  {
    if d == [] then 0
    else
      assert IsDigit(d[|d| - 1]);
      DigitsValue(d[..|d| - 1]) * 10 + (d[|d| - 1] as int - 0x30)
  }

  /** The longest run of digits at the head of `t`. */
  function DigitRun(t: Str): (d: Str)
    ensures d <= t && forall i :: 0 <= i < |d| ==> IsDigit(d[i])
  {
    if t == [] || !IsDigit(t[0]) then [] else [t[0]] + DigitRun(t[1..])
  }

  /** The integer part: `0`, or digits that do not begin with it. */
  function IntPart(t: Str): (d: Str)
    ensures d <= t && forall i :: 0 <= i < |d| ==> IsDigit(d[i])
  {
    if t != [] && t[0] == 0x30 then t[..1] else DigitRun(t)
  }

  function FracLength(t: Str): (n: nat)
    ensures n <= |t|
  {
    if |t| >= 2 && t[0] == DOT && IsDigit(t[1]) then 1 + |DigitRun(t[1..])| else 0
  }

  function ExpLength(t: Str): (n: nat)
    ensures n <= |t|
  {
    if |t| >= 2 && (t[0] == 0x65 || t[0] == 0x45) then
      var k := if t[1] == MINUS || t[1] == 0x2B then 2 else 1;
      var d := DigitRun(t[k..]);
      if d == [] then 0 else k + |d|
    else 0
  }

  function SignLength(t: Str): (n: nat)
    ensures n <= |t| && n <= 1
  {
    if t != [] && t[0] == MINUS then 1 else 0
  }

  /** Where the integer part of a number at the head of `t` ends, and where its fraction and exponent do. */
  function IntEnd(t: Str): (n: nat)
    ensures SignLength(t) <= n <= |t|
  {
    SignLength(t) + |IntPart(t[SignLength(t)..])|
  }

  function FracEnd(t: Str): (n: nat)
    ensures IntEnd(t) <= n <= |t|
  {
    IntEnd(t) + FracLength(t[IntEnd(t)..])
  }

  function NumberEnd(t: Str): (n: nat)
    ensures FracEnd(t) <= n <= |t|
  {
    FracEnd(t) + ExpLength(t[FracEnd(t)..])
  }

  /** A number token: an integer unless a fraction or an exponent follows. */
  function ScanNumber(t: Str): (r: Option<(Value, nat)>)
    ensures r.Some? ==> 1 <= r.value.1 <= |t|
  {
    var d := IntPart(t[SignLength(t)..]);
    if d == [] then None
    else if NumberEnd(t) == IntEnd(t) then
      Some((JInt(if SignLength(t) == 1 then -DigitsValue(d) else DigitsValue(d)), IntEnd(t)))
    else Some((JFloat(t[..NumberEnd(t)]), NumberEnd(t)))
  }

  const NULL: Str := Lit("null")
  const TRUE: Str := Lit("true")
  const FALSE: Str := Lit("false")
  const NAN: Str := Lit("NaN")
  const INFINITY: Str := Lit("Infinity")
  const MINUS_INFINITY: Str := Lit("-Infinity")

  /** The tokens that are one literal or one number. */
  function ScanAtom(t: Str): (r: Option<(Value, nat)>)
    ensures r.Some? ==> 1 <= r.value.1 <= |t|
  {
    if NULL <= t then Some((JNull, 4))
    else if TRUE <= t then Some((JBool(true), 4))
    else if FALSE <= t then Some((JBool(false), 5))
    else if NAN <= t then Some((JFloat(NAN), 3))
    else if INFINITY <= t then Some((JFloat(INFINITY), 8))
    else if MINUS_INFINITY <= t then Some((JFloat(MINUS_INFINITY), 9))
    else ScanNumber(t)
  }

  /** The texts a float can print as: those the scanner reads whole, as a float. */
  predicate IsFloatToken(token: Str) {
    ScanAtom(token) == Some((JFloat(token), |token|))
  }

  // ---------------------------------------------------------------- values

  predicate IsSpace(c: Char) {
    c == 0x20 || c == 0x09 || c == 0x0A || c == 0x0D
  }

  function SkipSpace(t: Str): (r: Str)
    ensures |r| <= |t|
  {
    if t != [] && IsSpace(t[0]) then SkipSpace(t[1..]) else t
  }

  predicate Starts(t: Str, c: Char) {
    t != [] && t[0] == c
  }

  function ParseValue(t: Str): (r: Option<(Value, Str)>)
    ensures r.Some? ==> |r.value.1| < |t|
    decreases |t|, 0
  {
    if Starts(t, QUOTE) then
      match ScanString(t[1..]) case None => None case Some((s, rest)) => Some((JStr(s), rest))
    else if Starts(t, 0x5B) then
      var u := SkipSpace(t[1..]);
      if Starts(u, 0x5D) then Some((JArr([]), u[1..]))
      else
        match ParseItems(u) case None => None case Some((items, rest)) => Some((JArr(items), rest))
    else if Starts(t, 0x7B) then
      var u := SkipSpace(t[1..]);
      if Starts(u, 0x7D) then Some((JObj([]), u[1..]))
      else
        match ParseMembers(u) case None => None case Some((members, rest)) => Some((JObj(members), rest))
    else
      match ScanAtom(t) case None => None case Some((v, n)) => Some((v, t[n..]))
  }

  /** One or more array items up to and including the closing bracket. */
  function ParseItems(t: Str): (r: Option<(seq<Value>, Str)>)
    ensures r.Some? ==> |r.value.1| < |t|
    decreases |t|, 1
  {
    match ParseValue(t)
    case None => None
    case Some((v, after)) =>
      var u := SkipSpace(after);
      if Starts(u, 0x5D) then Some(([v], u[1..]))
      else if Starts(u, COMMA) then
        match ParseItems(SkipSpace(u[1..]))
        case None => None
        case Some((vs, rest)) => Some(([v] + vs, rest))
      else None
  }

  /** A key, its colon and the text of its value. */
  function ParseKey(t: Str): (r: Option<(Str, Str)>)
    ensures r.Some? ==> |r.value.1| < |t|
  {
    if !Starts(t, QUOTE) then None
    else
      match ScanString(t[1..])
      case None => None
      case Some((key, after)) =>
        var u := SkipSpace(after);
        if Starts(u, COLON) then Some((key, SkipSpace(u[1..]))) else None
  }

  /** One or more object members up to and including the closing brace. */
  function ParseMembers(t: Str): (r: Option<(seq<Member>, Str)>)
    ensures r.Some? ==> |r.value.1| < |t|
    decreases |t|, 1
  {
    match ParseKey(t)
    case None => None
    case Some((key, text)) =>
      match ParseValue(text)
      case None => None
      case Some((v, after)) =>
        var u := SkipSpace(after);
        if Starts(u, 0x7D) then Some(([Member(key, v)], u[1..]))
        else if Starts(u, COMMA) then
          match ParseMembers(SkipSpace(u[1..]))
          case None => None
          case Some((ms, rest)) => Some(([Member(key, v)] + ms, rest))
        else None
  }

  /** `json.loads`; None is JSONDecodeError. */
  function Loads(t: Str): Option<Value> {
    match ParseValue(SkipSpace(t))
    case None => None
    case Some((v, rest)) => if SkipSpace(rest) == [] then Some(v) else None
  }

  /** `json.dumps(v, separators=(",", ":"))`. */
  function Dumps(v: Value): Str {
    match v
    case JNull => NULL
    case JBool(b) => if b then TRUE else FALSE
    case JInt(n) => PrintInt(n)
    case JFloat(token) => token
    case JStr(s) => Quoted(s)
    case JArr(items) => [0x5B] + (if items == [] then [] else DumpsItems(items)) + [0x5D]
    case JObj(members) => [0x7B] + (if members == [] then [] else DumpsMembers(members)) + [0x7D]
  }

  function DumpsItems(items: seq<Value>): Str
    requires items != []
  {
    Dumps(items[0]) + (if |items| == 1 then [] else [COMMA] + DumpsItems(items[1..]))
  }

  function DumpsMembers(members: seq<Member>): Str
    requires members != []
  {
    Quoted(members[0].key) + [COLON] + Dumps(members[0].value)
    + (if |members| == 1 then [] else [COMMA] + DumpsMembers(members[1..]))
  }

  /** `dict.get` on a parsed object: the last member with the key wins. */
  function Get(members: seq<Member>, key: Str): Option<Value> {
    if members == [] then None
    else if members[|members| - 1].key == key then Some(members[|members| - 1].value)
    else Get(members[..|members| - 1], key)
  }
}
