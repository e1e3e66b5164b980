/**
 UTF-8 (section 4 of RFC 3629) as CPython's codec runs it: the strict form, used for frame headers, and the
 `surrogateescape` form, which lets undecodable octets travel as U+DC80..U+DCFF.
 */
module Utf8 {
  import opened Wrappers
  import opened Text

  function EncodeChar(c: Char): (b: Bytes)
    requires !IsSurrogate(c)
    ensures 1 <= |b| <= 4
  {
    if c < 0x80 then [c]
    else if c < 0x800 then [0xC0 + c / 0x40, 0x80 + c % 0x40]
    else if c < 0x10000 then [0xE0 + c / 0x1000, 0x80 + c / 0x40 % 0x40, 0x80 + c % 0x40]
    else [0xF0 + c / 0x40000, 0x80 + c / 0x1000 % 0x40, 0x80 + c / 0x40 % 0x40, 0x80 + c % 0x40]
  }

  predicate IsTail(b: Byte) {
    0x80 <= b <= 0xBF
  }

  function TailBits(b: Byte): (n: int)
    requires IsTail(b)
    ensures 0 <= n < 0x40
  {
    b as int - 0x80
  }

  /** The character at the head of `b` with the number of octets it takes, or None where the codec reports an error. */
  function DecodeFirst(b: Bytes): (r: Option<(Char, nat)>)
    requires b != []
    ensures r.Some? ==> 1 <= r.value.1 <= |b| && !IsSurrogate(r.value.0)
    ensures r.None? ==> 0x80 <= b[0]
  {
    var b0: int := b[0];
    if b0 < 0x80 then Some((b0, 1))
    else if 0xC2 <= b0 <= 0xDF && |b| >= 2 && IsTail(b[1]) then
      Some(((b0 - 0xC0) * 0x40 + TailBits(b[1]), 2))
    else if 0xE0 <= b0 <= 0xEF && |b| >= 3 && IsTail(b[1]) && IsTail(b[2])
            && (b0 == 0xE0 ==> 0xA0 <= b[1]) && (b0 == 0xED ==> b[1] <= 0x9F) then
      Some(((b0 - 0xE0) * 0x1000 + TailBits(b[1]) * 0x40 + TailBits(b[2]), 3))
    else if 0xF0 <= b0 <= 0xF4 && |b| >= 4 && IsTail(b[1]) && IsTail(b[2]) && IsTail(b[3])
            && (b0 == 0xF0 ==> 0x90 <= b[1]) && (b0 == 0xF4 ==> b[1] <= 0x8F) then
      Some(((b0 - 0xF0) * 0x40000 + TailBits(b[1]) * 0x1000 + TailBits(b[2]) * 0x40 + TailBits(b[3]), 4))
    else None
  }

  /** `bytes.decode("utf-8")`; None is UnicodeDecodeError. */
  function Decode(b: Bytes): Option<Str> {
    if b == [] then Some([])
    else
      match DecodeFirst(b)
      case None => None
      case Some((c, n)) =>
        match Decode(b[n..])
        case None => None
        case Some(s) => Some([c] + s)
  }

  /** `str.encode("utf-8")`; None is UnicodeEncodeError. */
  function Encode(s: Str): Option<Bytes> {
    if s == [] then Some([])
    else if IsSurrogate(s[0]) then None
    else
      match Encode(s[1..])
      case None => None
      case Some(b) => Some(EncodeChar(s[0]) + b)
  }

  /** `bytes.decode("utf-8", errors="surrogateescape")`. */
  function DecodeEscape(b: Bytes): Str {
    if b == [] then []
    else
      match DecodeFirst(b)
      case None => [0xDC00 + b[0] as int] + DecodeEscape(b[1..])
      case Some((c, n)) => [c] + DecodeEscape(b[n..])
  }

  /** `str.encode("utf-8", errors="surrogateescape")`; None is UnicodeEncodeError. */
  function EncodeEscape(s: Str): Option<Bytes> {
    if s == [] then Some([])
    else if IsSurrogate(s[0]) && !(0xDC80 <= s[0] <= 0xDCFF) then None
    else
      match EncodeEscape(s[1..])
      case None => None
      case Some(b) => Some((if IsSurrogate(s[0]) then [s[0] - 0xDC00] else EncodeChar(s[0])) + b)
  }

  /** Base-64 digits: the arithmetic that both directions of the codec rest on. */
  lemma Digits2(y: int, x: int)
    requires 0 <= x < 0x40
    ensures (y * 0x40 + x) / 0x40 == y && (y * 0x40 + x) % 0x40 == x
  {
  }

  lemma Digits3(z: int, y: int, x: int)
    requires 0 <= y < 0x40 && 0 <= x < 0x40
    ensures var c := z * 0x1000 + y * 0x40 + x;
            c / 0x1000 == z && c / 0x40 == z * 0x40 + y && c / 0x40 % 0x40 == y && c % 0x40 == x
  {
    var c := z * 0x1000 + y * 0x40 + x;
    assert c == (z * 0x40 + y) * 0x40 + x;
    Digits2(z * 0x40 + y, x);
    Digits2(z, y);
  }

  lemma Digits4(u: int, z: int, y: int, x: int)
    requires 0 <= z < 0x40 && 0 <= y < 0x40 && 0 <= x < 0x40
    ensures var c := u * 0x40000 + z * 0x1000 + y * 0x40 + x;
            c / 0x40000 == u && c / 0x1000 % 0x40 == z && c / 0x40 % 0x40 == y && c % 0x40 == x
  {
    var c := u * 0x40000 + z * 0x1000 + y * 0x40 + x;
    assert c == (u * 0x40 + z) * 0x1000 + y * 0x40 + x;
    Digits3(u * 0x40 + z, y, x);
    Digits2(u, z);
  }

  /** What the decoder accepts at the head of `b` is exactly the encoding of the character it returns. */
  lemma EncodeCharOfDecodeFirst(b: Bytes)
    requires b != [] && DecodeFirst(b).Some?
    ensures var (c, n) := DecodeFirst(b).value; EncodeChar(c) == b[..n]
  {
    var (c, n) := DecodeFirst(b).value;
    if n == 2 {
      Digits2(b[0] as int - 0xC0, TailBits(b[1]));
    } else if n == 3 {
      Digits3(b[0] as int - 0xE0, TailBits(b[1]), TailBits(b[2]));
    } else if n == 4 {
      Digits4(b[0] as int - 0xF0, TailBits(b[1]), TailBits(b[2]), TailBits(b[3]));
    }
  }

  /** Overlong forms, surrogates and values past U+10FFFF are the only things the decoder's range checks shut out. */
  lemma DecodeFirstOfEncodeChar(c: Char, rest: Bytes)
    requires !IsSurrogate(c)
    ensures DecodeFirst(EncodeChar(c) + rest) == Some((c, |EncodeChar(c)|))
  {
    var e := EncodeChar(c);
    var b := e + rest;
    assert forall i :: 0 <= i < |e| ==> b[i] == e[i];
    var c: int := c;
    var x, y, z := c % 0x40, c / 0x40 % 0x40, c / 0x1000 % 0x40;
    assert c / 0x1000 == c / 0x40 / 0x40 && c / 0x40000 == c / 0x1000 / 0x40;
    assert c == c / 0x40 * 0x40 + x && c / 0x40 == c / 0x1000 * 0x40 + y && c / 0x1000 == c / 0x40000 * 0x40 + z;
    if 0x800 <= c < 0x10000 {
      assert IsTail(b[1]) && IsTail(b[2]) && TailBits(b[1]) == y && TailBits(b[2]) == x;
    } else if 0x10000 <= c {
      assert IsTail(b[1]) && IsTail(b[2]) && IsTail(b[3]);
      assert TailBits(b[1]) == z && TailBits(b[2]) == y && TailBits(b[3]) == x;
    }
  }

  /** The strict codec loses nothing: what it encodes it decodes, for every string of scalar values. */
  lemma {:induction false} DecodeOfEncode(s: Str)
    requires forall i :: 0 <= i < |s| ==> !IsSurrogate(s[i])
    ensures Encode(s).Some? && Decode(Encode(s).value) == Some(s)
  {
    if s != [] {
      DecodeOfEncode(s[1..]);
      var tail := Encode(s[1..]).value;
      DecodeFirstOfEncodeChar(s[0], tail);
      assert Encode(s) == Some(EncodeChar(s[0]) + tail);
      assert (EncodeChar(s[0]) + tail)[|EncodeChar(s[0])|..] == tail;
      assert [s[0]] + s[1..] == s;
    }
  }

  /** The decoder fails on the head of `b` only when no character's encoding begins there. */
  lemma DecodeFirstComplete(b: Bytes)
    requires b != []
    ensures DecodeFirst(b).Some? <==> exists c: Char :: !IsSurrogate(c) && EncodeChar(c) <= b
  {
    if DecodeFirst(b).Some? {
      EncodeCharOfDecodeFirst(b);
    }
    forall c: Char | !IsSurrogate(c) && EncodeChar(c) <= b ensures DecodeFirst(b).Some? {
      DecodeFirstOfEncodeChar(c, b[|EncodeChar(c)|..]);
      assert EncodeChar(c) + b[|EncodeChar(c)|..] == b;
    }
  }

  lemma {:induction false} EncodeOfAscii(s: Str)
    requires IsAscii(s)
    ensures Encode(s) == Some(s)
  {
    if s != [] {
      EncodeOfAscii(s[1..]);
      assert s == EncodeChar(s[0]) + s[1..];
    }
  }

  /** `surrogateescape` is lossless: any octets at all, valid UTF-8 or not, come back from the text they decode to. */
  lemma {:induction false} EncodeEscapeOfDecodeEscape(b: Bytes)
    ensures EncodeEscape(DecodeEscape(b)) == Some(b)
  {
    if b != [] {
      match DecodeFirst(b)
      case None =>
        EncodeEscapeOfDecodeEscape(b[1..]);
        var t := DecodeEscape(b[1..]);
        assert ([0xDC00 + b[0] as int] + t)[1..] == t;
        assert [b[0]] + b[1..] == b;
      case Some((c, n)) =>
        EncodeEscapeOfDecodeEscape(b[n..]);
        var t := DecodeEscape(b[n..]);
        assert ([c] + t)[1..] == t;
        EncodeCharOfDecodeFirst(b);
        assert EncodeChar(c) + b[n..] == b[..n] + b[n..] == b;
    }
  }

  /** Escaped octets are low surrogates, so decoded text never holds a high one and cannot form a pair. */
  lemma {:induction false} DecodeEscapeHasNoPair(b: Bytes)
    ensures forall i :: 0 <= i < |DecodeEscape(b)| ==> !IsHigh(DecodeEscape(b)[i])
    ensures !HasPair(DecodeEscape(b))
  {
    if b != [] {
      match DecodeFirst(b)
      case None => DecodeEscapeHasNoPair(b[1..]);
      case Some((c, n)) => DecodeEscapeHasNoPair(b[n..]);
    }
  }
}
