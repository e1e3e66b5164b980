/**
 `loads(dumps(v))`: every value comes back, with one exception that the code does have. Two separate surrogate code
 points that happen to form a pair are printed as two escapes and read as one character.
 */
module JsonRoundTrip {
  import opened Wrappers
  import opened Text
  import opened Json

  lemma TailOf(a: Str, b: Str)
    ensures (a + b)[|a|..] == b && (a + b)[..|a|] == a
  {
  }

  // ---------------------------------------------------------------- strings

  lemma HexDigits(n: int)
    requires 0 <= n < 0x10000
    ensures n == n / 0x1000 * 0x1000 + n / 0x100 % 0x10 * 0x100 + n / 0x10 % 0x10 * 0x10 + n % 0x10
    ensures 0 <= n / 0x1000 < 0x10
  {
    assert n / 0x100 == n / 0x1000 * 0x10 + n / 0x100 % 0x10;
    assert n / 0x10 == n / 0x100 * 0x10 + n / 0x10 % 0x10;
    assert n == n / 0x10 * 0x10 + n % 0x10;
  }

  lemma ScanUEscapeOfDigits(a: int, b: int, c: int, d: int, rest: Str)
    requires 0 <= a < 0x10 && 0 <= b < 0x10 && 0 <= c < 0x10 && 0 <= d < 0x10
    ensures ScanUEscape([BACKSLASH, LOWER_U, HexDigit(a), HexDigit(b), HexDigit(c), HexDigit(d)] + rest)
         == Some(a * 0x1000 + b * 0x100 + c * 0x10 + d)
  {
  }

  lemma ScanUEscapeOfUEscape(n: int, rest: Str)
    requires 0 <= n < 0x10000
    ensures ScanUEscape(UEscape(n) + rest) == Some(n)
  {
    HexDigits(n);
    ScanUEscapeOfDigits(n / 0x1000, n / 0x100 % 0x10, n / 0x10 % 0x10, n % 0x10, rest);
  }

  /** What the reader sees if it looks for a second escape where the text of `c` begins. */
  lemma ScanUEscapeOfEscapeChar(c: Char, rest: Str)
    ensures var r := ScanUEscape(EscapeChar(c) + rest);
            if IsLow(c) then r == Some(c) else r.Some? ==> !IsLow(r.value)
  {
    var t := EscapeChar(c) + rest;
    assert t[0] == EscapeChar(c)[0];
    if 0x10000 <= c {
      assert t == UEscape(HighPart(c)) + (UEscape(LowPart(c)) + rest);
      ScanUEscapeOfUEscape(HighPart(c), UEscape(LowPart(c)) + rest);
    } else if EscapeChar(c) == UEscape(c) {
      ScanUEscapeOfUEscape(c, rest);
    } else if |EscapeChar(c)| == 2 {
      assert t[1] == EscapeChar(c)[1] != LOWER_U;
    }
  }

  lemma ScanCharOfEscapeChar(c: Char, rest: Str)
    requires IsHigh(c) ==> ScanUEscape(rest).None? || !IsLow(ScanUEscape(rest).value)
    ensures ScanChar(EscapeChar(c) + rest) == Some((c, |EscapeChar(c)|))
  {
    var t := EscapeChar(c) + rest;
    assert forall i :: 0 <= i < |EscapeChar(c)| ==> t[i] == EscapeChar(c)[i];
    if 0x10000 <= c {
      ScanCharOfPair(HighPart(c), LowPart(c), rest);
      assert t == UEscape(HighPart(c)) + UEscape(LowPart(c)) + rest;
    } else if EscapeChar(c) == UEscape(c) {
      ScanUEscapeOfUEscape(c, rest);
      TailOf(UEscape(c), rest);
    }
  }

  lemma ScanCharOfPair(hi: Char, lo: Char, rest: Str)
    requires IsHigh(hi) && IsLow(lo)
    ensures ScanChar(UEscape(hi) + UEscape(lo) + rest) == Some((Join(hi, lo), 12))
  {
    var t := UEscape(hi) + UEscape(lo) + rest;
    var tail := UEscape(lo) + rest;
    assert t == UEscape(hi) + tail;
    ScanUEscapeOfUEscape(hi, tail);
    ScanUEscapeOfUEscape(lo, rest);
    TailOf(UEscape(hi), tail);
    assert t[0] == BACKSLASH && t[1] == LOWER_U;
  }

  lemma ScanStringStep(head: Str, c: Char, after: Str, s: Str, rest: Str)
    requires head != [] && head[0] != QUOTE
    requires ScanChar(head + after) == Some((c, |head|))
    requires ScanString(after) == Some((s, rest))
    ensures ScanString(head + after) == Some(([c] + s, rest))
  {
    TailOf(head, after);
    assert (head + after)[0] == head[0];
  }

  lemma {:induction false} ScanStringOfEscapeAll(s: Str, rest: Str)
    ensures ScanString(EscapeAll(s) + ([QUOTE] + rest)) == Some((MergePairs(s), rest))
  {
    var close := [QUOTE] + rest;
    if s == [] {
      assert EscapeAll(s) + close == close;
      TailOf([QUOTE], rest);
    } else if PairAt(s, 0) {
      var last := EscapeAll(s[2..]) + close;
      assert s[1..][1..] == s[2..];
      assert EscapeAll(s[1..]) == UEscape(s[1]) + EscapeAll(s[2..]);
      assert EscapeAll(s) + close == UEscape(s[0]) + UEscape(s[1]) + last;
      ScanCharOfPair(s[0], s[1], last);
      ScanStringOfEscapeAll(s[2..], rest);
      ScanStringStep(UEscape(s[0]) + UEscape(s[1]), Join(s[0], s[1]), last, MergePairs(s[2..]), rest);
    } else {
      var after := EscapeAll(s[1..]) + close;
      assert EscapeAll(s) + close == EscapeChar(s[0]) + after;
      LookAhead(s[1..], rest);
      ScanCharOfEscapeChar(s[0], after);
      ScanStringOfEscapeAll(s[1..], rest);
      ScanStringStep(EscapeChar(s[0]), s[0], after, MergePairs(s[1..]), rest);
    }
  }

  /** The reader finds a low escape at the head of an escaped string just when the string begins with a low surrogate. */
  lemma LookAhead(s: Str, rest: Str)
    ensures var r := ScanUEscape(EscapeAll(s) + ([QUOTE] + rest));
            r.Some? && IsLow(r.value) <==> s != [] && IsLow(s[0])
  {
    var close := [QUOTE] + rest;
    if s == [] {
      assert (EscapeAll(s) + close)[0] == QUOTE;
    } else {
      assert EscapeAll(s) + close == EscapeChar(s[0]) + (EscapeAll(s[1..]) + close);
      ScanUEscapeOfEscapeChar(s[0], EscapeAll(s[1..]) + close);
    }
  }

  // ---------------------------------------------------------------- numbers

  /** Text at which no number can go on. */
  predicate EndsNumber(rest: Str) {
    rest == [] || (!IsDigit(rest[0]) && rest[0] !in {DOT, MINUS, 0x2B, 0x65, 0x45})
  }

  lemma {:induction false} DigitRunAppend(t: Str, rest: Str)
    requires rest == [] || !IsDigit(rest[0])
    ensures DigitRun(t + rest) == DigitRun(t)
  {
    if t == [] {
      assert t + rest == rest;
    } else if IsDigit(t[0]) {
      assert (t + rest)[1..] == t[1..] + rest;
      DigitRunAppend(t[1..], rest);
    }
  }

  lemma {:induction false} DigitRunOfDigits(d: Str)
    requires forall i :: 0 <= i < |d| ==> IsDigit(d[i])
    ensures DigitRun(d) == d
  {
    if d != [] {
      assert IsDigit(d[0]);
      DigitRunOfDigits(d[1..]);
    }
  }

  lemma NumberPartsAppend(t: Str, rest: Str)
    requires EndsNumber(rest)
    ensures IntPart(t + rest) == IntPart(t)
    ensures FracLength(t + rest) == FracLength(t)
    ensures ExpLength(t + rest) == ExpLength(t)
  {
    DigitRunAppend(t, rest);
    if t == [] {
      assert t + rest == rest;
    } else {
      assert (t + rest)[0] == t[0];
      assert (t + rest)[1..] == t[1..] + rest;
      DigitRunAppend(t[1..], rest);
      if |t| >= 2 {
        assert (t + rest)[1] == t[1];
        assert (t + rest)[2..] == t[2..] + rest;
        DigitRunAppend(t[2..], rest);
      }
    }
  }

  lemma IntEndAppend(t: Str, rest: Str)
    requires t != [] && EndsNumber(rest)
    ensures SignLength(t + rest) == SignLength(t) && IntEnd(t + rest) == IntEnd(t)
    ensures IntPart((t + rest)[SignLength(t)..]) == IntPart(t[SignLength(t)..])
  {
    assert (t + rest)[0] == t[0];
    DropAppend(t, rest, SignLength(t));
    NumberPartsAppend(t[SignLength(t)..], rest);
  }

  lemma FracEndAppend(t: Str, rest: Str)
    requires t != [] && EndsNumber(rest)
    ensures FracEnd(t + rest) == FracEnd(t)
  {
    IntEndAppend(t, rest);
    DropAppend(t, rest, IntEnd(t));
    NumberPartsAppend(t[IntEnd(t)..], rest);
  }

  lemma NumberEndAppend(t: Str, rest: Str)
    requires t != [] && EndsNumber(rest)
    ensures NumberEnd(t + rest) == NumberEnd(t)
  {
    FracEndAppend(t, rest);
    DropAppend(t, rest, FracEnd(t));
    NumberPartsAppend(t[FracEnd(t)..], rest);
  }

  lemma DropAppend(t: Str, rest: Str, k: nat)
    requires k <= |t|
    ensures (t + rest)[k..] == t[k..] + rest && (t + rest)[..k] == t[..k]
  {
  }

  lemma ScanNumberAppend(t: Str, rest: Str)
    requires EndsNumber(rest) && ScanNumber(t).Some?
    ensures ScanNumber(t + rest) == ScanNumber(t)
  {
    IntEndAppend(t, rest);
    NumberEndAppend(t, rest);
    DropAppend(t, rest, NumberEnd(t));
  }

  lemma {:induction false} DigitsValueOfPrintNat(n: nat)
    ensures DigitsValue(PrintNat(n)) == n
  {
    if n < 10 {
      assert PrintNat(n)[..0] == [];
      assert DigitsValue(PrintNat(n)[..0]) == 0;
    } else {
      DigitsValueOfPrintNat(n / 10);
      assert PrintNat(n)[..|PrintNat(n)| - 1] == PrintNat(n / 10);
    }
  }

  lemma NumberEndOfDigits(t: Str, d: Str)
    requires t[SignLength(t)..] == d && d != [] && forall i :: 0 <= i < |d| ==> IsDigit(d[i])
    requires d[0] == 0x30 ==> |d| == 1
    ensures IntPart(t[SignLength(t)..]) == d && NumberEnd(t) == IntEnd(t) == |t|
  {
    DigitRunOfDigits(d);
    assert IntPart(d) == d;
    assert t[|t|..] == [];
  }

  lemma ScanNumberOfPrintInt(n: int)
    ensures ScanNumber(PrintInt(n)) == Some((JInt(n), |PrintInt(n)|))
  {
    var d := PrintNat(if n < 0 then -n else n);
    assert IsDigit(d[0]);
    assert PrintInt(n)[SignLength(PrintInt(n))..] == d;
    NumberEndOfDigits(PrintInt(n), d);
    DigitsValueOfPrintNat(if n < 0 then -n else n);
  }

  /** A number begins with a digit, or with a minus sign and a digit; so no literal can be a prefix of it. */
  lemma NumberHead(t: Str)
    requires ScanNumber(t).Some?
    ensures IsDigit(t[0]) || (t[0] == MINUS && |t| >= 2 && IsDigit(t[1]))
    ensures ScanAtom(t) == ScanNumber(t)
  {
    var k := SignLength(t);
    var ip := IntPart(t[k..]);
    assert ip <= t[k..] && IsDigit(ip[0]);
    assert t[k] == t[k..][0] == ip[0];
    LiteralHeads();
  }

  lemma LiteralHeads()
    ensures NULL[0] == 0x6E && TRUE[0] == 0x74 && FALSE[0] == 0x66
    ensures NAN[0] == 0x4E && INFINITY[0] == 0x49 && MINUS_INFINITY[0] == MINUS && MINUS_INFINITY[1] == 0x49
    ensures |NULL| == 4 && |TRUE| == 4 && |FALSE| == 5 && |NAN| == 3 && |INFINITY| == 8 && |MINUS_INFINITY| == 9
  {
    assert "null"[0] == 'n' && "true"[0] == 't' && "false"[0] == 'f';
    assert "NaN"[0] == 'N' && "Infinity"[0] == 'I' && "-Infinity"[0] == '-' && "-Infinity"[1] == 'I';
  }

  lemma ScanAtomOfLiteral(a: Str, rest: Str)
    requires a in {NULL, TRUE, FALSE, NAN, INFINITY, MINUS_INFINITY}
    ensures ScanAtom(a + rest) == ScanAtom(a)
    ensures ScanAtom(a) == Some((if a == NULL then JNull else if a == TRUE then JBool(true) else if a == FALSE
                                 then JBool(false) else JFloat(a), |a|))
  {
    LiteralHeads();
    assert (a + rest)[0] == a[0];
    assert a <= a + rest;
  }

  lemma ScanAtomOfNumber(a: Str, rest: Str)
    requires EndsNumber(rest) && ScanNumber(a).Some?
    ensures ScanAtom(a + rest) == ScanNumber(a)
  {
    ScanNumberAppend(a, rest);
    NumberHead(a + rest);
  }

  lemma ScanAtomOfFloat(token: Str, rest: Str)
    requires EndsNumber(rest) && IsFloatToken(token)
    ensures ScanAtom(token + rest) == Some((JFloat(token), |token|))
  {
    if token in {NAN, INFINITY, MINUS_INFINITY} {
      ScanAtomOfLiteral(token, rest);
    } else {
      assert ScanAtom(token) == ScanNumber(token);
      ScanAtomOfNumber(token, rest);
    }
  }

  // ---------------------------------------------------------------- values

  ghost predicate FloatsOk(v: Value) {
    match v
    case JFloat(token) => IsFloatToken(token)
    case JArr(items) => forall i :: 0 <= i < |items| ==> FloatsOk(items[i])
    case JObj(members) => forall i :: 0 <= i < |members| ==> FloatsOk(members[i].value)
    case _ => true
  }

  /** `v` with the surrogate pairs of every string in it fused. */
  function MergeValue(v: Value): Value {
    match v
    case JStr(s) => JStr(MergePairs(s))
    case JArr(items) => JArr(MergeItems(items))
    case JObj(members) => JObj(MergeMembers(members))
    case _ => v
  }

  function MergeItems(items: seq<Value>): seq<Value> {
    if items == [] then [] else [MergeValue(items[0])] + MergeItems(items[1..])
  }

  function MergeMembers(members: seq<Member>): seq<Member> {
    if members == [] then []
    else [Member(MergePairs(members[0].key), MergeValue(members[0].value))] + MergeMembers(members[1..])
  }

  /** Printed values begin with a character that neither whitespace skipping nor an empty container swallows. */
  lemma DumpsHead(v: Value)
    requires FloatsOk(v)
    ensures Dumps(v) != [] && !IsSpace(Dumps(v)[0]) && Dumps(v)[0] !in {0x5D, 0x7D}
    ensures v.JStr? || v.JArr? || v.JObj? || Dumps(v)[0] !in {QUOTE, 0x5B, 0x7B}
  {
    LiteralHeads();
    match v
    case JInt(n) =>
      ScanNumberOfPrintInt(n);
      NumberHead(PrintInt(n));
    case JFloat(token) =>
      if token !in {NAN, INFINITY, MINUS_INFINITY} {
        assert ScanAtom(token) == ScanNumber(token);
        NumberHead(token);
      }
    case _ =>
  }

  lemma {:induction false} ParseOfDumps(v: Value, rest: Str)
    requires FloatsOk(v) && EndsNumber(rest)
    ensures ParseValue(Dumps(v) + rest) == Some((MergeValue(v), rest))
    decreases v, 1
  {
    match v
    case JStr(s) =>
      var body := EscapeAll(s) + ([QUOTE] + rest);
      assert Dumps(v) + rest == [QUOTE] + body;
      TailOf([QUOTE], body);
      ScanStringOfEscapeAll(s, rest);
    case JArr(items) => ParseOfDumpsArray(items, rest);
    case JObj(members) => ParseOfDumpsObject(members, rest);
    case _ => ParseOfDumpsAtom(v, rest);
  }

  lemma ParseOfDumpsAtom(v: Value, rest: Str)
    requires v.JNull? || v.JBool? || v.JInt? || v.JFloat?
    requires FloatsOk(v) && EndsNumber(rest)
    ensures ParseValue(Dumps(v) + rest) == Some((v, rest))
  {
    var t := Dumps(v) + rest;
    DumpsHead(v);
    assert t[0] == Dumps(v)[0];
    TailOf(Dumps(v), rest);
    match v
    case JNull => ScanAtomOfLiteral(NULL, rest);
    case JBool(b) => ScanAtomOfLiteral(Dumps(v), rest); LiteralHeads();
    case JInt(n) => ScanNumberOfPrintInt(n); ScanAtomOfNumber(PrintInt(n), rest);
    case JFloat(token) => ScanAtomOfFloat(token, rest);
  }

  lemma {:induction false} ParseOfDumpsArray(items: seq<Value>, rest: Str)
    requires FloatsOk(JArr(items))
    ensures ParseValue(Dumps(JArr(items)) + rest) == Some((JArr(MergeItems(items)), rest))
    decreases items, 1
  {
    var t := Dumps(JArr(items)) + rest;
    if items == [] {
      assert t == [0x5B] + ([0x5D] + rest);
      TailOf([0x5B], [0x5D] + rest);
      TailOf([0x5D], rest);
    } else {
      var body := DumpsItems(items) + ([0x5D] + rest);
      assert t == [0x5B] + body;
      TailOf([0x5B], body);
      DumpsItemsText(items, [0x5D] + rest);
      ParseOfDumpsItems(items, rest);
    }
  }

  lemma ParseItemsStep(t: Str, v: Value, u: Str)
    requires ParseValue(t) == Some((v, u))
    requires u != []
    requires u[0] == COMMA ==> |u| >= 2 && !IsSpace(u[1]) && ParseItems(u[1..]).Some?
    ensures u[0] == 0x5D ==> ParseItems(t) == Some(([v], u[1..]))
    ensures u[0] == COMMA ==>
              ParseItems(t) == Some(([v] + ParseItems(u[1..]).value.0, ParseItems(u[1..]).value.1))
  {
  }

  lemma DumpsItemsText(items: seq<Value>, close: Str)
    requires items != [] && FloatsOk(items[0])
    ensures var more := items[1..];
            var after := if more == [] then close else [COMMA] + (DumpsItems(more) + close);
            DumpsItems(items) + close == Dumps(items[0]) + after
    ensures var t := DumpsItems(items) + close; t != [] && !IsSpace(t[0]) && t[0] != 0x5D
  {
    DumpsHead(items[0]);
  }

  lemma {:induction false} ParseOfDumpsItems(items: seq<Value>, rest: Str)
    requires items != [] && FloatsOk(JArr(items))
    ensures ParseItems(DumpsItems(items) + ([0x5D] + rest)) == Some((MergeItems(items), rest))
    decreases items, 0
  {
    var v, more, close := items[0], items[1..], [0x5D] + rest;
    var t := DumpsItems(items) + close;
    DumpsItemsText(items, close);
    if more == [] {
      ParseOfDumps(v, close);
      TailOf([0x5D], rest);
      ParseItemsStep(t, MergeValue(v), close);
      assert MergeItems(items) == [MergeValue(v)];
    } else {
      assert FloatsOk(more[0]) && FloatsOk(JArr(more)) by {
        assert forall i :: 0 <= i < |more| ==> more[i] == items[i + 1];
      }
      var body := DumpsItems(more) + close;
      DumpsItemsText(more, close);
      ParseOfDumpsItems(more, rest);
      ParseOfDumps(v, [COMMA] + body);
      TailOf([COMMA], body);
      ParseItemsStep(t, MergeValue(v), [COMMA] + body);
    }
  }

  lemma ParseObjectStep(body: Str, members: seq<Member>, rest: Str)
    requires body != [] && body[0] == QUOTE && ParseMembers(body) == Some((members, rest))
    ensures ParseValue([0x7B] + body) == Some((JObj(members), rest))
  {
    TailOf([0x7B], body);
  }

  lemma {:induction false} ParseOfDumpsObject(members: seq<Member>, rest: Str)
    requires FloatsOk(JObj(members))
    ensures ParseValue(Dumps(JObj(members)) + rest) == Some((JObj(MergeMembers(members)), rest))
    decreases members, 1
  {
    var t := Dumps(JObj(members)) + rest;
    if members == [] {
      assert t == [0x7B] + ([0x7D] + rest);
      TailOf([0x7B], [0x7D] + rest);
      TailOf([0x7D], rest);
    } else {
      var body := DumpsMembers(members) + ([0x7D] + rest);
      assert t == [0x7B] + body;
      assert body[0] == QUOTE;
      ParseOfDumpsMembers(members, rest);
      ParseObjectStep(body, MergeMembers(members), rest);
    }
  }

  lemma ParseKeyOfDumps(key: Str, text: Str)
    requires text != [] && !IsSpace(text[0])
    ensures ParseKey(Quoted(key) + ([COLON] + text)) == Some((MergePairs(key), text))
  {
    var after := [COLON] + text;
    var body := EscapeAll(key) + ([QUOTE] + after);
    ScanStringOfEscapeAll(key, after);
    assert Quoted(key) + after == [QUOTE] + body;
    ParseKeyStep(body, MergePairs(key), text);
  }

  lemma ParseKeyStep(body: Str, key: Str, text: Str)
    requires text != [] && !IsSpace(text[0])
    requires ScanString(body) == Some((key, [COLON] + text))
    ensures ParseKey([QUOTE] + body) == Some((key, text))
  {
    TailOf([QUOTE], body);
    TailOf([COLON], text);
  }

  lemma ParseMembersStep(t: Str, text: Str, m: Member, u: Str)
    requires ParseKey(t) == Some((m.key, text)) && ParseValue(text) == Some((m.value, u))
    requires u != []
    requires u[0] == COMMA ==> |u| >= 2 && !IsSpace(u[1]) && ParseMembers(u[1..]).Some?
    ensures u[0] == 0x7D ==> ParseMembers(t) == Some(([m], u[1..]))
    ensures u[0] == COMMA ==>
              ParseMembers(t) == Some(([m] + ParseMembers(u[1..]).value.0, ParseMembers(u[1..]).value.1))
  {
  }

  /** The first member, read up to whatever follows it. */
  lemma {:induction false} ParseOfDumpsMember(m: Member, after: Str)
    requires FloatsOk(m.value) && EndsNumber(after)
    ensures var text := Dumps(m.value) + after;
            ParseKey(Quoted(m.key) + ([COLON] + text)) == Some((MergePairs(m.key), text))
            && ParseValue(text) == Some((MergeValue(m.value), after))
    decreases m, 1
  {
    DumpsHead(m.value);
    ParseKeyOfDumps(m.key, Dumps(m.value) + after);
    ParseOfDumps(m.value, after);
  }

  lemma DumpsMembersText(members: seq<Member>, close: Str)
    requires members != []
    ensures var m, more := members[0], members[1..];
            var after := if more == [] then close else [COMMA] + (DumpsMembers(more) + close);
            DumpsMembers(members) + close == Quoted(m.key) + ([COLON] + (Dumps(m.value) + after))
  {
  }

  lemma {:induction false} ParseOfDumpsMembers(members: seq<Member>, rest: Str)
    requires members != [] && FloatsOk(JObj(members))
    ensures ParseMembers(DumpsMembers(members) + ([0x7D] + rest)) == Some((MergeMembers(members), rest))
    decreases members, 0
  {
    var m, more, close := members[0], members[1..], [0x7D] + rest;
    var t, merged := DumpsMembers(members) + close, Member(MergePairs(m.key), MergeValue(m.value));
    DumpsMembersText(members, close);
    if more == [] {
      ParseOfDumpsMember(m, close);
      TailOf([0x7D], rest);
      ParseMembersStep(t, Dumps(m.value) + close, merged, close);
      assert MergeMembers(members) == [merged];
    } else {
      var body := DumpsMembers(more) + close;
      var after := [COMMA] + body;
      ParseOfDumpsMember(m, after);
      TailOf([COMMA], body);
      assert body[0] == QUOTE;
      assert FloatsOk(JObj(more)) by { assert forall i :: 0 <= i < |more| ==> more[i] == members[i + 1]; }
      ParseOfDumpsMembers(more, rest);
      ParseMembersStep(t, Dumps(m.value) + after, merged, after);
    }
  }

  /** Reading what was printed gives the value back, with the pairs in its strings fused: for every JSON value. */
  lemma LoadsOfDumps(v: Value)
    requires FloatsOk(v)
    ensures Loads(Dumps(v)) == Some(MergeValue(v))
  {
    ParseOfDumps(v, []);
    assert Dumps(v) + [] == Dumps(v);
    DumpsHead(v);
  }

  /** Nothing but white space may follow a value. */
  lemma NothingFollows(v: Value, rest: Str)
    requires FloatsOk(v) && EndsNumber(rest)
    ensures Loads(Dumps(v) + rest)
         == if forall i :: 0 <= i < |rest| ==> rest[i] in {0x20, 0x09, 0x0A, 0x0D} then Some(MergeValue(v)) else None
  {
    ParseOfDumps(v, rest);
    DumpsHead(v);
    assert (Dumps(v) + rest)[0] == Dumps(v)[0];
    SkipsAll(rest);
  }

  lemma {:induction false} SkipsAll(t: Str)
    ensures SkipSpace(t) == [] <==> forall i :: 0 <= i < |t| ==> IsSpace(t[i])
  {
    if t != [] && IsSpace(t[0]) {
      SkipsAll(t[1..]);
      assert t == [t[0]] + t[1..];
    }
  }

  /** A string survives the trip through JSON text if and only if it holds no separate surrogate pair. */
  lemma StringRoundTrip(s: Str)
    ensures Loads(Dumps(JStr(s))) == Some(JStr(s)) <==> !HasPair(s)
  {
    LoadsOfDumps(JStr(s));
    MergePairsFixed(s);
  }

  // ---------------------------------------------------------------- printable output

  predicate Printable(t: Str) {
    forall i :: 0 <= i < |t| ==> 0x20 <= t[i] <= 0x7E
  }

  lemma {:induction false} EscapeAllPrintable(s: Str)
    ensures Printable(EscapeAll(s))
  {
    if s != [] {
      EscapeAllPrintable(s[1..]);
      assert Printable(EscapeChar(s[0]));
    }
  }

  lemma FracPrintable(t: Str)
    ensures Printable(t[..FracLength(t)])
  {
    if FracLength(t) > 0 {
      assert t[..FracLength(t)] == [DOT] + DigitRun(t[1..]);
    }
  }

  lemma ExpPrintable(t: Str)
    ensures Printable(t[..ExpLength(t)])
  {
    if ExpLength(t) > 0 {
      var j := if t[1] == MINUS || t[1] == 0x2B then 2 else 1;
      assert t[..ExpLength(t)] == t[..j] + DigitRun(t[j..]);
    }
  }

  lemma NumberPrintable(t: Str)
    ensures Printable(t[..NumberEnd(t)])
  {
    var k, i, f, e := SignLength(t), IntEnd(t), FracEnd(t), NumberEnd(t);
    FracPrintable(t[i..]);
    ExpPrintable(t[f..]);
    PrintableParts(t, k, i);
    PrintableParts(t, i, f);
    PrintableParts(t, f, e);
  }

  lemma PrintableParts(t: Str, i: nat, j: nat)
    requires i <= j <= |t| && Printable(t[..i]) && Printable(t[i..][..j - i])
    ensures Printable(t[..j])
  {
    assert t[..j] == t[..i] + t[i..][..j - i];
  }

  lemma AtomPrintable(v: Value)
    requires v.JNull? || v.JBool? || v.JInt? || v.JFloat?
    requires FloatsOk(v)
    ensures Printable(Dumps(v))
  {
    match v
    case JInt(n) =>
      ScanNumberOfPrintInt(n);
      NumberPrintable(PrintInt(n));
      assert PrintInt(n)[..|PrintInt(n)|] == PrintInt(n);
    case JFloat(token) =>
      if token !in {NAN, INFINITY, MINUS_INFINITY} {
        assert ScanAtom(token) == ScanNumber(token);
        NumberPrintable(token);
        assert token[..|token|] == token;
      }
    case _ =>
  }

  /** `ensure_ascii` at work: output never holds a control character, so never a newline, nor anything past ASCII. */
  lemma {:induction false} DumpsPrintable(v: Value)
    requires FloatsOk(v)
    ensures Printable(Dumps(v))
    decreases v, 1
  {
    match v
    case JStr(s) => EscapeAllPrintable(s);
    case JArr(items) => if items != [] { DumpsItemsPrintable(items); }
    case JObj(members) => if members != [] { DumpsMembersPrintable(members); }
    case _ => AtomPrintable(v);
  }

  lemma {:induction false} DumpsItemsPrintable(items: seq<Value>)
    requires items != [] && FloatsOk(JArr(items))
    ensures Printable(DumpsItems(items))
    decreases items, 0
  {
    DumpsPrintable(items[0]);
    if |items| > 1 {
      assert FloatsOk(JArr(items[1..])) by { assert forall i :: 0 <= i < |items| - 1 ==> items[1..][i] == items[i + 1]; }
      DumpsItemsPrintable(items[1..]);
    }
  }

  lemma {:induction false} DumpsMembersPrintable(members: seq<Member>)
    requires members != [] && FloatsOk(JObj(members))
    ensures Printable(DumpsMembers(members))
    decreases members, 0
  {
    EscapeAllPrintable(members[0].key);
    DumpsPrintable(members[0].value);
    if |members| > 1 {
      assert FloatsOk(JObj(members[1..])) by {
        assert forall i :: 0 <= i < |members| - 1 ==> members[1..][i] == members[i + 1];
      }
      DumpsMembersPrintable(members[1..]);
    }
  }
}
