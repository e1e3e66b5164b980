/**
 Python's two sequence types. `bytes` is a sequence of octets; `str` is a sequence of code points and, unlike Dafny's
 own `string`, may hold surrogate code points one at a time.
 */
module Text {
  type Byte = n: int | 0 <= n < 0x100

  type Char = n: int | 0 <= n < 0x110000

  type Bytes = seq<Byte>

  type Str = seq<Char>

  predicate IsHigh(c: Char) {
    0xD800 <= c <= 0xDBFF
  }

  predicate IsLow(c: Char) {
    0xDC00 <= c <= 0xDFFF
  }

  predicate IsSurrogate(c: Char) {
    0xD800 <= c <= 0xDFFF
  }

  /** A string literal of the source as a Python `str`. */
  function Lit(s: string): (t: Str)
    ensures |t| == |s|
    ensures forall i :: 0 <= i < |s| ==> t[i] == s[i] as int
  {
    seq(|s|, i requires 0 <= i < |s| => s[i] as int)
  }

  predicate IsAscii(s: seq<int>) {
    forall i :: 0 <= i < |s| ==> 0 <= s[i] < 0x80
  }

  /** A high surrogate directly followed by a low one, each a code point of its own. */
  predicate PairAt(s: Str, i: nat) {
    i + 1 < |s| && IsHigh(s[i]) && IsLow(s[i + 1])
  }

  ghost predicate HasPair(s: Str) {
    exists i: nat :: PairAt(s, i)
  }

  /** The scalar value that a surrogate pair stands for. */
  function Join(hi: Char, lo: Char): (c: Char)
    requires IsHigh(hi) && IsLow(lo)
    ensures 0x10000 <= c
  {
    0x10000 + (hi - 0xD800) * 0x400 + (lo - 0xDC00)
  }

  /** `s` with every adjacent surrogate pair fused, leftmost first. */
  function MergePairs(s: Str): Str {
    if s == [] then []
    else if PairAt(s, 0) then [Join(s[0], s[1])] + MergePairs(s[2..])
    else [s[0]] + MergePairs(s[1..])
  }

  lemma {:induction false} MergePairsLength(s: Str)
    ensures |MergePairs(s)| <= |s|
    ensures HasPair(s) ==> |MergePairs(s)| < |s|
  {
    if s == [] {
    } else if PairAt(s, 0) {
      MergePairsLength(s[2..]);
    } else {
      MergePairsLength(s[1..]);
      if HasPair(s) {
        var i: nat :| PairAt(s, i);
        assert PairAt(s[1..], i - 1);
      }
    }
  }

  /** Fusing pairs changes a string exactly when it holds a separate pair. */
  lemma {:induction false} MergePairsFixed(s: Str)
    ensures MergePairs(s) == s <==> !HasPair(s)
  {
    MergePairsLength(s);
    if !HasPair(s) {
      if s != [] {
        assert !PairAt(s, 0);
        forall i: nat ensures !PairAt(s[1..], i) {
          assert !PairAt(s, i + 1);
        }
        MergePairsFixed(s[1..]);
      }
    }
  }
}
