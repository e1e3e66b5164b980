/** `scrub_secret_metadata` (src/vibeconnect_common/crypto.py), which redacts audit metadata at every depth. */
module SecretScrub {
  import opened Wrappers
  import opened Text

  // ---------------------------------------------------------------- secret keys

  const HYPHEN: Char := 0x2D

  const UNDERSCORE: Char := 0x5F

  /** `s.replace("-", "_")`. */
  function Underscored(s: Str): (t: Str)
    ensures |t| == |s|
  {
    seq(|s|, i requires 0 <= i < |s| => if s[i] == HYPHEN then UNDERSCORE else s[i])
  }

  /** `s.replace("_", "")`. */
  function Compact(s: Str): Str {
    if s == [] then [] else (if s[0] == UNDERSCORE then [] else [s[0]]) + Compact(s[1..])
  }

  predicate OccursAt(s: Str, fragment: Str, i: nat) {
    i + |fragment| <= |s| && s[i..i + |fragment|] == fragment
  }

  /** `fragment in s`. */
  predicate Contains(s: Str, fragment: Str) {
    exists i: nat :: i <= |s| && OccursAt(s, fragment, i)
  }

  function Fragments(): seq<Str> {
    [Lit("token"), Lit("secret"), Lit("password"), Lit("private_key"), Lit("bearer"), Lit("authorization"),
     Lit("replay_payload"), Lit("provider_response"), Lit("dsn")]
  }

  /** `_is_secret_key`; `lower` is `str.lower`, for whose case tables nothing is assumed. */
  predicate IsSecretKey(lower: Str -> Str, key: Str) {
    var normalized := Underscored(lower(key));
    exists i :: 0 <= i < |Fragments()|
                && (Contains(normalized, Fragments()[i]) || Contains(Compact(normalized), Compact(Fragments()[i])))
  }

  lemma {:induction false} CompactConcat(a: Str, b: Str)
    ensures Compact(a + b) == Compact(a) + Compact(b)
  {
    if a == [] {
      assert a + b == b;
    } else {
      assert (a + b)[1..] == a[1..] + b;
      CompactConcat(a[1..], b);
    }
  }

  /** An occurrence survives the deletion of underscores from both texts. */
  lemma CompactKeepsContains(s: Str, fragment: Str)
    requires Contains(s, fragment)
    ensures Contains(Compact(s), Compact(fragment))
  {
    var i: nat :| i <= |s| && OccursAt(s, fragment, i);
    var a, b := s[..i], s[i + |fragment|..];
    assert s == a + fragment + b;
    CompactConcat(a + fragment, b);
    CompactConcat(a, fragment);
    assert Compact(s) == Compact(a) + Compact(fragment) + Compact(b);
    assert OccursAt(Compact(s), Compact(fragment), |Compact(a)|);
  }

  /** So the second test of `_is_secret_key` alone decides. */
  lemma CompactTestDecides(lower: Str -> Str, key: Str)
    ensures IsSecretKey(lower, key)
       <==> exists i :: 0 <= i < |Fragments()|
                        && Contains(Compact(Underscored(lower(key))), Compact(Fragments()[i]))
  {
    var normalized := Underscored(lower(key));
    forall i | 0 <= i < |Fragments()| && Contains(normalized, Fragments()[i])
      ensures Contains(Compact(normalized), Compact(Fragments()[i]))
    {
      CompactKeepsContains(normalized, Fragments()[i]);
    }
  }

  /** The text without its hyphens and underscores. */
  function Stripped(s: Str): Str {
    if s == [] then [] else (if s[0] in {HYPHEN, UNDERSCORE} then [] else [s[0]]) + Stripped(s[1..])
  }

  lemma {:induction false} CompactIsStripped(s: Str)
    ensures Compact(Underscored(s)) == Stripped(s)
  {
    if s != [] {
      CompactIsStripped(s[1..]);
      assert Underscored(s)[1..] == Underscored(s[1..]);
    }
  }

  lemma {:induction false} CompactWord(s: Str)
    requires HYPHEN !in s
    ensures Compact(s) == Stripped(s)
  {
    if s != [] { CompactWord(s[1..]); }
  }

  /** One of the words is in the text, hyphens and underscores aside. */
  ghost predicate HasWord(text: Str, words: seq<Str>) {
    exists i :: 0 <= i < |words| && Contains(Stripped(text), Stripped(words[i]))
  }

  ghost predicate HyphenFree(words: seq<Str>) {
    forall i :: 0 <= i < |words| ==> HYPHEN !in words[i]
  }

  lemma CompactHits(text: Str, words: seq<Str>)
    requires HyphenFree(words)
    ensures HasWord(text, words)
       <==> exists i :: 0 <= i < |words| && Contains(Compact(Underscored(text)), Compact(words[i]))
  {
    CompactIsStripped(text);
    forall i | 0 <= i < |words| ensures Compact(words[i]) == Stripped(words[i]) {
      CompactWord(words[i]);
    }
    if HasWord(text, words) {
      var i :| 0 <= i < |words| && Contains(Stripped(text), Stripped(words[i]));
      assert Contains(Compact(Underscored(text)), Compact(words[i]));
    }
  }

  lemma LitHyphenFree(s: string)
    requires '-' !in s
    ensures HYPHEN !in Lit(s)
  {
  }

  lemma FragmentsHyphenFree()
    ensures HyphenFree(Fragments())
  {
    LitHyphenFree("token");
    LitHyphenFree("secret");
    LitHyphenFree("password");
    LitHyphenFree("private_key");
    LitHyphenFree("bearer");
    LitHyphenFree("authorization");
    LitHyphenFree("replay_payload");
    LitHyphenFree("provider_response");
    LitHyphenFree("dsn");
  }

  /** A key is secret if and only if one of nine words is in its lower-case text, hyphens and underscores aside. */
  lemma SecretKeysAre(lower: Str -> Str, key: Str)
    ensures IsSecretKey(lower, key) <==>
              HasWord(lower(key), [Lit("token"), Lit("secret"), Lit("password"), Lit("private_key"), Lit("bearer"),
                                   Lit("authorization"), Lit("replay_payload"), Lit("provider_response"), Lit("dsn")])
  {
    var words := Fragments();
    FragmentsHyphenFree();
    CompactTestDecides(lower, key);
    CompactHits(lower(key), words);
  }

  // ---------------------------------------------------------------- values

  /**
   A metadata value. A mapping lists its entries in order, each under the text of its key: two keys of a source mapping
   may share a text, as 1 and "1" do. `Secret` is a `SecretValue`; a leaf is any other value, by its text.
   */
  datatype Value = Leaf(text: Str) | Secret | Items(items: seq<Value>) | Mapping(entries: seq<Entry>)

  datatype Entry = Entry(key: Str, value: Value)

  function Redacted(): Value {
    Leaf(Lit("[REDACTED]"))
  }

  /** `d[key] = value` on a dict, which keeps the place of a key that it has. */
  function Put(entries: seq<Entry>, key: Str, value: Value): seq<Entry> {
    if entries == [] then [Entry(key, value)]
    else if entries[0].key == key then [Entry(key, value)] + entries[1..]
    else [entries[0]] + Put(entries[1..], key, value)
  }

  function Scrub(v: Value, secret: Str -> bool): Value {
    match v
    case Leaf(_) => v
    case Secret => Redacted()
    case Items(items) => Items(ScrubItems(items, secret))
    case Mapping(entries) => Mapping(ScrubEntries(entries, secret))
  }

  function ScrubItems(items: seq<Value>, secret: Str -> bool): (r: seq<Value>)
    ensures |r| == |items|
  {
    if items == [] then []
    else ScrubItems(items[..|items| - 1], secret) + [Scrub(items[|items| - 1], secret)]
  }

  function ScrubEntry(e: Entry, secret: Str -> bool): Value {
    if secret(e.key) then Redacted() else Scrub(e.value, secret)
  }

  function ScrubEntries(entries: seq<Entry>, secret: Str -> bool): seq<Entry> {
    if entries == [] then []
    else
      var n := |entries| - 1;
      Put(ScrubEntries(entries[..n], secret), entries[n].key, ScrubEntry(entries[n], secret))
  }

  /** The function as it is written, filling its dict and its list one element at a time. */
  method ScrubSecretMetadata(v: Value, secret: Str -> bool) returns (r: Value)
    ensures r == Scrub(v, secret)
    decreases v
  {
    match v {
      case Mapping(entries) =>
        var redacted: seq<Entry> := [];
        var i := 0;
        while i < |entries|
          invariant 0 <= i <= |entries|
          invariant redacted == ScrubEntries(entries[..i], secret)
        {
          var e := entries[i];
          assert entries[..i + 1][..i] == entries[..i];
          if secret(e.key) {
            redacted := Put(redacted, e.key, Redacted());
          } else {
            var item := ScrubSecretMetadata(e.value, secret);
            redacted := Put(redacted, e.key, item);
          }
          i := i + 1;
        }
        assert entries[..i] == entries;
        return Mapping(redacted);
      case Items(items) =>
        var scrubbed: seq<Value> := [];
        var i := 0;
        while i < |items|
          invariant 0 <= i <= |items|
          invariant scrubbed == ScrubItems(items[..i], secret)
        {
          assert items[..i + 1][..i] == items[..i];
          var item := ScrubSecretMetadata(items[i], secret);
          scrubbed := scrubbed + [item];
          i := i + 1;
        }
        assert items[..i] == items;
        return Items(scrubbed);
      case Secret => return Redacted();
      case Leaf(_) => return v;
    }
  }

  // ---------------------------------------------------------------- no secret survives

  /** No secret value anywhere in `v`, and nothing but the redaction under a secret key. */
  ghost predicate Clean(v: Value, secret: Str -> bool) {
    match v
    case Leaf(_) => true
    case Secret => false
    case Items(items) => forall i :: 0 <= i < |items| ==> Clean(items[i], secret)
    case Mapping(entries) =>
      forall i :: 0 <= i < |entries| ==>
        Clean(entries[i].value, secret) && (secret(entries[i].key) ==> entries[i].value == Redacted())
  }

  ghost predicate CleanEntry(e: Entry, secret: Str -> bool) {
    Clean(e.value, secret) && (secret(e.key) ==> e.value == Redacted())
  }

  ghost predicate CleanEntries(entries: seq<Entry>, secret: Str -> bool) {
    forall i :: 0 <= i < |entries| ==> CleanEntry(entries[i], secret)
  }

  /** The keys of a mapping are texts that do not repeat, as those of a dict are. */
  ghost predicate Dict(entries: seq<Entry>) {
    forall i, j :: 0 <= i < j < |entries| ==> entries[i].key != entries[j].key
  }

  /** Every mapping in `v` is a dict. */
  ghost predicate Regular(v: Value) {
    match v
    case Items(items) => forall i :: 0 <= i < |items| ==> Regular(items[i])
    case Mapping(entries) => Dict(entries) && forall i :: 0 <= i < |entries| ==> Regular(entries[i].value)
    case _ => true
  }

  predicate HasKey(entries: seq<Entry>, key: Str) {
    exists i :: 0 <= i < |entries| && entries[i].key == key
  }

  lemma {:induction false} PutShape(entries: seq<Entry>, key: Str, value: Value)
    ensures forall e :: e in Put(entries, key, value) ==> e == Entry(key, value) || e in entries
    ensures HasKey(entries, key) ==> |Put(entries, key, value)| == |entries|
    ensures forall k :: HasKey(Put(entries, key, value), k) <==> HasKey(entries, k) || k == key
  {
    if entries != [] && entries[0].key != key {
      PutShape(entries[1..], key, value);
      HasKeySplit(entries);
      HasKeySplit(Put(entries, key, value));
    } else if entries != [] {
      HasKeySplit(entries);
      HasKeySplit(Put(entries, key, value));
    } else {
      assert Put(entries, key, value)[0].key == key;
    }
  }

  lemma HasKeySplit(entries: seq<Entry>)
    requires entries != []
    ensures forall k :: HasKey(entries, k) <==> entries[0].key == k || HasKey(entries[1..], k)
  {
    forall k ensures HasKey(entries, k) <==> entries[0].key == k || HasKey(entries[1..], k) {
      if HasKey(entries, k) && entries[0].key != k {
        var i :| 0 <= i < |entries| && entries[i].key == k;
        assert entries[1..][i - 1].key == k;
      }
      if HasKey(entries[1..], k) {
        var i :| 0 <= i < |entries| - 1 && entries[1..][i].key == k;
        assert entries[i + 1].key == k;
      }
    }
  }

  lemma {:induction false} PutKeepsClean(entries: seq<Entry>, key: Str, value: Value, secret: Str -> bool)
    requires CleanEntries(entries, secret) && CleanEntry(Entry(key, value), secret)
    ensures CleanEntries(Put(entries, key, value), secret)
  {
    if entries != [] && entries[0].key != key { PutKeepsClean(entries[1..], key, value, secret); }
  }

  ghost predicate RegularValues(entries: seq<Entry>) {
    forall i :: 0 <= i < |entries| ==> Regular(entries[i].value)
  }

  ghost predicate RegularEntries(entries: seq<Entry>) {
    Dict(entries) && RegularValues(entries)
  }

  lemma DictCons(first: Entry, rest: seq<Entry>)
    ensures Dict([first] + rest) <==> Dict(rest) && !HasKey(rest, first.key)
  {
    var all := [first] + rest;
    assert forall i :: 0 <= i < |rest| ==> all[i + 1] == rest[i];
    if Dict(all) {
      forall i, j | 0 <= i < j < |rest| ensures rest[i].key != rest[j].key {
        assert all[i + 1].key != all[j + 1].key;
      }
      forall i | 0 <= i < |rest| ensures rest[i].key != first.key {
        assert all[0].key != all[i + 1].key;
      }
    }
  }

  lemma {:induction false} PutKeepsDict(entries: seq<Entry>, key: Str, value: Value)
    requires Dict(entries)
    ensures Dict(Put(entries, key, value))
  {
    if entries != [] {
      var first, rest := entries[0], entries[1..];
      assert entries == [first] + rest;
      DictCons(first, rest);
      if first.key == key {
        DictCons(Entry(key, value), rest);
      } else {
        PutKeepsDict(rest, key, value);
        PutShape(rest, key, value);
        DictCons(first, Put(rest, key, value));
      }
    }
  }

  lemma {:induction false} PutKeepsValues(entries: seq<Entry>, key: Str, value: Value)
    requires RegularValues(entries) && Regular(value)
    ensures RegularValues(Put(entries, key, value))
  {
    if entries != [] && entries[0].key != key { PutKeepsValues(entries[1..], key, value); }
  }

  /** At every depth of the result: no secret value, only the redaction under secret keys, and every mapping a dict. */
  lemma {:induction false} ScrubIsClean(v: Value, secret: Str -> bool)
    ensures Clean(Scrub(v, secret), secret) && Regular(Scrub(v, secret))
    decreases v
  {
    match v
    case Items(items) => ScrubItemsClean(items, secret);
    case Mapping(entries) => ScrubEntriesClean(entries, secret);
    case _ =>
  }

  lemma {:induction false} ScrubItemsClean(items: seq<Value>, secret: Str -> bool)
    ensures forall i :: 0 <= i < |items| ==>
      Clean(ScrubItems(items, secret)[i], secret) && Regular(ScrubItems(items, secret)[i])
    decreases items
  {
    if items != [] {
      ScrubItemsClean(items[..|items| - 1], secret);
      ScrubIsClean(items[|items| - 1], secret);
    }
  }

  lemma {:induction false} ScrubEntriesClean(entries: seq<Entry>, secret: Str -> bool)
    ensures CleanEntries(ScrubEntries(entries, secret), secret) && RegularEntries(ScrubEntries(entries, secret))
    decreases entries
  {
    if entries != [] {
      var n := |entries| - 1;
      var e, done := entries[n], ScrubEntries(entries[..n], secret);
      ScrubEntriesClean(entries[..n], secret);
      ScrubIsClean(e.value, secret);
      PutKeepsClean(done, e.key, ScrubEntry(e, secret), secret);
      PutKeepsDict(done, e.key, ScrubEntry(e, secret));
      PutKeepsValues(done, e.key, ScrubEntry(e, secret));
    }
  }

  // ---------------------------------------------------------------- scrubbing twice

  lemma {:induction false} PutNew(entries: seq<Entry>, key: Str, value: Value)
    requires forall i :: 0 <= i < |entries| ==> entries[i].key != key
    ensures Put(entries, key, value) == entries + [Entry(key, value)]
  {
    if entries != [] { PutNew(entries[1..], key, value); }
  }

  /** And a key that is there keeps its place. */
  lemma {:induction false} PutInPlace(before: seq<Entry>, was: Entry, after: seq<Entry>, value: Value)
    requires forall i :: 0 <= i < |before| ==> before[i].key != was.key
    ensures Put(before + [was] + after, was.key, value) == before + [Entry(was.key, value)] + after
  {
    var all := before + [was] + after;
    if before == [] {
      assert all[1..] == after;
    } else {
      assert all[1..] == before[1..] + [was] + after;
      PutInPlace(before[1..], was, after, value);
    }
  }

  lemma {:induction false} CleanIsFixed(v: Value, secret: Str -> bool)
    requires Clean(v, secret) && Regular(v)
    ensures Scrub(v, secret) == v
    decreases v
  {
    match v
    case Items(items) => CleanItemsFixed(items, secret);
    case Mapping(entries) => CleanEntriesFixed(entries, secret);
    case _ =>
  }

  lemma {:induction false} CleanItemsFixed(items: seq<Value>, secret: Str -> bool)
    requires forall i :: 0 <= i < |items| ==> Clean(items[i], secret) && Regular(items[i])
    ensures ScrubItems(items, secret) == items
    decreases items
  {
    if items != [] {
      CleanItemsFixed(items[..|items| - 1], secret);
      CleanIsFixed(items[|items| - 1], secret);
    }
  }

  lemma {:induction false} CleanEntriesFixed(entries: seq<Entry>, secret: Str -> bool)
    requires CleanEntries(entries, secret) && RegularEntries(entries)
    ensures ScrubEntries(entries, secret) == entries
    decreases entries
  {
    if entries != [] {
      var n := |entries| - 1;
      var e := entries[n];
      CleanEntriesFixed(entries[..n], secret);
      assert CleanEntry(e, secret);
      CleanIsFixed(e.value, secret);
      PutNew(entries[..n], e.key, e.value);
      assert entries == entries[..n] + [e];
    }
  }

  /** Scrubbing changes a value exactly when it is not clean, or one of its mappings repeats a key's text. */
  lemma ScrubFixedIff(v: Value, secret: Str -> bool)
    ensures Scrub(v, secret) == v <==> Clean(v, secret) && Regular(v)
  {
    ScrubIsClean(v, secret);
    if Clean(v, secret) && Regular(v) { CleanIsFixed(v, secret); }
  }

  /** The admin API scrubs before the audit writer does: the second pass changes nothing. */
  lemma ScrubTwice(v: Value, secret: Str -> bool)
    ensures Scrub(Scrub(v, secret), secret) == Scrub(v, secret)
  {
    ScrubIsClean(v, secret);
    CleanIsFixed(Scrub(v, secret), secret);
  }

  // ---------------------------------------------------------------- what is kept

  datatype Hop = Key(key: Str) | Index(i: nat)

  /** The value under a key: of entries that share its text, the last. */
  function Get(entries: seq<Entry>, key: Str): Option<Value> {
    if entries == [] then None
    else if entries[|entries| - 1].key == key then Some(entries[|entries| - 1].value)
    else Get(entries[..|entries| - 1], key)
  }

  function Follow(v: Value, path: seq<Hop>): Option<Value>
    decreases |path|
  {
    if path == [] then Some(v)
    else
      match (v, path[0])
      case (Mapping(entries), Key(key)) =>
        (match Get(entries, key) case None => None case Some(w) => Follow(w, path[1..]))
      case (Items(items), Index(i)) => if i < |items| then Follow(items[i], path[1..]) else None
      case _ => None
  }

  lemma {:induction false} GetAbsent(entries: seq<Entry>, key: Str)
    ensures Get(entries, key).None? <==> forall i :: 0 <= i < |entries| ==> entries[i].key != key
  {
    if entries != [] { GetAbsent(entries[..|entries| - 1], key); }
  }

  lemma GetCons(e: Entry, rest: seq<Entry>, key: Str)
    ensures Get([e] + rest, key) == match Get(rest, key) case Some(w) => Some(w)
                                    case None => if e.key == key then Some(e.value) else None
    decreases |rest|
  {
    var all := [e] + rest;
    if rest == [] {
      assert all[..0] == [];
    } else {
      assert all[..|rest|] == [e] + rest[..|rest| - 1];
      GetCons(e, rest[..|rest| - 1], key);
    }
  }

  lemma {:induction false} GetPut(entries: seq<Entry>, key: Str, value: Value, other: Str)
    requires Dict(entries)
    ensures Get(Put(entries, key, value), other) == if other == key then Some(value) else Get(entries, other)
  {
    if entries == [] {
      assert [Entry(key, value)][..0] == [];
    } else {
      var first, rest := entries[0], entries[1..];
      assert entries == [first] + rest;
      GetCons(first, rest, other);
      if first.key == key {
        GetCons(Entry(key, value), rest, other);
        GetAbsent(rest, key);
      } else {
        GetPut(rest, key, value, other);
        GetCons(first, Put(rest, key, value), other);
      }
    }
  }

  /** Under every key: the redaction if the key is secret, else the scrubbed value; no key appears or disappears. */
  lemma {:induction false} GetOfScrub(entries: seq<Entry>, secret: Str -> bool, key: Str)
    ensures Get(ScrubEntries(entries, secret), key)
         == match Get(entries, key) case None => None case Some(w) => Some(ScrubEntry(Entry(key, w), secret))
  {
    if entries != [] {
      var n := |entries| - 1;
      ScrubEntriesClean(entries[..n], secret);
      GetOfScrub(entries[..n], secret, key);
      GetPut(ScrubEntries(entries[..n], secret), entries[n].key, ScrubEntry(entries[n], secret), key);
    }
  }

  lemma {:induction false} ItemOfScrub(items: seq<Value>, secret: Str -> bool, i: nat)
    requires i < |items|
    ensures ScrubItems(items, secret)[i] == Scrub(items[i], secret)
  {
    if i < |items| - 1 { ItemOfScrub(items[..|items| - 1], secret, i); }
  }

  predicate Public(path: seq<Hop>, secret: Str -> bool) {
    forall i :: 0 <= i < |path| && path[i].Key? ==> !secret(path[i].key)
  }

  /** Along any path of public keys and indices, at any depth, the result has the scrubbed original. */
  lemma {:induction false} StructureKept(v: Value, path: seq<Hop>, secret: Str -> bool)
    requires Public(path, secret)
    ensures Follow(Scrub(v, secret), path)
         == match Follow(v, path) case None => None case Some(w) => Some(Scrub(w, secret))
    decreases |path|
  {
    if path != [] {
      match (v, path[0])
      case (Mapping(entries), Key(key)) =>
        GetOfScrub(entries, secret, key);
        if Get(entries, key).Some? { StructureKept(Get(entries, key).value, path[1..], secret); }
      case (Items(items), Index(i)) =>
        if i < |items| {
          ItemOfScrub(items, secret, i);
          StructureKept(items[i], path[1..], secret);
        }
      case _ =>
    }
  }

  lemma {:induction false} FollowConcat(v: Value, a: seq<Hop>, b: seq<Hop>)
    ensures Follow(v, a + b) == match Follow(v, a) case None => None case Some(w) => Follow(w, b)
    decreases |a|
  {
    if a == [] {
      assert a + b == b;
    } else {
      assert (a + b)[1..] == a[1..] + b && (a + b)[0] == a[0];
      match (v, a[0])
      case (Mapping(entries), Key(key)) =>
        if Get(entries, key).Some? { FollowConcat(Get(entries, key).value, a[1..], b); }
      case (Items(items), Index(i)) =>
        if i < |items| { FollowConcat(items[i], a[1..], b); }
      case _ =>
    }
  }

  /** A secret key stays where it was, with the redaction in place of whatever it had. */
  lemma SecretKeyRedacted(v: Value, path: seq<Hop>, key: Str, secret: Str -> bool)
    requires Public(path, secret) && secret(key)
    ensures Follow(Scrub(v, secret), path + [Key(key)])
         == if Follow(v, path + [Key(key)]).Some? then Some(Leaf(Lit("[REDACTED]"))) else None
  {
    StructureKept(v, path, secret);
    FollowConcat(v, path, [Key(key)]);
    FollowConcat(Scrub(v, secret), path, [Key(key)]);
    match Follow(v, path)
    case Some(Mapping(entries)) => GetOfScrub(entries, secret, key);
    case _ =>
  }
}
