/**
 The asciinema v2 files that `ReplayRecorder` writes (src/vibeconnect_common/replay.py) and what reading them gives
 back: one header line, then one JSON array per recorded event.
 */
module ReplayFile {
  import opened Wrappers
  import opened Collections
  import opened Text
  import opened Utf8
  import opened Json
  import opened JsonRoundTrip

  const NEWLINE: Byte := 0x0A

  const INPUT: Char := 0x69

  const OUTPUT: Char := 0x6F

  /** A recorded event: the text of its time as a float, `i` or `o`, and the terminal data as text. */
  datatype Event = Event(seconds: Str, stream: Char, data: Str)

  ghost predicate EventOk(e: Event) {
    IsFloatToken(e.seconds) && e.stream in {INPUT, OUTPUT}
  }

  ghost predicate EventsOk(events: seq<Event>) {
    forall i :: 0 <= i < |events| ==> EventOk(events[i])
  }

  function EventValue(e: Event): Value {
    JArr([JFloat(e.seconds), JStr([e.stream]), JStr(e.data)])
  }

  function HeaderValue(command: Str, width: int, height: int, timestamp: int): Value {
    JObj([Member(Lit("version"), JInt(2)), Member(Lit("command"), JStr(command)), Member(Lit("width"), JInt(width)),
          Member(Lit("height"), JInt(height)), Member(Lit("timestamp"), JInt(timestamp))])
  }

  lemma HeaderHasNoFloats(command: Str, width: int, height: int, timestamp: int)
    ensures FloatsOk(HeaderValue(command, width, height, timestamp))
  {
  }

  lemma LitIsPlain(s: string)
    requires forall i :: 0 <= i < |s| ==> s[i] < 128 as char
    ensures MergePairs(Lit(s)) == Lit(s)
  {
    MergePairsFixed(Lit(s));
  }

  function MergeMember(m: Member): Member {
    Member(MergePairs(m.key), MergeValue(m.value))
  }

  lemma MergeCons(m: Member, rest: seq<Member>)
    ensures MergeMembers([m] + rest) == [MergeMember(m)] + MergeMembers(rest)
  {
    assert ([m] + rest)[1..] == rest;
  }

  lemma MergeFive(a: Member, b: Member, c: Member, d: Member, e: Member)
    ensures MergeMembers([a, b, c, d, e])
         == [MergeMember(a), MergeMember(b), MergeMember(c), MergeMember(d), MergeMember(e)]
  {
    MergeCons(e, []);
    MergeCons(d, [e] + []);
    MergeCons(c, [d] + ([e] + []));
    MergeCons(b, [c] + ([d] + ([e] + [])));
    MergeCons(a, [b] + ([c] + ([d] + ([e] + []))));
    assert [a] + ([b] + ([c] + ([d] + ([e] + [])))) == [a, b, c, d, e];
  }

  lemma NamesPlain()
    ensures MergePairs(Lit("version")) == Lit("version") && MergePairs(Lit("command")) == Lit("command")
  {
    LitIsPlain("version");
    LitIsPlain("command");
  }

  lemma SizesPlain()
    ensures MergePairs(Lit("width")) == Lit("width") && MergePairs(Lit("height")) == Lit("height")
  {
    LitIsPlain("width");
    LitIsPlain("height");
  }

  lemma TimePlain()
    ensures MergePairs(Lit("timestamp")) == Lit("timestamp")
  {
    LitIsPlain("timestamp");
  }

  /** A header is read back with its five fields; only the node's name can change, and only by fusing pairs. */
  lemma HeaderReads(command: Str, width: int, height: int, timestamp: int)
    ensures MergeValue(HeaderValue(command, width, height, timestamp))
         == HeaderValue(MergePairs(command), width, height, timestamp)
    ensures MergeValue(HeaderValue(command, width, height, timestamp))
         == JObj([Member(Lit("version"), JInt(2)), Member(Lit("command"), JStr(MergePairs(command))),
                  Member(Lit("width"), JInt(width)), Member(Lit("height"), JInt(height)),
                  Member(Lit("timestamp"), JInt(timestamp))])
  {
    NamesPlain();
    SizesPlain();
    TimePlain();
    MergeFive(Member(Lit("version"), JInt(2)), Member(Lit("command"), JStr(command)),
              Member(Lit("width"), JInt(width)), Member(Lit("height"), JInt(height)),
              Member(Lit("timestamp"), JInt(timestamp)));
  }

  /** `json.dumps(v).encode("utf-8")`; printed JSON is ASCII, so encoding it cannot fail. */
  function TextOf(v: Value): Bytes {
    match Encode(Dumps(v))
    case Some(b) => b
    case None => []
  }

  /** What `_write_line` writes. */
  function Line(v: Value): Bytes {
    TextOf(v) + [NEWLINE]
  }

  function Lines(values: seq<Value>): Bytes {
    if values == [] then [] else Line(values[0]) + Lines(values[1..])
  }

  function EventValues(events: seq<Event>): seq<Value> {
    seq(|events|, i requires 0 <= i < |events| => EventValue(events[i]))
  }

  /** The bytes of a replay file, once every line is written. */
  function FileOf(header: Value, events: seq<Event>): Bytes {
    Lines([header] + EventValues(events))
  }

  // ---------------------------------------------------------------- reading a file

  function LineEnd(b: Bytes): (k: nat)
    ensures k <= |b|
    ensures forall i :: 0 <= i < k ==> b[i] != NEWLINE
    ensures k < |b| ==> b[k] == NEWLINE
  {
    if b == [] || b[0] == NEWLINE then 0 else 1 + LineEnd(b[1..])
  }

  /** The lines of a file, each without its newline. */
  function SplitLines(b: Bytes): seq<Bytes> {
    if b == [] then []
    else
      var k := LineEnd(b);
      if k == |b| then [b] else [b[..k]] + SplitLines(b[k + 1..])
  }

  function ParseLine(line: Bytes): Option<Value> {
    match Decode(line)
    case None => None
    case Some(t) => Loads(t)
  }

  function ParseLines(lines: seq<Bytes>): Option<seq<Value>> {
    if lines == [] then Some([])
    else
      match ParseLine(lines[0])
      case None => None
      case Some(v) =>
        match ParseLines(lines[1..])
        case None => None
        case Some(vs) => Some([v] + vs)
  }

  function ReadEvent(v: Value): Option<Event> {
    if v.JArr? && |v.items| == 3 && v.items[0].JFloat? && v.items[1].JStr? && |v.items[1].s| == 1 && v.items[2].JStr?
    then Some(Event(v.items[0].token, v.items[1].s[0], v.items[2].s))
    else None
  }

  function ReadEvents(values: seq<Value>): Option<seq<Event>> {
    if values == [] then Some([])
    else
      match ReadEvent(values[0])
      case None => None
      case Some(e) =>
        match ReadEvents(values[1..])
        case None => None
        case Some(es) => Some([e] + es)
  }

  /** A player's view of a file: its header, and its events in order. */
  function ReadFile(b: Bytes): Option<(Value, seq<Event>)> {
    match ParseLines(SplitLines(b))
    case None => None
    case Some(values) =>
      if values == [] then None
      else
        match ReadEvents(values[1..])
        case None => None
        case Some(events) => Some((values[0], events))
  }

  // ---------------------------------------------------------------- what was written is what is read

  lemma LineShape(v: Value)
    requires FloatsOk(v)
    ensures NEWLINE !in TextOf(v)
    ensures ParseLine(TextOf(v)) == Some(MergeValue(v))
  {
    DumpsPrintable(v);
    EncodeOfAscii(Dumps(v));
    DecodeOfEncode(Dumps(v));
    LoadsOfDumps(v);
  }

  lemma {:induction false} LineEndOf(line: Bytes, rest: Bytes)
    requires NEWLINE !in line
    ensures LineEnd(line + [NEWLINE] + rest) == |line|
  {
    var b := line + [NEWLINE] + rest;
    if line != [] {
      assert line[0] in line;
      assert b[1..] == line[1..] + [NEWLINE] + rest;
      LineEndOf(line[1..], rest);
    }
  }

  lemma SplitFirst(line: Bytes, rest: Bytes)
    requires NEWLINE !in line
    ensures SplitLines(line + [NEWLINE] + rest) == [line] + SplitLines(rest)
  {
    var b := line + [NEWLINE] + rest;
    LineEndOf(line, rest);
    assert b[..|line|] == line && b[|line| + 1..] == rest;
  }

  ghost predicate AllFloatsOk(values: seq<Value>) {
    forall i :: 0 <= i < |values| ==> FloatsOk(values[i])
  }

  lemma {:induction false} ParseOfLines(values: seq<Value>)
    requires AllFloatsOk(values)
    ensures ParseLines(SplitLines(Lines(values))) == Some(MergeItems(values))
  {
    if values != [] {
      var v, more := values[0], Lines(values[1..]);
      LineShape(v);
      SplitFirst(TextOf(v), more);
      ParseOfLines(values[1..]);
      var lines := SplitLines(Lines(values));
      assert lines == [TextOf(v)] + SplitLines(more);
      assert lines[1..] == SplitLines(more);
    }
  }

  function MergeEvent(e: Event): Event {
    e.(data := MergePairs(e.data))
  }

  function MergeEvents(events: seq<Event>): seq<Event> {
    seq(|events|, i requires 0 <= i < |events| => MergeEvent(events[i]))
  }

  lemma ReadOfEvent(e: Event)
    requires EventOk(e)
    ensures FloatsOk(EventValue(e)) && ReadEvent(MergeValue(EventValue(e))) == Some(MergeEvent(e))
  {
    var a, b, c := JFloat(e.seconds), JStr([e.stream]), JStr(e.data);
    assert [a, b, c][1..] == [b, c] && [b, c][1..] == [c] && [c][1..] == [];
    assert MergeItems([c]) == [MergeValue(c)];
    assert MergeItems([b, c]) == [MergeValue(b), MergeValue(c)];
    assert MergeItems([a, b, c]) == [MergeValue(a), MergeValue(b), MergeValue(c)];
    assert MergePairs([e.stream]) == [e.stream] by {
      assert [e.stream][1..] == [];
    }
  }

  lemma {:induction false} ReadOfEvents(events: seq<Event>)
    requires EventsOk(events)
    ensures AllFloatsOk(EventValues(events))
    ensures ReadEvents(MergeItems(EventValues(events))) == Some(MergeEvents(events))
  {
    if events == [] {
      assert EventValues(events) == [] && MergeEvents(events) == [];
    } else {
      var values := EventValues(events);
      ReadOfEvent(events[0]);
      assert values[1..] == EventValues(events[1..]);
      ReadOfEvents(events[1..]);
      assert values == [values[0]] + values[1..];
      var merged := MergeItems(values);
      assert merged[1..] == MergeItems(values[1..]);
      assert MergeEvents(events) == [MergeEvent(events[0])] + MergeEvents(events[1..]);
    }
  }

  /** Reading a file gives back its header and every event in order, with the surrogate pairs of texts fused. */
  lemma ReadOfFile(header: Value, events: seq<Event>)
    requires FloatsOk(header) && EventsOk(events)
    ensures ReadFile(FileOf(header, events)) == Some((MergeValue(header), MergeEvents(events)))
  {
    var values := EventValues(events);
    ReadOfEvents(events);
    ParseOfLines([header] + values);
    assert ([header] + values)[1..] == values;
    var merged := MergeItems([header] + values);
    assert merged == [MergeValue(header)] + MergeItems(values);
    assert merged[1..] == MergeItems(values);
  }

  ghost predicate NoPairs(events: seq<Event>) {
    forall i :: 0 <= i < |events| ==> !HasPair(events[i].data)
  }

  /** The texts come back unchanged if and only if none of them holds a separate surrogate pair. */
  lemma TextsExactIff(header: Value, events: seq<Event>)
    requires FloatsOk(header) && EventsOk(events)
    ensures ReadFile(FileOf(header, events)) == Some((MergeValue(header), events)) <==> NoPairs(events)
  {
    ReadOfFile(header, events);
    var merged := MergeEvents(events);
    forall i | 0 <= i < |events| ensures merged[i] == events[i] <==> !HasPair(events[i].data) {
      MergePairsFixed(events[i].data);
    }
    if NoPairs(events) { assert merged == events; }
  }

  // ---------------------------------------------------------------- terminal bytes

  /** What the bridge records: bytes as they came from the PTY, possibly cut inside a character or not UTF-8 at all. */
  datatype PtyEvent = PtyEvent(seconds: Str, stream: Char, payload: Bytes)

  /** `_decode_pty`, then `record_input` or `record_output`. */
  function Recorded(e: PtyEvent): Event {
    Event(e.seconds, e.stream, DecodeEscape(e.payload))
  }

  function RecordedAll(events: seq<PtyEvent>): seq<Event> {
    seq(|events|, i requires 0 <= i < |events| => Recorded(events[i]))
  }

  function Played(e: Event): Option<PtyEvent> {
    match EncodeEscape(e.data)
    case None => None
    case Some(payload) => Some(PtyEvent(e.seconds, e.stream, payload))
  }

  function PlayedAll(events: seq<Event>): Option<seq<PtyEvent>> {
    if events == [] then Some([])
    else
      match Played(events[0])
      case None => None
      case Some(e) =>
        match PlayedAll(events[1..])
        case None => None
        case Some(es) => Some([e] + es)
  }

  /** Re-encoding the text of every event of a file. */
  function Playback(b: Bytes): Option<seq<PtyEvent>> {
    match ReadFile(b)
    case None => None
    case Some((_, events)) => PlayedAll(events)
  }

  lemma {:induction false} PlayedOfRecorded(events: seq<PtyEvent>)
    ensures PlayedAll(RecordedAll(events)) == Some(events)
  {
    if events == [] {
      assert RecordedAll(events) == [];
    } else {
      EncodeEscapeOfDecodeEscape(events[0].payload);
      assert RecordedAll(events)[1..] == RecordedAll(events[1..]);
      PlayedOfRecorded(events[1..]);
      assert [events[0]] + events[1..] == events;
    }
  }

  /** For every sequence of payloads, whatever their bytes, a player recovers the same events with the exact bytes. */
  lemma PlaybackOfFile(header: Value, events: seq<PtyEvent>)
    requires FloatsOk(header)
    requires forall i :: 0 <= i < |events| ==> IsFloatToken(events[i].seconds) && events[i].stream in {INPUT, OUTPUT}
    ensures Playback(FileOf(header, RecordedAll(events))) == Some(events)
  {
    var texts := RecordedAll(events);
    forall i | 0 <= i < |texts| ensures !HasPair(texts[i].data) {
      DecodeEscapeHasNoPair(events[i].payload);
    }
    assert forall i :: 0 <= i < |texts| ==> EventOk(texts[i]);
    TextsExactIff(header, texts);
    PlayedOfRecorded(events);
  }

  /** No two recordings share a file: the integrity code of the bytes covers every event, its time and its direction. */
  lemma FilesDiffer(header: Value, a: seq<PtyEvent>, b: seq<PtyEvent>)
    requires FloatsOk(header) && a != b
    requires forall i :: 0 <= i < |a| ==> IsFloatToken(a[i].seconds) && a[i].stream in {INPUT, OUTPUT}
    requires forall i :: 0 <= i < |b| ==> IsFloatToken(b[i].seconds) && b[i].stream in {INPUT, OUTPUT}
    ensures FileOf(header, RecordedAll(a)) != FileOf(header, RecordedAll(b))
  {
    PlaybackOfFile(header, a);
    PlaybackOfFile(header, b);
  }

  /** One more event is one more line at the end, so a recorder can write it as it comes. */
  lemma FileAppend(header: Value, events: seq<Event>, e: Event)
    ensures FileOf(header, events + [e]) == FileOf(header, events) + Line(EventValue(e))
  {
    assert [header] + EventValues(events + [e]) == [header] + EventValues(events) + [EventValue(e)];
    LinesAppend([header] + EventValues(events), EventValue(e));
  }

  lemma {:induction false} LinesAppend(values: seq<Value>, v: Value)
    ensures Lines(values + [v]) == Lines(values) + Line(v)
  {
    if values == [] {
      assert values + [v] == [v];
      assert Line(v) + [] == Line(v);
    } else {
      assert (values + [v])[1..] == values[1..] + [v];
      LinesAppend(values[1..], v);
      Associates(Line(values[0]), Lines(values[1..]), Line(v));
    }
  }
}
