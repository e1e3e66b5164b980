/** `ReplayRecorder` (src/vibeconnect_common/replay.py): one temporary file, published at most once. */
module ReplayCapture {
  import opened Wrappers
  import opened Text
  import opened Json
  import opened JsonRoundTrip
  import opened ReplayFile

  datatype ReplayError = AlreadyClosed | WriteFailed | OsError

  /** What the file system answers to a write: all of the line, or an error after part of it. */
  datatype WriteIo = Wrote | WroteOnly(k: nat)

  /** The first call of `close` that raises, if one does. */
  datatype CloseIo = FlushRaises | SyncRaises | CloseRaises | ReplaceRaises | ReadRaises | NoneRaises

  /** `temp` and `published` are what the two paths hold; `integrity` is HMAC-SHA256 under the configured key. */
  datatype Recorder = Recorder(
    header: Value,
    integrity: Bytes -> Str,
    closed: bool,
    fileOpen: bool,
    temp: Option<Bytes>,
    published: Option<Bytes>,
    events: seq<Event>,
    reports: seq<Str>)

  function Started(header: Value, integrity: Bytes -> Str): Recorder {
    Recorder(header, integrity, false, true, Some(FileOf(header, [])), None, [], [])
  }

  /** `fail`; None when it returns. Closing the file flushes it, and so may raise before the clean-up. */
  function AfterFail(r: Recorder, error: Str, closes: bool): (Recorder, Option<ReplayError>) {
    if r.closed then (r, None)
    else if r.fileOpen && !closes then (r.(closed := true, fileOpen := false), Some(OsError))
    else (r.(closed := true, fileOpen := false, temp := None, reports := r.reports + [error]), None)
  }

  function Take(b: Bytes, k: nat): Bytes {
    if k <= |b| then b[..k] else b
  }

  function Content(r: Recorder): Bytes {
    if r.temp.Some? then r.temp.value else []
  }

  /** `_record`. */
  function AfterRecord(r: Recorder, e: Event, io: WriteIo, closes: bool): (Recorder, Option<ReplayError>) {
    if r.closed then (r, Some(AlreadyClosed))
    else
      match io
      case Wrote => (r.(temp := Some(Content(r) + Line(EventValue(e))), events := r.events + [e]), None)
      case WroteOnly(k) =>
        var failed := AfterFail(r.(temp := Some(Content(r) + Take(Line(EventValue(e)), k))), Lit("write failed"), closes);
        (failed.0, Some(if failed.1.Some? then OsError else WriteFailed))
  }

  /** `close`. */
  function AfterClose(r: Recorder, io: CloseIo): (Recorder, Result<Str, ReplayError>) {
    if r.closed then (r, Err(AlreadyClosed))
    else
      match io
      case FlushRaises => (r.(closed := true), Err(OsError))
      case SyncRaises => (r.(closed := true), Err(OsError))
      case CloseRaises => (r.(closed := true, fileOpen := false), Err(OsError))
      case ReplaceRaises => (r.(closed := true, fileOpen := false), Err(OsError))
      case ReadRaises =>
        (r.(closed := true, fileOpen := false, temp := None, published := Some(Content(r))), Err(OsError))
      case NoneRaises =>
        (r.(closed := true, fileOpen := false, temp := None, published := Some(Content(r))), Ok(r.integrity(Content(r))))
  }

  /** `verify_replay_hmac`. */
  predicate Verifies(integrity: Bytes -> Str, file: Bytes, expected: Str) {
    integrity(file) == expected
  }

  // ---------------------------------------------------------------- what every call keeps

  /** While open, the temporary file is the header and the lines of every event recorded; only such a file is published. */
  ghost predicate Valid(r: Recorder) {
    && FloatsOk(r.header) && EventsOk(r.events)
    && (!r.closed ==> r.fileOpen && r.temp == Some(FileOf(r.header, r.events)) && r.published.None?)
    && (r.published.Some? ==> r.published.value == FileOf(r.header, r.events))
  }

  lemma RecordKeeps(r: Recorder, e: Event, io: WriteIo, closes: bool)
    requires Valid(r) && EventOk(e)
    ensures var (t, error) := AfterRecord(r, e, io, closes);
            && Valid(t) && t.published == r.published && t.header == r.header && t.integrity == r.integrity
            && (error.None? <==> !r.closed && io == Wrote)
            && (error.None? ==> t == r.(temp := Some(Content(r) + Line(EventValue(e))), events := r.events + [e]))
            && (error.Some? ==> t.closed && t.events == r.events)
  {
    FileAppend(r.header, r.events, e);
  }

  /** The integrity code that `close` returns is that of the file it published: the header and every line, in order. */
  lemma ClosePublishes(r: Recorder, io: CloseIo)
    requires Valid(r)
    ensures var (t, result) := AfterClose(r, io);
            && Valid(t) && t.closed && t.events == r.events && t.header == r.header && t.integrity == r.integrity
            && (result.Ok? <==> !r.closed && io == NoneRaises)
            && (result.Ok? ==> t.published == Some(FileOf(r.header, r.events))
                               && Verifies(r.integrity, t.published.value, result.value))
            && (r.closed ==> t.published == r.published)
  {
  }

  lemma FailKeeps(r: Recorder, error: Str, closes: bool)
    requires Valid(r)
    ensures var (t, raised) := AfterFail(r, error, closes);
            && Valid(t) && t.closed && t.published == r.published && t.events == r.events
            && t.header == r.header && t.integrity == r.integrity
            && (raised.None? && !r.closed ==> t.temp.None? && t.reports == r.reports + [error])
  {
  }

  lemma HeaderAlone(header: Value)
    ensures FileOf(header, []) == Line(header)
  {
    assert [header] + EventValues([]) == [header];
    assert Lines([header]) == Line(header) + Lines([header][1..]);
  }

  // ---------------------------------------------------------------- the object

  class ReplayRecorder {
    const header: Value
    const integrity: Bytes -> Str
    var closed: bool
    var fileOpen: bool
    var temp: Option<Bytes>
    var published: Option<Bytes>
    var reports: seq<Str>
    ghost var events: seq<Event>

    ghost function View(): Recorder
      reads this
    {
      Recorder(header, integrity, closed, fileOpen, temp, published, events, reports)
    }

    /** The temporary file begins with the header line of the five fields. */
    constructor (nodeName: Str, width: int, height: int, startedAt: int, integrity: Bytes -> Str)
      ensures View() == Started(HeaderValue(nodeName, width, height, startedAt), integrity) && Valid(View())
      ensures temp == Some(Line(HeaderValue(nodeName, width, height, startedAt)))
      ensures !closed && fileOpen && published == None && reports == [] && events == []
    {
      this.integrity := integrity;
      header := HeaderValue(nodeName, width, height, startedAt);
      closed, fileOpen, published, reports := false, true, None, [];
      events := [];
      temp := Some(Line(HeaderValue(nodeName, width, height, startedAt)));
      new;
      HeaderAlone(header);
      HeaderHasNoFloats(nodeName, width, height, startedAt);
    }

    method CloseFile(closes: bool) returns (raised: bool)
      modifies this`fileOpen
      ensures !fileOpen && raised == (old(fileOpen) && !closes)
    {
      raised := fileOpen && !closes;
      fileOpen := false;
    }

    method Fail(error: Str, closes: bool) returns (raised: Option<ReplayError>)
      requires Valid(View())
      modifies this
      ensures (View(), raised) == AfterFail(old(View()), error, closes) && Valid(View())
      // The first call closes and, unless closing the file raises, reports once and discards the temporary file.
      ensures old(closed) ==> raised == None && View() == old(View())
      ensures !old(closed) ==>
                closed && !fileOpen && published == old(published)
                && (if closes then raised == None && temp == None && reports == old(reports) + [error]
                    else raised == Some(OsError) && temp == old(temp) && reports == old(reports))
    {
      if closed { return None; }
      closed := true;
      var broken := CloseFile(closes);
      if broken { return Some(OsError); }
      reports := reports + [error];
      temp := None;
      return None;
    }

    method Record(e: Event, io: WriteIo, closes: bool) returns (raised: Option<ReplayError>)
      requires Valid(View()) && EventOk(e)
      modifies this
      ensures (View(), raised) == AfterRecord(old(View()), e, io, closes) && Valid(View())
      // An open recorder takes the whole line, or part of it and then it has failed as `fail` does.
      ensures old(closed) ==> raised == Some(AlreadyClosed) && View() == old(View())
      ensures !old(closed) && io == Wrote ==>
                raised == None && !closed && temp == Some(old(temp.value) + Line(EventValue(e)))
                && published == old(published) && reports == old(reports)
      ensures !old(closed) && io != Wrote ==>
                closed && !fileOpen && published == old(published)
                && if closes then raised == Some(WriteFailed) && temp == None && |reports| == |old(reports)| + 1
                   else raised == Some(OsError) && reports == old(reports)
                        && temp == Some(old(temp.value) + Take(Line(EventValue(e)), io.k))
    {
      ghost var before := View();
      RecordKeeps(before, e, io, closes);
      if closed { return Some(AlreadyClosed); }
      var line := Line(EventValue(e));
      match io {
        case Wrote =>
          temp := Some(temp.value + line);
          events := events + [e];
          return None;
        case WroteOnly(k) =>
          temp := Some(temp.value + Take(line, k));
          closed := true;
          var broken := CloseFile(closes);
          if broken { return Some(OsError); }
          reports := reports + [Lit("write failed")];
          temp := None;
          return Some(WriteFailed);
      }
    }

    method Close(io: CloseIo) returns (r: Result<Str, ReplayError>)
      requires Valid(View())
      modifies this
      ensures (View(), r) == AfterClose(old(View()), io) && Valid(View())
      // A second call raises; the first publishes what was written, unless a call before that raises.
      ensures old(closed) ==> r == Err(AlreadyClosed) && View() == old(View())
      ensures !old(closed) ==>
                closed && reports == old(reports)
                && (fileOpen <==> io in {FlushRaises, SyncRaises})
                && (r.Ok? <==> io == NoneRaises) && (r.Err? ==> r.error == OsError)
                && (if io in {ReadRaises, NoneRaises} then published == old(temp) && temp == None
                    else published == None && temp == old(temp))
      ensures r.Ok? ==> published.Some? && Verifies(integrity, published.value, r.value)
    {
      if closed { return Err(AlreadyClosed); }
      closed := true;
      if io == FlushRaises || io == SyncRaises { return Err(OsError); }
      fileOpen := false;
      if io == CloseRaises || io == ReplaceRaises { return Err(OsError); }
      published, temp := temp, None;
      if io == ReadRaises { return Err(OsError); }
      return Ok(integrity(published.value));
    }
  }
}
