/**
 The life of one jump session (src/server/jump.py): PTY bytes recorded by the bridge, the two-part close, and the
 session row that the store updates only while it is open.
 */
module JumpSession {
  import opened Wrappers
  import opened Text
  import opened Json
  import opened JsonRoundTrip
  import opened ReplayFile
  import opened ReplayCapture

  datatype Status = StatusOpen | StatusClosed | StatusFailed | StatusTerminated

  datatype Row = Row(status: Status, hmac: Option<Str>)

  /**
   A started jump: `pending` is the row update that a suspended `close` is about to run, and `heard` is every payload
   whose recording succeeded, in the order of the calls.
   */
  datatype Session = Session(
    row: Row,
    recorder: Recorder,
    bridgeClosed: bool,
    pending: Option<Row>,
    heard: seq<PtyEvent>)

  datatype Action =
    | Data(event: PtyEvent, write: WriteIo, closes: bool)       // send_user_input or receive_node_output
    | BeginClose(status: Status, error: Str, io: CloseIo, closes: bool)
    | FinishClose(reached: bool)                             // the UPDATE runs, or its await is cut short

  function StartSession(header: Value, integrity: Bytes -> Str): Session {
    Session(Row(StatusOpen, None), Started(header, integrity), false, None, [])
  }

  /** `UPDATE sessions SET … WHERE status = 'open'`. */
  function Update(row: Row, to: Row): Row {
    if row.status == StatusOpen then to else row
  }

  function OnData(s: Session, e: PtyEvent, io: WriteIo, closes: bool): Session {
    if s.bridgeClosed then s
    else
      var r := AfterRecord(s.recorder, Recorded(e), io, closes);
      s.(recorder := r.0, heard := if r.1.None? then s.heard + [e] else s.heard)
  }

  /** `close` up to its first suspension: the replay is closed or failed, and an error there ends the call. */
  function OnBeginClose(s: Session, status: Status, error: Str, io: CloseIo, closes: bool): Session {
    if s.bridgeClosed then s
    else
      match status
      case StatusClosed =>
        var r := AfterClose(s.recorder, io);
        s.(bridgeClosed := true, recorder := r.0,
           pending := if r.1.Ok? then Some(Row(StatusClosed, Some(r.1.value))) else None)
      case StatusOpen => s.(bridgeClosed := true)
      case _ =>
        var r := AfterFail(s.recorder, error, closes);
        s.(bridgeClosed := true, recorder := r.0, pending := if r.1.None? then Some(Row(status, None)) else None)
  }

  function OnFinishClose(s: Session, reached: bool): Session {
    if s.pending.None? then s
    else s.(pending := None, row := if reached then Update(s.row, s.pending.value) else s.row)
  }

  function Next(s: Session, a: Action): Session {
    match a
    case Data(e, io, closes) => OnData(s, e, io, closes)
    case BeginClose(status, error, io, closes) => OnBeginClose(s, status, error, io, closes)
    case FinishClose(reached) => OnFinishClose(s, reached)
  }

  function Run(s: Session, actions: seq<Action>): Session
    decreases |actions|
  {
    if actions == [] then s else Run(Next(s, actions[0]), actions[1..])
  }

  // ---------------------------------------------------------------- what every step keeps

  /** What a terminal row says about the replay. */
  ghost predicate Truthful(row: Row, r: Recorder) {
    match row.status
    case StatusOpen => row.hmac.None?
    case StatusClosed =>
      r.published == Some(FileOf(r.header, r.events)) && row.hmac == Some(r.integrity(FileOf(r.header, r.events)))
    case _ => r.closed && r.published.None? && row.hmac.None?
  }

  ghost predicate SessionOk(s: Session) {
    && Valid(s.recorder) && s.recorder.events == RecordedAll(s.heard)
    && Truthful(s.row, s.recorder)
    && (!s.bridgeClosed ==> s.pending.None? && s.row.status == StatusOpen && s.recorder.published.None?)
    && (s.bridgeClosed && s.row.status == StatusOpen && s.pending.Some? ==>
          s.recorder.closed && s.pending.value.status != StatusOpen && Truthful(s.pending.value, s.recorder))
    && (s.pending.Some? ==> s.row.status == StatusOpen)
  }

  /** Times are floats as JSON prints them, and each payload is input or output. */
  predicate Possible(a: Action) {
    a.Data? ==> IsFloatToken(a.event.seconds) && a.event.stream in {INPUT, OUTPUT}
  }

  predicate AllPossible(actions: seq<Action>) {
    forall a :: a in actions ==> Possible(a)
  }

  lemma DataKeeps(s: Session, e: PtyEvent, io: WriteIo, closes: bool)
    requires SessionOk(s) && EventOk(Recorded(e))
    ensures SessionOk(OnData(s, e, io, closes))
  {
    RecordKeeps(s.recorder, Recorded(e), io, closes);
    assert RecordedAll(s.heard + [e]) == RecordedAll(s.heard) + [Recorded(e)];
  }

  lemma StepKeeps(s: Session, a: Action)
    requires SessionOk(s) && Possible(a)
    ensures SessionOk(Next(s, a))
    ensures s.row.status != StatusOpen ==> Next(s, a).row == s.row
  {
    match a
    case Data(e, io, closes) => DataKeeps(s, e, io, closes);
    case BeginClose(status, error, io, closes) =>
      ClosePublishes(s.recorder, io);
      FailKeeps(s.recorder, error, closes);
    case FinishClose(reached) =>
  }

  lemma {:induction false} RunKeeps(s: Session, actions: seq<Action>)
    requires SessionOk(s) && AllPossible(actions)
    ensures SessionOk(Run(s, actions))
    decreases |actions|
  {
    if actions != [] {
      assert actions[0] in actions;
      StepKeeps(s, actions[0]);
      RunKeeps(Next(s, actions[0]), actions[1..]);
    }
  }

  /** A row leaves `open` at most once: a terminal row never changes again, whatever is called afterwards. */
  lemma {:induction false} RowIsFinal(s: Session, actions: seq<Action>)
    requires SessionOk(s) && AllPossible(actions) && s.row.status != StatusOpen
    ensures Run(s, actions).row == s.row
    decreases |actions|
  {
    if actions != [] {
      assert actions[0] in actions;
      StepKeeps(s, actions[0]);
      RowIsFinal(Next(s, actions[0]), actions[1..]);
    }
  }

  lemma StartOk(header: Value, integrity: Bytes -> Str)
    requires FloatsOk(header)
    ensures SessionOk(StartSession(header, integrity))
  {
  }

  lemma RecordedOk(heard: seq<PtyEvent>)
    requires EventsOk(RecordedAll(heard))
    ensures forall i :: 0 <= i < |heard| ==> IsFloatToken(heard[i].seconds) && heard[i].stream in {INPUT, OUTPUT}
  {
    forall i | 0 <= i < |heard| ensures IsFloatToken(heard[i].seconds) && heard[i].stream in {INPUT, OUTPUT} {
      assert EventOk(RecordedAll(heard)[i]);
    }
  }

  lemma {:induction false} HeaderKept(s: Session, actions: seq<Action>)
    ensures Run(s, actions).recorder.header == s.recorder.header
    ensures Run(s, actions).recorder.integrity == s.recorder.integrity
    decreases |actions|
  {
    if actions != [] { HeaderKept(Next(s, actions[0]), actions[1..]); }
  }

  /**
   Over any run: a closed row carries the integrity code of the published file, and playing that file back gives
   exactly the bytes of every recorded payload, in call order; a failed or terminated row has no published file.
   */
  lemma RowsTellTheTruth(header: Value, integrity: Bytes -> Str, actions: seq<Action>)
    requires FloatsOk(header) && AllPossible(actions)
    ensures var s := Run(StartSession(header, integrity), actions);
            && (s.row.status == StatusClosed ==>
                  s.recorder.published.Some? && s.row.hmac == Some(integrity(s.recorder.published.value))
                  && Playback(s.recorder.published.value) == Some(s.heard))
            && (s.row.status in {StatusFailed, StatusTerminated} ==> s.recorder.published.None? && s.row.hmac.None?)
  {
    StartOk(header, integrity);
    RunKeeps(StartSession(header, integrity), actions);
    HeaderKept(StartSession(header, integrity), actions);
    var s := Run(StartSession(header, integrity), actions);
    RecordedOk(s.heard);
    PlaybackOfFile(header, s.heard);
  }

  // ---------------------------------------------------------------- when a close leaves the row open

  /** Whether the replay lets the close of an open bridge get as far as the row. */
  predicate ReplayLetsClose(r: Recorder, status: Status, io: CloseIo, closes: bool) {
    match status
    case StatusOpen => false
    case StatusClosed => !r.closed && io == NoneRaises
    case _ => r.closed || closes
  }

  lemma {:induction false} NoUpdateLeft(s: Session, actions: seq<Action>)
    requires s.bridgeClosed && s.pending.None?
    ensures Run(s, actions).row == s.row
    decreases |actions|
  {
    if actions != [] { NoUpdateLeft(Next(s, actions[0]), actions[1..]); }
  }

  /**
   The first close decides: the row leaves `open` if and only if the replay lets the close through and its update is
   reached. In particular a session whose recording broke stays open for ever when it is then closed normally.
   */
  lemma FirstCloseDecides(s: Session, status: Status, error: Str, io: CloseIo, closes: bool, reached: bool,
                          later: seq<Action>)
    requires SessionOk(s) && !s.bridgeClosed
    ensures var t := Next(Next(s, BeginClose(status, error, io, closes)), FinishClose(reached));
            Run(t, later).row.status == (if ReplayLetsClose(s.recorder, status, io, closes) && reached then status
                                         else StatusOpen)
  {
    var t := Next(Next(s, BeginClose(status, error, io, closes)), FinishClose(reached));
    ClosePublishes(s.recorder, io);
    FailKeeps(s.recorder, error, closes);
    NoUpdateLeft(t, later);
  }

  /**
   A session that stays open for ever: one write of its recording fails part way, and it is then closed normally. The
   close raises at the recorder, after the bridge has been marked closed.
   */
  lemma BrokenRecordingStaysOpen(nodeName: Str, width: int, height: int, startedAt: int, integrity: Bytes -> Str,
                                 e: PtyEvent, k: nat, later: seq<Action>)
    requires IsFloatToken(e.seconds) && e.stream in {INPUT, OUTPUT}
    ensures var s := Next(StartSession(HeaderValue(nodeName, width, height, startedAt), integrity),
                          Data(e, WroteOnly(k), true));
            var t := Next(Next(s, BeginClose(StatusClosed, [], NoneRaises, true)), FinishClose(true));
            s.recorder.closed && t.bridgeClosed && Run(t, later).row == Row(StatusOpen, None)
  {
    var start := StartSession(HeaderValue(nodeName, width, height, startedAt), integrity);
    var s := Next(start, Data(e, WroteOnly(k), true));
    var t := Next(Next(s, BeginClose(StatusClosed, [], NoneRaises, true)), FinishClose(true));
    HeaderHasNoFloats(nodeName, width, height, startedAt);
    StartOk(HeaderValue(nodeName, width, height, startedAt), integrity);
    StepKeeps(start, Data(e, WroteOnly(k), true));
    NoUpdateLeft(t, later);
  }

  // ---------------------------------------------------------------- the bridge and the store

  /** The `sessions` table. */
  class SessionTable {
    var rows: map<nat, Row>

    constructor ()
      ensures rows == map[]
    {
      rows := map[];
    }

    method Create(id: nat)
      modifies this
      ensures rows == old(rows)[id := Row(StatusOpen, None)]
    {
      rows := rows[id := Row(StatusOpen, None)];
    }

    /** `close_session`: one UPDATE, which touches the row only while it is open. */
    method CloseSession(id: nat, to: Row)
      modifies this
      ensures rows == if id in old(rows) && old(rows)[id].status == StatusOpen then old(rows)[id := to] else old(rows)
    {
      if id in rows && rows[id].status == StatusOpen {
        rows := rows[id := to];
      }
    }
  }

  /** `JumpPtyBridge`, with its recorder and its row of the table. */
  class JumpPtyBridge {
    const id: nat
    const replay: ReplayRecorder
    const store: SessionTable
    var closed: bool
    var pending: Option<Row>
    ghost var heard: seq<PtyEvent>

    ghost function View(): Session
      requires id in store.rows
      reads this, replay, store
    {
      Session(store.rows[id], replay.View(), closed, pending, heard)
    }

    ghost predicate Valid()
      reads this, replay, store
    {
      id in store.rows && SessionOk(View())
    }

    constructor (id: nat, replay: ReplayRecorder, store: SessionTable)
      requires id in store.rows && store.rows[id] == Row(StatusOpen, None)
      requires FloatsOk(replay.header) && replay.View() == Started(replay.header, replay.integrity)
      ensures Valid() && View() == StartSession(replay.header, replay.integrity)
      ensures this.id == id && this.replay == replay && this.store == store
    {
      this.id, this.replay, this.store := id, replay, store;
      closed, pending, heard := false, None, [];
      new;
      assert RecordedAll([]) == [];
    }

    /** `send_user_input` and `receive_node_output`, as far as the recording goes. */
    method OnPayload(e: PtyEvent, io: WriteIo, closes: bool) returns (ok: bool)
      requires Valid() && EventOk(Recorded(e))
      modifies this`heard, replay
      ensures Valid() && View() == Next(old(View()), Data(e, io, closes))
      ensures heard == if ok then old(heard) + [e] else old(heard)
      ensures ok <==> !old(closed) && !old(replay.closed) && io == Wrote
      ensures ok ==> replay.temp == Some(old(replay.temp.value) + Line(EventValue(Recorded(e))))
    {
      if closed { return false; }
      DataKeeps(View(), e, io, closes);
      var raised := replay.Record(Recorded(e), io, closes);
      if raised.None? { heard := heard + [e]; }
      ok := raised.None?;
    }

    /** `close` up to its first suspension. */
    method Close(status: Status, error: Str, io: CloseIo, closes: bool)
      requires Valid()
      modifies this`closed, this`pending, replay
      ensures Valid() && View() == Next(old(View()), BeginClose(status, error, io, closes))
      // Only the first call does anything, and the row update waits only when the replay raised nothing.
      ensures closed && (old(closed) ==> pending == old(pending) && replay.View() == old(replay.View()))
      ensures !old(closed) && status == StatusClosed ==>
                (pending.Some? <==> !old(replay.closed) && io == NoneRaises)
                && (pending.Some? ==>
                      replay.published == old(replay.temp)
                      && pending.value == Row(StatusClosed, Some(replay.integrity(replay.published.value))))
      ensures !old(closed) && status in {StatusFailed, StatusTerminated} ==>
                pending == (if old(replay.closed) || closes then Some(Row(status, None)) else None)
                && replay.closed && replay.published == old(replay.published)
      ensures !old(closed) && status == StatusOpen ==> pending == None && replay.View() == old(replay.View())
    {
      StepKeeps(View(), BeginClose(status, error, io, closes));
      if closed { return; }
      closed := true;
      if status == StatusClosed {
        var result := replay.Close(io);
        if result.Err? { return; }
        pending := Some(Row(StatusClosed, Some(result.value)));
      } else if status == StatusFailed || status == StatusTerminated {
        var raised := replay.Fail(error, closes);
        if raised.Some? { return; }
        pending := Some(Row(status, None));
      }
    }

    /** The store's update, when the suspended close gets to it. */
    method Finish(reached: bool)
      requires Valid()
      modifies this`pending, store
      ensures Valid() && View() == Next(old(View()), FinishClose(reached))
      ensures pending == None
      ensures store.rows[id] == if old(pending).Some? && reached then old(pending).value else old(store.rows[id])
      ensures forall other :: other in old(store.rows) && other != id ==>
                other in store.rows && store.rows[other] == old(store.rows)[other]
    {
      StepKeeps(View(), FinishClose(reached));
      if pending.None? { return; }
      if reached { store.CloseSession(id, pending.value); }
      pending := None;
    }
  }

  // ---------------------------------------------------------------- starting a jump

  datatype Reply = Fine | Refuses | Escapes

  /**
   What the collaborators of `start_jump` answer: `Refuses` is the error that it catches or raises itself, `Escapes` an
   exception that passes through it; `replayCloses` tells whether closing the replay's file succeeds.
   */
  datatype Collaborators = Collaborators(
    command: Reply, target: Reply, hostKey: Reply, heartbeat: Reply, createRow: Reply,
    startReplay: Reply, issue: Reply, openTunnel: Reply, replayCloses: bool, failRow: Reply, audit: Reply)

  datatype JumpResult = JumpStarted | JumpError | OtherError

  class ServerJumpCoordinator {
    const store: SessionTable

    constructor (store: SessionTable)
      ensures this.store == store
    {
      this.store := store;
    }

    /** The checks before the row exists. */
    function Refusal(c: Collaborators): JumpResult {
      if c.command != Fine then if c.command == Refuses && c.audit == Fine then JumpError else OtherError
      else if c.target != Fine then if c.target == Refuses && c.audit == Fine then JumpError else OtherError
      else if c.hostKey != Fine then JumpError
      else if c.heartbeat != Fine then if c.audit == Fine then JumpError else OtherError
      else if c.createRow == Refuses then JumpError
      else if c.createRow == Escapes then OtherError
      else JumpStarted
    }

    /** `fail_session`. */
    method FailRow(id: nat, reply: Reply) returns (ok: bool)
      modifies store
      ensures ok == (reply == Fine)
      ensures store.rows == if ok && id in old(store.rows) && old(store.rows)[id].status == StatusOpen
                then old(store.rows)[id := Row(StatusFailed, None)] else old(store.rows)
    {
      if reply != Fine { return false; }
      store.CloseSession(id, Row(StatusFailed, None));
      return true;
    }

    /** `start_jump`, with the fresh id that the store gives the row. */
    method StartJump(id: nat, c: Collaborators, nodeName: Str, width: int, height: int, startedAt: int,
                     integrity: Bytes -> Str)
      returns (result: JumpResult, replay: Option<ReplayRecorder>)
      requires id !in store.rows
      modifies store
      // Other rows are left alone, and the new row exists exactly when everything before it went well.
      ensures store.rows.Keys == old(store.rows).Keys + if c.command == Fine && c.target == Fine && c.hostKey == Fine
                && c.heartbeat == Fine && c.createRow == Fine then {id} else {}
      ensures forall other :: other in old(store.rows) ==> store.rows[other] == old(store.rows)[other]
      // The jump starts exactly when every collaborator plays along, with an open row and a recorder that has written
      // its header.
      ensures result == JumpStarted <==>
                c.command == Fine && c.target == Fine && c.hostKey == Fine && c.heartbeat == Fine && c.createRow == Fine
                && c.startReplay == Fine && c.issue == Fine && c.openTunnel == Fine && c.audit == Fine
      ensures result == JumpStarted ==>
                store.rows[id] == Row(StatusOpen, None)
                && replay.Some? && replay.value.View() == Started(HeaderValue(nodeName, width, height, startedAt), integrity)
      // Without a row: which error the first thing that goes wrong becomes.
      ensures id !in store.rows ==>
                replay == None
                && result == if c.command != Fine then
                               if c.command == Refuses && c.audit == Fine then JumpError else OtherError
                             else if c.target != Fine then
                               if c.target == Refuses && c.audit == Fine then JumpError else OtherError
                             else if c.hostKey != Fine then JumpError
                             else if c.heartbeat != Fine then if c.audit == Fine then JumpError else OtherError
                             else if c.createRow == Refuses then JumpError else OtherError
      // With a row: the first of the later things that goes wrong decides, and whether the clean-up succeeds.
      ensures id in store.rows && result != JumpStarted ==>
                && (c.startReplay != Fine ==>
                      (result == JumpError <==> c.startReplay == Refuses && c.failRow == Fine && c.audit == Fine))
                && (c.startReplay == Fine && c.issue != Fine ==>
                      (result == JumpError <==> c.issue == Refuses && c.replayCloses && c.failRow == Fine))
                && (c.startReplay == Fine && c.issue == Fine ==>
                      (result == JumpError <==>
                         c.openTunnel == Refuses && c.replayCloses && c.failRow == Fine && c.audit == Fine))
      ensures id in store.rows ==>
                store.rows[id] == Row(
                  if c.failRow == Fine
                     && (c.startReplay == Refuses
                         || (c.startReplay == Fine && c.replayCloses
                             && (c.issue == Refuses || (c.issue == Fine && c.openTunnel == Refuses))))
                  then StatusFailed else StatusOpen, None)
      // Every JumpError after the row was created leaves it failed, and any recorder failed and unpublished.
      ensures result == JumpError && id in store.rows ==>
                store.rows[id] == Row(StatusFailed, None)
                && (replay.Some? ==> replay.value.closed && replay.value.published.None? && replay.value.temp.None?)
      ensures replay.Some? <==> id in store.rows && c.startReplay == Fine
      ensures replay.Some? ==> fresh(replay.value) && replay.value.published.None?
      // Only an exception that is not a JumpError can leave the row open without a started jump.
      ensures id in store.rows && store.rows[id].status == StatusOpen && result != JumpStarted ==> result == OtherError
    {
      replay := None;
      if Refusal(c) != JumpStarted { return Refusal(c), None; }
      store.Create(id);
      if c.startReplay == Escapes { return OtherError, None; }
      if c.startReplay == Refuses {
        var ok := FailRow(id, c.failRow);
        return if ok && c.audit == Fine then JumpError else OtherError, None;
      }
      var recorder := new ReplayRecorder(nodeName, width, height, startedAt, integrity);
      replay := Some(recorder);
      if c.issue == Escapes { return OtherError, replay; }
      if c.issue == Refuses {
        var raised := recorder.Fail(Lit("certificate principal mismatch"), c.replayCloses);
        if raised.Some? { return OtherError, replay; }
        var ok := FailRow(id, c.failRow);
        return if ok then JumpError else OtherError, replay;
      }
      if c.openTunnel == Escapes { return OtherError, replay; }
      if c.openTunnel == Refuses {
        var raised := recorder.Fail(Lit("node SSH connection failed"), c.replayCloses);
        if raised.Some? { return OtherError, replay; }
        var ok := FailRow(id, c.failRow);
        return if ok && c.audit == Fine then JumpError else OtherError, replay;
      }
      result := if c.audit == Fine then JumpStarted else OtherError;
    }
  }
}
