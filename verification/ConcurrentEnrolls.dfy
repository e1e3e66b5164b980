/**
 The limiter under concurrent enrollments: an enrollment is checked when it arrives and recorded when it has failed, and
 others may be checked and recorded in between.
 */
module ConcurrentEnrolls {
  import opened Collections
  import opened Text
  import opened RateLimiter

  /** Enrollments between the limiter's check and their outcome, besides the limiter and the log. */
  datatype Office = Office(limiter: Limiter, log: seq<Entry>, inFlight: map<nat, Attempt>)

  /** An enrollment arrives and is checked, or one that was let through succeeds or fails, at any later time. */
  datatype Event = Arrive(id: nat, attempt: Attempt) | Finish(id: nat)

  predicate Possible(o: Office, e: Event) {
    match e
    case Arrive(id, _) => id !in o.inFlight
    case Finish(id) => id in o.inFlight
  }

  function LogFailure(l: Limiter, a: Attempt): Limiter {
    Recorded(l, a.source, a.token, a.now)
  }

  function OfficeNext(o: Office, e: Event): Office
    requires Possible(o, e)
  {
    match e
    case Arrive(id, a) =>
      var l := if a.wellFormed then Queried(o.limiter, a.source, a.token, a.now) else o.limiter;
      if Admitted(o.limiter, a) then o.(limiter := l, inFlight := o.inFlight[id := a])
      else o.(limiter := LogFailure(l, a), log := o.log + [Entry(a, false)])
    case Finish(id) =>
      var a := o.inFlight[id];
      Office(if a.succeeds then o.limiter else LogFailure(o.limiter, a), o.log + [Entry(a, true)], o.inFlight - {id})
  }

  /** A run of events in which the clock of the checks does not go back and at most `most` are in flight at once. */
  ghost predicate OfficeRun(o: Office, events: seq<Event>, last: Time, most: nat)
    decreases |events|
  {
    events == []
    || (Possible(o, events[0]) && |OfficeNext(o, events[0]).inFlight| <= most
        && last <= Clock(events[0], last)
        && OfficeRun(OfficeNext(o, events[0]), events[1..], Clock(events[0], last), most))
  }

  function Clock(e: Event, last: Time): Time {
    if e.Arrive? then e.attempt.now else last
  }

  ghost function OfficeAfter(o: Office, events: seq<Event>, last: Time, most: nat): Office
    requires OfficeRun(o, events, last, most)
    decreases |events|
  {
    if events == [] then o else OfficeAfter(OfficeNext(o, events[0]), events[1..], Clock(events[0], last), most)
  }

  predicate Within(a: Attempt, byToken: bool, key: Str, start: Time, window: int) {
    KeyOf(a, byToken) == key && start < a.now <= start + window
  }

  /** The enrollments in flight that count against a key within a window. */
  function Pending(inFlight: map<nat, Attempt>, byToken: bool, key: Str, start: Time, window: int): set<nat> {
    set i | i in inFlight && Within(inFlight[i], byToken, key, start, window)
  }

  ghost predicate OfficeKeyOk(o: Office, byToken: bool, key: Str, last: Time) {
    Lazy(Deque(o.limiter, byToken, key), History(o.log, byToken, key), last - o.limiter.window)
  }

  ghost predicate OfficeBound(o: Office, byToken: bool, key: Str, start: Time, most: nat) {
    ReachedFailures(o.log, byToken, key, start, o.limiter.window)
    + |Pending(o.inFlight, byToken, key, start, o.limiter.window)|
    <= Threshold(o.limiter, byToken) + most - 1
  }

  /** The events that add an entry to the log are, for limiter and log, sequential steps or plain appends. */
  lemma OfficeKeyKept(o: Office, e: Event, byToken: bool, key: Str, last: Time)
    requires OfficeKeyOk(o, byToken, key, last) && Possible(o, e) && last <= Clock(e, last)
    ensures OfficeKeyOk(OfficeNext(o, e), byToken, key, Clock(e, last))
  {
    match e
    case Arrive(id, a) => ArriveKeyKept(o, id, a, byToken, key, last);
    case Finish(id) =>
      var a := o.inFlight[id];
      HistoryAppend(o.log, Entry(a, true), byToken, key);
      FinishDeque(o.limiter, a, byToken, key);
      KeyFrom(o, OfficeNext(o, e), byToken, key, last, last,
              if !a.succeeds && KeyOf(a, byToken) == key then [a.now] else []);
  }

  lemma FinishDeque(l: Limiter, a: Attempt, byToken: bool, key: Str)
    ensures Deque(if a.succeeds then l else LogFailure(l, a), byToken, key)
         == Deque(l, byToken, key) + if !a.succeeds && KeyOf(a, byToken) == key then [a.now] else []
  {
    assert Deque(l, byToken, key) + [] == Deque(l, byToken, key);
  }

  /** One key after an event that adds at most one failure to its deque and to its history alike. */
  lemma KeyFrom(o: Office, t: Office, byToken: bool, key: Str, last: Time, now: Time, tail: seq<Time>)
    requires OfficeKeyOk(o, byToken, key, last) && last <= now && |tail| <= 1 && t.limiter.window == o.limiter.window
    requires History(t.log, byToken, key) == History(o.log, byToken, key) + tail
    requires var q := Deque(o.limiter, byToken, key);
             Deque(t.limiter, byToken, key) == q + tail
             || Deque(t.limiter, byToken, key) == Prune(q, now - o.limiter.window) + tail
    ensures OfficeKeyOk(t, byToken, key, now)
  {
    LazyStepTo(Deque(o.limiter, byToken, key), History(o.log, byToken, key), last - o.limiter.window,
               now - o.limiter.window, tail, Deque(t.limiter, byToken, key), History(t.log, byToken, key));
  }

  lemma ArriveShape(o: Office, id: nat, a: Attempt)
    requires id !in o.inFlight
    ensures OfficeNext(o, Arrive(id, a)).limiter.window == o.limiter.window
  {
  }

  lemma ArriveKeyKept(o: Office, id: nat, a: Attempt, byToken: bool, key: Str, last: Time)
    requires OfficeKeyOk(o, byToken, key, last) && id !in o.inFlight && last <= a.now
    ensures OfficeKeyOk(OfficeNext(o, Arrive(id, a)), byToken, key, a.now)
  {
    var tail := if !Admitted(o.limiter, a) && KeyOf(a, byToken) == key then [a.now] else [];
    ArriveHistory(o, id, a, byToken, key);
    ArriveDeque(o, id, a, byToken, key);
    ArriveShape(o, id, a);
    KeyFrom(o, OfficeNext(o, Arrive(id, a)), byToken, key, last, a.now, tail);
  }

  lemma ArriveHistory(o: Office, id: nat, a: Attempt, byToken: bool, key: Str)
    requires id !in o.inFlight
    ensures History(OfficeNext(o, Arrive(id, a)).log, byToken, key)
         == History(o.log, byToken, key) + if !Admitted(o.limiter, a) && KeyOf(a, byToken) == key then [a.now] else []
  {
    HistoryAppend(o.log, Entry(a, false), byToken, key);
    assert History(o.log, byToken, key) + [] == History(o.log, byToken, key);
  }

  lemma ArriveDeque(o: Office, id: nat, a: Attempt, byToken: bool, key: Str)
    requires id !in o.inFlight
    ensures var q, t := Deque(o.limiter, byToken, key), OfficeNext(o, Arrive(id, a));
            var pruned := Prune(q, a.now - o.limiter.window);
            var tail := if !Admitted(o.limiter, a) && KeyOf(a, byToken) == key then [a.now] else [];
            Deque(t.limiter, byToken, key) == q + tail || Deque(t.limiter, byToken, key) == pruned + tail
  {
    var q := Deque(o.limiter, byToken, key);
    assert q + [] == q;
    assert Prune(q, a.now - o.limiter.window) + [] == Prune(q, a.now - o.limiter.window);
  }

  /** An arrival that is let through finds the recorded failures below the threshold; the rest of the sum is in flight. */
  lemma AdmitBound(o: Office, id: nat, a: Attempt, byToken: bool, key: Str, start: Time, last: Time, most: nat)
    requires OfficeKeyOk(o, byToken, key, last) && OfficeBound(o, byToken, key, start, most)
    requires id !in o.inFlight && last <= a.now && Admitted(o.limiter, a) && |o.inFlight[id := a]| <= most
    ensures OfficeBound(OfficeNext(o, Arrive(id, a)), byToken, key, start, most)
  {
    LimitsKept(o, Arrive(id, a));
    if Within(a, byToken, key, start, o.limiter.window) {
      AdmittedHasRoom(Service(o.limiter, o.log), a, byToken, key, start, last);
      SubsetSize(Pending(o.inFlight[id := a], byToken, key, start, o.limiter.window), o.inFlight[id := a].Keys);
      assert |o.inFlight[id := a].Keys| == |o.inFlight[id := a]|;
    } else {
      PendingWithout(o.inFlight[id := a], id, byToken, key, start, o.limiter.window);
      assert o.inFlight[id := a] - {id} == o.inFlight;
    }
  }

  lemma PendingWithout(inFlight: map<nat, Attempt>, id: nat, byToken: bool, key: Str, start: Time, window: int)
    requires id in inFlight
    ensures |Pending(inFlight, byToken, key, start, window)|
         == |Pending(inFlight - {id}, byToken, key, start, window)|
            + if Within(inFlight[id], byToken, key, start, window) then 1 else 0
  {
    assert Pending(inFlight - {id}, byToken, key, start, window) == Pending(inFlight, byToken, key, start, window) - {id};
  }

  lemma ReachedByOne(log: seq<Entry>, a: Attempt, byToken: bool, key: Str, start: Time, window: int)
    ensures ReachedFailures(log + [Entry(a, true)], byToken, key, start, window)
         <= ReachedFailures(log, byToken, key, start, window) + if Within(a, byToken, key, start, window) then 1 else 0
    ensures ReachedFailures(log + [Entry(a, false)], byToken, key, start, window)
         == ReachedFailures(log, byToken, key, start, window)
  {
    ReachedAppend(log, Entry(a, true), byToken, key, start, window);
    ReachedAppend(log, Entry(a, false), byToken, key, start, window);
  }

  lemma FinishBound(o: Office, id: nat, byToken: bool, key: Str, start: Time, most: nat)
    requires id in o.inFlight && OfficeBound(o, byToken, key, start, most)
    ensures OfficeBound(OfficeNext(o, Finish(id)), byToken, key, start, most)
  {
    LimitsKept(o, Finish(id));
    ReachedByOne(o.log, o.inFlight[id], byToken, key, start, o.limiter.window);
    PendingWithout(o.inFlight, id, byToken, key, start, o.limiter.window);
  }

  lemma RefuseBound(o: Office, id: nat, a: Attempt, byToken: bool, key: Str, start: Time, most: nat)
    requires id !in o.inFlight && !Admitted(o.limiter, a) && OfficeBound(o, byToken, key, start, most)
    ensures OfficeBound(OfficeNext(o, Arrive(id, a)), byToken, key, start, most)
  {
    LimitsKept(o, Arrive(id, a));
    ReachedByOne(o.log, a, byToken, key, start, o.limiter.window);
  }

  lemma OfficeBoundKept(o: Office, e: Event, byToken: bool, key: Str, start: Time, last: Time, most: nat)
    requires OfficeKeyOk(o, byToken, key, last) && OfficeBound(o, byToken, key, start, most)
    requires Possible(o, e) && last <= Clock(e, last) && |OfficeNext(o, e).inFlight| <= most
    ensures OfficeBound(OfficeNext(o, e), byToken, key, start, most)
  {
    if e.Finish? {
      FinishBound(o, e.id, byToken, key, start, most);
    } else if Admitted(o.limiter, e.attempt) {
      AdmitBound(o, e.id, e.attempt, byToken, key, start, last, most);
    } else {
      RefuseBound(o, e.id, e.attempt, byToken, key, start, most);
    }
  }

  lemma LimitsKept(o: Office, e: Event)
    requires Possible(o, e)
    ensures var t := OfficeNext(o, e).limiter;
            t.window == o.limiter.window && t.maxSourceFailures == o.limiter.maxSourceFailures
            && t.maxTokenFailures == o.limiter.maxTokenFailures
  {
  }

  lemma {:induction false} LimitsHold(o: Office, events: seq<Event>, last: Time, most: nat)
    requires OfficeRun(o, events, last, most)
    ensures var t := OfficeAfter(o, events, last, most).limiter;
            t.window == o.limiter.window && t.maxSourceFailures == o.limiter.maxSourceFailures
            && t.maxTokenFailures == o.limiter.maxTokenFailures
    decreases |events|
  {
    if events != [] {
      LimitsKept(o, events[0]);
      LimitsHold(OfficeNext(o, events[0]), events[1..], Clock(events[0], last), most);
    }
  }

  ghost predicate OfficeOk(o: Office, byToken: bool, key: Str, start: Time, last: Time, most: nat) {
    OfficeKeyOk(o, byToken, key, last) && OfficeBound(o, byToken, key, start, most)
  }

  lemma OfficeStepKeeps(o: Office, e: Event, last: Time, most: nat, byToken: bool, key: Str, start: Time)
    requires OfficeOk(o, byToken, key, start, last, most)
    requires Possible(o, e) && last <= Clock(e, last) && |OfficeNext(o, e).inFlight| <= most
    ensures OfficeOk(OfficeNext(o, e), byToken, key, start, Clock(e, last), most)
  {
    OfficeKeyKept(o, e, byToken, key, last);
    OfficeBoundKept(o, e, byToken, key, start, last, most);
  }

  lemma {:induction false} OfficeHolds(o: Office, events: seq<Event>, last: Time, most: nat,
                                       byToken: bool, key: Str, start: Time) returns (end: Time)
    requires OfficeRun(o, events, last, most) && OfficeOk(o, byToken, key, start, last, most)
    ensures OfficeOk(OfficeAfter(o, events, last, most), byToken, key, start, end, most)
    decreases |events|
  {
    end := last;
    if events != [] {
      OfficeStepKeeps(o, events[0], last, most, byToken, key, start);
      end := OfficeHolds(OfficeNext(o, events[0]), events[1..], Clock(events[0], last), most, byToken, key, start);
    }
  }

  /** A limiter that has seen nothing. */
  function NewOffice(maxSource: int, maxToken: int, window: int): Office {
    Office(Limiter(maxSource, maxToken, window, map[], map[]), [], map[])
  }

  lemma NewOfficeOk(maxSource: int, maxToken: int, window: int, byToken: bool, key: Str, start: Time, last: Time,
                    most: nat)
    requires 0 < most
    ensures OfficeOk(NewOffice(maxSource, maxToken, window), byToken, key, start, last, most)
  {
    assert Pending(map[], byToken, key, start, window) == {};
  }

  lemma BoundOfOffice(o: Office, byToken: bool, key: Str, start: Time, last: Time, most: nat)
    requires OfficeOk(o, byToken, key, start, last, most)
    ensures ReachedFailures(o.log, byToken, key, start, o.limiter.window) <= Threshold(o.limiter, byToken) + most - 1
  {
  }

  /**
   With up to `most` enrollments between their check and their outcome at any time, and a clock that does not go back, no
   half-open window holds more failed attempts that reached the store than the threshold and `most` - 1 together.
   */
  lemma FailuresPerWindowConcurrent(maxSource: int, maxToken: int, window: int, events: seq<Event>, last: Time,
                                    most: nat, byToken: bool, key: Str, start: Time)
    requires 0 < most && OfficeRun(NewOffice(maxSource, maxToken, window), events, last, most)
    ensures var t := OfficeAfter(NewOffice(maxSource, maxToken, window), events, last, most);
            && t.limiter.window == window
            && ReachedFailures(t.log, byToken, key, start, t.limiter.window)
               <= (var max := if byToken then maxToken else maxSource; if max < 0 then 0 else max) + most - 1
  {
    var o := NewOffice(maxSource, maxToken, window);
    NewOfficeOk(maxSource, maxToken, window, byToken, key, start, last, most);
    LimitsHold(o, events, last, most);
    var end := OfficeHolds(o, events, last, most, byToken, key, start);
    BoundOfOffice(OfficeAfter(o, events, last, most), byToken, key, start, end, most);
  }

  // ---------------------------------------------------------------- the bound is reached

  /** An enrollment that gets as far as the store and fails there. */
  function Failing(source: Str, token: Str, now: Time): Attempt {
    Attempt(source, token, now, true, false)
  }

  function Same(t: Time, n: nat): seq<Time> {
    if n == 0 then [] else Same(t, n - 1) + [t]
  }

  lemma {:induction false} SameAt(t: Time, n: nat)
    ensures |Same(t, n)| == n && forall i :: 0 <= i < n ==> Same(t, n)[i] == t
  {
    if n > 0 { SameAt(t, n - 1); }
  }

  lemma PruneSame(t: Time, n: nat, cutoff: Time)
    requires cutoff < t
    ensures Prune(Same(t, n), cutoff) == Same(t, n) && |Same(t, n)| == n
  {
    SameAt(t, n);
  }

  /** The limiter has recorded `n` failures of one attempt, under its source and under its token. */
  ghost predicate Counted(l: Limiter, a: Attempt, n: nat, threshold: nat, window: int) {
    && l.maxSourceFailures == threshold && l.maxTokenFailures == threshold && l.window == window
    && At(l.sources, a.source) == Same(a.now, n) && At(l.tokens, a.token) == Same(a.now, n)
  }

  lemma ArriveBelow(o: Office, id: nat, a: Attempt, n: nat, threshold: nat, window: int)
    requires Counted(o.limiter, a, n, threshold, window) && n < threshold && 0 < window
    requires id !in o.inFlight && a.wellFormed
    ensures var t := OfficeNext(o, Arrive(id, a));
            Counted(t.limiter, a, n, threshold, window) && t.log == o.log && t.inFlight == o.inFlight[id := a]
  {
    PruneSame(a.now, n, a.now - window);
  }

  lemma FinishFailing(o: Office, id: nat, a: Attempt, n: nat, threshold: nat, window: int)
    requires Counted(o.limiter, a, n, threshold, window) && id in o.inFlight && o.inFlight[id] == a && !a.succeeds
    ensures var t := OfficeNext(o, Finish(id));
            Counted(t.limiter, a, n + 1, threshold, window) && t.log == o.log + [Entry(a, true)]
            && t.inFlight == o.inFlight - {id}
  {
  }

  /** The failures of `a` that are in the log, seen from the window that just holds it. */
  function Reached(log: seq<Entry>, a: Attempt, byToken: bool, window: int): nat {
    ReachedFailures(log, byToken, KeyOf(a, byToken), a.now - 1, window)
  }

  lemma OneMoreReached(log: seq<Entry>, a: Attempt, byToken: bool, window: int)
    requires 0 < window && !a.succeeds
    ensures Reached(log + [Entry(a, true)], a, byToken, window) == Reached(log, a, byToken, window) + 1
  {
    ReachedAppend(log, Entry(a, true), byToken, KeyOf(a, byToken), a.now - 1, window);
  }

  lemma RunCons(o: Office, e: Event, rest: seq<Event>, last: Time, most: nat)
    requires Possible(o, e) && |OfficeNext(o, e).inFlight| <= most && last <= Clock(e, last)
    requires OfficeRun(OfficeNext(o, e), rest, Clock(e, last), most)
    ensures OfficeRun(o, [e] + rest, last, most)
    ensures OfficeAfter(o, [e] + rest, last, most) == OfficeAfter(OfficeNext(o, e), rest, Clock(e, last), most)
  {
    assert ([e] + rest)[1..] == rest;
  }

  /** Enrollments 0 to `n` - 1 in flight, all the same attempt. */
  function Flying(a: Attempt, n: nat): map<nat, Attempt> {
    if n == 0 then map[] else Flying(a, n - 1)[n - 1 := a]
  }

  lemma {:induction false} FlyingIds(a: Attempt, n: nat)
    ensures |Flying(a, n)| == n && forall i :: i in Flying(a, n) ==> i < n
  {
    if n > 0 { FlyingIds(a, n - 1); }
  }

  lemma LastToLand(a: Attempt, n: nat)
    requires n > 0
    ensures n - 1 in Flying(a, n) && Flying(a, n)[n - 1] == a && Flying(a, n) - {n - 1} == Flying(a, n - 1)
  {
    FlyingIds(a, n - 1);
  }

  function Finishing(n: nat): seq<Event> {
    if n == 0 then [] else [Finish(n - 1)] + Finishing(n - 1)
  }

  /** `n` more arrive while `done` are in flight, and then all finish. */
  function Overlapping(a: Attempt, done: nat, n: nat): seq<Event>
    decreases n
  {
    if n == 0 then Finishing(done) else [Arrive(done, a)] + Overlapping(a, done + 1, n - 1)
  }

  /** `c` failures are recorded, `n` enrollments are in flight, and `reached` failures are in the window. */
  ghost predicate Stage(o: Office, a: Attempt, c: nat, n: nat, threshold: nat, window: int, byToken: bool, reached: nat) {
    && Counted(o.limiter, a, c, threshold, window) && o.inFlight == Flying(a, n)
    && 0 < window && a.wellFormed && !a.succeeds && Reached(o.log, a, byToken, window) == reached
  }

  lemma StageArrives(o: Office, a: Attempt, c: nat, n: nat, threshold: nat, window: int, byToken: bool, reached: nat)
    requires Stage(o, a, c, n, threshold, window, byToken, reached) && c < threshold
    ensures Possible(o, Arrive(n, a)) && |OfficeNext(o, Arrive(n, a)).inFlight| == n + 1
    ensures Stage(OfficeNext(o, Arrive(n, a)), a, c, n + 1, threshold, window, byToken, reached)
  {
    FlyingIds(a, n);
    FlyingIds(a, n + 1);
    ArriveBelow(o, n, a, c, threshold, window);
  }

  lemma StageFinishes(o: Office, a: Attempt, c: nat, n: nat, threshold: nat, window: int, byToken: bool, reached: nat)
    requires Stage(o, a, c, n + 1, threshold, window, byToken, reached)
    ensures Possible(o, Finish(n)) && |OfficeNext(o, Finish(n)).inFlight| == n
    ensures Stage(OfficeNext(o, Finish(n)), a, c + 1, n, threshold, window, byToken, reached + 1)
  {
    LastToLand(a, n + 1);
    FlyingIds(a, n);
    FinishFailing(o, n, a, c, threshold, window);
    OneMoreReached(o.log, a, byToken, window);
  }

  ghost predicate RunReaches(o: Office, events: seq<Event>, last: Time, most: nat, a: Attempt, byToken: bool,
                             window: int, total: nat)
  {
    OfficeRun(o, events, last, most)
    && Reached(OfficeAfter(o, events, last, most).log, a, byToken, window) == total
  }

  lemma InFront(o: Office, e: Event, rest: seq<Event>, last: Time, most: nat, a: Attempt, byToken: bool, window: int,
                total: nat)
    requires Possible(o, e) && |OfficeNext(o, e).inFlight| <= most && last <= Clock(e, last)
    requires RunReaches(OfficeNext(o, e), rest, Clock(e, last), most, a, byToken, window, total)
    ensures RunReaches(o, [e] + rest, last, most, a, byToken, window, total)
  {
    RunCons(o, e, rest, last, most);
  }

  lemma {:induction false} FinishingRun(o: Office, a: Attempt, c: nat, n: nat, most: nat, last: Time,
                                        threshold: nat, window: int, byToken: bool, reached: nat)
    requires Stage(o, a, c, n, threshold, window, byToken, reached) && n <= most
    ensures RunReaches(o, Finishing(n), last, most, a, byToken, window, reached + n)
    decreases n
  {
    if n > 0 {
      StageFinishes(o, a, c, n - 1, threshold, window, byToken, reached);
      var t := OfficeNext(o, Finish(n - 1));
      FinishingRun(t, a, c + 1, n - 1, most, last, threshold, window, byToken, reached + 1);
      assert Clock(Finish(n - 1), last) == last && reached + 1 + (n - 1) == reached + n;
      InFront(o, Finish(n - 1), Finishing(n - 1), last, most, a, byToken, window, reached + n);
    }
  }

  /** `n` more arrive while `done` are in flight, all are let through, and then all fail. */
  lemma {:induction false} OverlappingRun(o: Office, a: Attempt, c: nat, done: nat, n: nat, most: nat, last: Time,
                                          threshold: nat, window: int, byToken: bool, reached: nat)
    requires Stage(o, a, c, done, threshold, window, byToken, reached)
    requires c < threshold && done + n <= most && last <= a.now
    ensures RunReaches(o, Overlapping(a, done, n), last, most, a, byToken, window, reached + done + n)
    decreases n
  {
    if n == 0 {
      FinishingRun(o, a, c, done, most, last, threshold, window, byToken, reached);
    } else {
      StageArrives(o, a, c, done, threshold, window, byToken, reached);
      OverlappingRun(OfficeNext(o, Arrive(done, a)), a, c, done + 1, n - 1, most, a.now, threshold, window, byToken,
                     reached);
      InFront(o, Arrive(done, a), Overlapping(a, done + 1, n - 1), last, most, a, byToken, window, reached + done + n);
    }
  }

  /** `n` enrollments one after the other, and then the given events. */
  function OneByOne(a: Attempt, n: nat, after: seq<Event>): seq<Event> {
    if n == 0 then after else [Arrive(0, a)] + ([Finish(0)] + OneByOne(a, n - 1, after))
  }

  lemma {:induction false} OneByOneRun(o: Office, a: Attempt, c: nat, n: nat, most: nat, last: Time,
                                       threshold: nat, window: int, byToken: bool, reached: nat)
    requires Stage(o, a, c, 0, threshold, window, byToken, reached)
    requires c + n < threshold && 0 < most && last <= a.now
    ensures RunReaches(o, OneByOne(a, n, Overlapping(a, 0, most)), last, most, a, byToken, window, reached + n + most)
    decreases n
  {
    if n == 0 {
      OverlappingRun(o, a, c, 0, most, most, last, threshold, window, byToken, reached);
    } else {
      var mid, rest := OfficeNext(o, Arrive(0, a)), OneByOne(a, n - 1, Overlapping(a, 0, most));
      StageArrives(o, a, c, 0, threshold, window, byToken, reached);
      StageFinishes(mid, a, c, 0, threshold, window, byToken, reached);
      OneByOneRun(OfficeNext(mid, Finish(0)), a, c + 1, n - 1, most, a.now, threshold, window, byToken, reached + 1);
      InFront(mid, Finish(0), rest, a.now, most, a, byToken, window, reached + n + most);
      InFront(o, Arrive(0, a), [Finish(0)] + rest, last, most, a, byToken, window, reached + n + most);
    }
  }

  lemma NewStage(a: Attempt, threshold: nat, window: int, byToken: bool)
    requires 0 < window && a.wellFormed && !a.succeeds
    ensures Stage(NewOffice(threshold, threshold, window), a, 0, 0, threshold, window, byToken, 0)
  {
  }

  lemma ReachesInFull(o: Office, events: seq<Event>, source: Str, token: Str, now: Time, most: nat, byToken: bool,
                      window: int, total: nat)
    requires RunReaches(o, events, now, most, Failing(source, token, now), byToken, window, total)
    ensures OfficeRun(o, events, now, most)
    ensures ReachedFailures(OfficeAfter(o, events, now, most).log, byToken, if byToken then token else source, now - 1,
                            window) == total
  {
  }

  /**
   The bound is exact: for every threshold, window and number of overlapping enrollments there is a run that reaches it,
   one failure short of the threshold and then `most` enrollments that all pass the check before any has failed.
   */
  lemma ConcurrentBoundIsReached(source: Str, token: Str, now: Time, threshold: nat, window: int, most: nat, byToken: bool)
    returns (events: seq<Event>)
    requires 0 < threshold && 0 < window && 0 < most
    ensures var o, key := NewOffice(threshold, threshold, window), if byToken then token else source;
            OfficeRun(o, events, now, most)
            && ReachedFailures(OfficeAfter(o, events, now, most).log, byToken, key, now - 1, window)
               == threshold + most - 1
  {
    var a := Failing(source, token, now);
    events := OneByOne(a, threshold - 1, Overlapping(a, 0, most));
    NewStage(a, threshold, window, byToken);
    var o := NewOffice(threshold, threshold, window);
    OneByOneRun(o, a, 0, threshold - 1, most, now, threshold, window, byToken, 0);
    ReachesInFull(o, events, source, token, now, most, byToken, window, threshold + most - 1);
  }
}
