/**
 `EnrollmentRateLimiter` (src/server/enrollment.py): a failure is appended to a deque and dropped from its front, when
 the deque is next counted, once it has left the window.
 */
module RateLimiter {
  import opened Text

  /** Instants, in the clock's own resolution. */
  type Time = int

  // ---------------------------------------------------------------- one deque against its full history

  /** The loop of `_count`: stale failures leave from the front, up to the first fresh one. */
  function Prune(q: seq<Time>, cutoff: Time): seq<Time> {
    if q != [] && q[0] <= cutoff then Prune(q[1..], cutoff) else q
  }

  /** The failures of the full history that are strictly newer than `cutoff`. */
  function CountNewer(h: seq<Time>, cutoff: Time): nat {
    if h == [] then 0
    else CountNewer(h[..|h| - 1], cutoff) + if h[|h| - 1] > cutoff then 1 else 0
  }

  function FirstNewer(h: seq<Time>, cutoff: Time): (k: nat)
    ensures k <= |h|
    ensures forall i :: 0 <= i < k ==> h[i] <= cutoff
    ensures k < |h| ==> h[k] > cutoff
  {
    if h == [] || h[0] > cutoff then 0 else 1 + FirstNewer(h[1..], cutoff)
  }

  /** The deque is what is left of the history, and all that was dropped is stale at `cutoff`. */
  ghost predicate Lazy(q: seq<Time>, h: seq<Time>, cutoff: Time) {
    && |q| <= |h| && q == h[|h| - |q|..]
    && forall i :: 0 <= i < |h| - |q| ==> h[i] <= cutoff
  }

  lemma {:induction false} PruneSuffix(q: seq<Time>, cutoff: Time)
    ensures Prune(q, cutoff) == q[FirstNewer(q, cutoff)..]
  {
    if q != [] && q[0] <= cutoff { PruneSuffix(q[1..], cutoff); }
  }

  lemma FirstNewerIs(h: seq<Time>, cutoff: Time, k: nat)
    requires k <= |h| && forall i :: 0 <= i < k ==> h[i] <= cutoff
    requires k < |h| ==> h[k] > cutoff
    ensures FirstNewer(h, cutoff) == k
  {
  }

  lemma DropTwice(h: seq<Time>, d: nat, k: nat)
    requires d + k <= |h|
    ensures h[d..][k..] == h[d + k..]
  {
  }

  /** What is dropped twice over is a longer prefix of the history, stale as far as both cutoffs say. */
  lemma PrunedPrefix(q: seq<Time>, h: seq<Time>, cutoff: Time, other: Time, bound: Time)
    requires Lazy(q, h, cutoff) && cutoff <= bound && other <= bound
    ensures Lazy(Prune(q, other), h, bound)
    ensures |Prune(q, other)| == |q| - FirstNewer(q, other)
  {
    var d, k := |h| - |q|, FirstNewer(q, other);
    PruneSuffix(q, other);
    DropTwice(h, d, k);
    forall i | 0 <= i < d + k ensures h[i] <= bound {
      if d <= i { assert h[d..][i - d] == h[i]; }
    }
  }

  /** Counting at a later instant drops exactly the history's stale prefix, whatever was dropped before. */
  lemma PruneKeepsLazy(q: seq<Time>, h: seq<Time>, cutoff: Time, later: Time)
    requires Lazy(q, h, cutoff) && cutoff <= later
    ensures Lazy(Prune(q, later), h, later)
    ensures |Prune(q, later)| == |h| - FirstNewer(h, later)
  {
    PrunedPrefix(q, h, cutoff, later, later);
    var d, k := |h| - |q|, FirstNewer(q, later);
    if k < |q| { assert h[d..][k] == h[d + k]; }
    FirstNewerIs(h, later, d + k);
  }

  lemma AppendKeepsLazy(q: seq<Time>, h: seq<Time>, cutoff: Time, t: Time)
    requires Lazy(q, h, cutoff)
    ensures Lazy(q + [t], h + [t], cutoff)
  {
  }

  /** Nothing stale stands behind the first fresh failure. */
  ghost predicate FreshFrom(h: seq<Time>, k: nat, cutoff: Time) {
    forall i :: k <= i < |h| ==> h[i] > cutoff
  }

  lemma FreshAppend(init: seq<Time>, t: Time, k: nat, cutoff: Time)
    requires k <= |init|
    ensures FreshFrom(init + [t], k, cutoff) <==> FreshFrom(init, k, cutoff) && t > cutoff
  {
    var h := init + [t];
    assert forall i :: 0 <= i < |init| ==> h[i] == init[i];
    if FreshFrom(h, k, cutoff) { assert h[|init|] > cutoff; }
  }

  lemma FirstNewerPush(init: seq<Time>, t: Time, cutoff: Time)
    ensures FirstNewer(init + [t], cutoff)
         == if FirstNewer(init, cutoff) == |init| && t <= cutoff then |init| + 1 else FirstNewer(init, cutoff)
  {
    var h, m := init + [t], FirstNewer(init, cutoff);
    FirstNewerIs(h, cutoff, if m == |init| && t <= cutoff then |init| + 1 else m);
  }

  lemma {:induction false} CountBound(h: seq<Time>, cutoff: Time)
    ensures CountNewer(h, cutoff) <= |h| - FirstNewer(h, cutoff)
    ensures CountNewer(h, cutoff) == |h| - FirstNewer(h, cutoff) <==> FreshFrom(h, FirstNewer(h, cutoff), cutoff)
  {
    if h != [] {
      var init, t := h[..|h| - 1], h[|h| - 1];
      assert h == init + [t];
      CountBound(init, cutoff);
      FirstNewerPush(init, t, cutoff);
      FreshAppend(init, t, FirstNewer(init, cutoff), cutoff);
    }
  }

  predicate Sorted(h: seq<Time>) {
    forall i, j :: 0 <= i < j < |h| ==> h[i] <= h[j]
  }

  /**
   The refinement: at query times that never go back, the length of the lazily pruned deque is never less than the
   number of failures in the window, and it is that number exactly when no stale failure was appended behind a fresh
   one; so always when failures are appended in order.
   */
  lemma DequeCountsWindow(q: seq<Time>, h: seq<Time>, cutoff: Time, later: Time)
    requires Lazy(q, h, cutoff) && cutoff <= later
    ensures |Prune(q, later)| >= CountNewer(h, later)
    ensures |Prune(q, later)| == CountNewer(h, later) <==> FreshFrom(h, FirstNewer(h, later), later)
    ensures Sorted(h) ==> |Prune(q, later)| == CountNewer(h, later)
  {
    PruneKeepsLazy(q, h, cutoff, later);
    CountBound(h, later);
    if Sorted(h) {
      var k := FirstNewer(h, later);
      forall i | k <= i < |h| ensures h[i] > later {
        assert h[k] <= h[i];
      }
    }
  }

  // ---------------------------------------------------------------- runs of one deque

  /** What happens to one deque: it is counted, or a failure is appended, at whatever instant. */
  datatype Op = Query(now: Time) | Append(at: Time)

  /** What one operation does to the deque, and to its history. */
  function OpOnDeque(q: seq<Time>, op: Op, window: int): seq<Time> {
    match op
    case Query(now) => Prune(q, now - window)
    case Append(at) => q + [at]
  }

  function OpOnHistory(h: seq<Time>, op: Op): seq<Time> {
    if op.Append? then h + [op.at] else h
  }

  /** The deque that a run of operations leaves, from an empty one. */
  function DequeAfterOps(ops: seq<Op>, window: int): seq<Time> {
    if ops == [] then [] else OpOnDeque(DequeAfterOps(ops[..|ops| - 1], window), ops[|ops| - 1], window)
  }

  /** The full history of the same run. */
  function Appended(ops: seq<Op>): seq<Time> {
    if ops == [] then [] else OpOnHistory(Appended(ops[..|ops| - 1]), ops[|ops| - 1])
  }

  /** No query of the run is later than `now`. */
  ghost predicate QueriedBy(ops: seq<Op>, now: Time) {
    forall i :: 0 <= i < |ops| && ops[i].Query? ==> ops[i].now <= now
  }

  lemma OpKeepsLazy(q: seq<Time>, h: seq<Time>, op: Op, window: int, now: Time)
    requires Lazy(q, h, now - window) && (op.Query? ==> op.now <= now)
    ensures Lazy(OpOnDeque(q, op, window), OpOnHistory(h, op), now - window)
  {
    match op
    case Query(t) => PrunedPrefix(q, h, now - window, t - window, now - window);
    case Append(at) => AppendKeepsLazy(q, h, now - window, at);
  }

  /** Interleaved queries and appends in any order leave the deque lazy as of their latest query. */
  lemma {:induction false} LazyAfterOps(ops: seq<Op>, window: int, now: Time)
    requires QueriedBy(ops, now)
    ensures Lazy(DequeAfterOps(ops, window), Appended(ops), now - window)
  {
    if ops != [] {
      var init := ops[..|ops| - 1];
      LazyAfterOps(init, window, now);
      OpKeepsLazy(DequeAfterOps(init, window), Appended(init), ops[|ops| - 1], window, now);
    }
  }

  lemma QueryLast(ops: seq<Op>, window: int, now: Time)
    ensures DequeAfterOps(ops + [Query(now)], window) == Prune(DequeAfterOps(ops, window), now - window)
  {
    assert (ops + [Query(now)])[..|ops|] == ops;
  }

  /**
   The refinement over runs: after any queries and any appends, those of concurrent enrollments out of order included, a
   query that is not earlier than those before it never undercounts the full history, and counts it exactly if and only
   if no stale failure stands behind a fresh one.
   */
  lemma RunsCountWindow(ops: seq<Op>, window: int, now: Time)
    requires QueriedBy(ops, now)
    ensures var h, counted := Appended(ops), |DequeAfterOps(ops + [Query(now)], window)|;
            && counted >= CountNewer(h, now - window)
            && (counted == CountNewer(h, now - window) <==> FreshFrom(h, FirstNewer(h, now - window), now - window))
            && (Sorted(h) ==> counted == CountNewer(h, now - window))
  {
    var q, h, cutoff := DequeAfterOps(ops, window), Appended(ops), now - window;
    QueryLast(ops, window, now);
    LazyAfterOps(ops, window, now);
    LazyCounts(q, h, cutoff);
  }

  lemma LazyCounts(q: seq<Time>, h: seq<Time>, cutoff: Time)
    requires Lazy(q, h, cutoff)
    ensures |Prune(q, cutoff)| >= CountNewer(h, cutoff)
    ensures |Prune(q, cutoff)| == CountNewer(h, cutoff) <==> FreshFrom(h, FirstNewer(h, cutoff), cutoff)
    ensures Sorted(h) ==> |Prune(q, cutoff)| == CountNewer(h, cutoff)
  {
    DequeCountsWindow(q, h, cutoff, cutoff);
  }

  lemma OpsPush(ops: seq<Op>, op: Op, window: int)
    ensures DequeAfterOps(ops + [op], window) == OpOnDeque(DequeAfterOps(ops, window), op, window)
    ensures Appended(ops + [op]) == OpOnHistory(Appended(ops), op)
  {
    assert (ops + [op])[..|ops|] == ops;
  }

  lemma CountPush(h: seq<Time>, t: Time, cutoff: Time)
    ensures CountNewer(h + [t], cutoff) == CountNewer(h, cutoff) + if t > cutoff then 1 else 0
  {
    assert (h + [t])[..|h|] == h;
  }

  lemma PruneOne(t: Time, cutoff: Time)
    ensures Prune([] + [t], cutoff) == if t <= cutoff then [] else [t]
  {
    assert ([] + [t])[1..] == [];
  }

  /** A stale append behind a fresh one overcounts: at 100, with a window of 60, the failure at 30 is still counted. */
  lemma OutOfOrderOvercounts()
    ensures var ops := [] + [Append(90)] + [Append(30)];
            QueriedBy(ops, 100) && |DequeAfterOps(ops + [Query(100)], 60)| == 2 && CountNewer(Appended(ops), 100 - 60) == 1
  {
    var one := [] + [Append(90)];
    OpsPush([], Append(90), 60);
    OpsPush(one, Append(30), 60);
    OpsPush(one + [Append(30)], Query(100), 60);
    CountPush([], 90, 40);
    CountPush([] + [90], 30, 40);
    assert ([] + [90] + [30])[0] == 90;
  }

  lemma {:induction false} CountSorted(h: seq<Time>, cutoff: Time)
    requires Sorted(h)
    ensures CountNewer(h, cutoff) == |h| - FirstNewer(h, cutoff)
  {
    CountBound(h, cutoff);
    var k := FirstNewer(h, cutoff);
    forall i | k <= i < |h| ensures h[i] > cutoff {
      assert h[k] <= h[i];
    }
  }

  /** For sorted appends and a query at any instant: it undercounts if and only if a failure it should count was dropped. */
  lemma NoUndercountIff(q: seq<Time>, h: seq<Time>, cutoff: Time, later: Time)
    requires Lazy(q, h, cutoff) && Sorted(h)
    ensures |Prune(q, later)| >= CountNewer(h, later) <==> forall i :: 0 <= i < |h| - |q| ==> h[i] <= later
  {
    var d, k := |h| - |q|, FirstNewer(h, later);
    assert forall i :: 0 <= i < |q| ==> q[i] == h[d + i];
    CountSorted(h, later);
    PruneSuffix(q, later);
    if k >= d {
      FirstNewerIs(q, later, k - d);
    } else {
      if q != [] { assert h[k] <= h[d] == q[0]; }
      FirstNewerIs(q, later, 0);
    }
  }

  /** The same over runs, whatever the clock does between their queries. */
  lemma BackwardClockIff(ops: seq<Op>, window: int, now: Time)
    requires Sorted(Appended(ops))
    ensures var q, h := DequeAfterOps(ops, window), Appended(ops);
            |q| <= |h|
            && (|DequeAfterOps(ops + [Query(now)], window)| >= CountNewer(h, now - window)
                <==> forall i :: 0 <= i < |h| - |q| ==> h[i] <= now - window)
  {
    var latest := Latest(ops);
    QueryLast(ops, window, now);
    LatestIsLatest(ops);
    LazyAfterOps(ops, window, latest);
    NoUndercountIff(DequeAfterOps(ops, window), Appended(ops), latest - window, now - window);
  }

  function Latest(ops: seq<Op>): Time {
    if ops == [] then 0
    else
      var t := Latest(ops[..|ops| - 1]);
      if ops[|ops| - 1].Query? && ops[|ops| - 1].now > t then ops[|ops| - 1].now else t
  }

  lemma {:induction false} LatestIsLatest(ops: seq<Op>)
    ensures QueriedBy(ops, Latest(ops))
  {
    if ops != [] { LatestIsLatest(ops[..|ops| - 1]); }
  }

  /** A clock that goes back undercounts: the failure pruned at 100 is within the window again at 50. */
  lemma BackwardClockUndercounts()
    ensures var ops := [] + [Append(30)] + [Query(100)];
            |DequeAfterOps(ops + [Query(50)], 60)| == 0 && CountNewer(Appended(ops), 50 - 60) == 1
  {
    var one := [] + [Append(30)];
    OpsPush([], Append(30), 60);
    OpsPush(one, Query(100), 60);
    OpsPush(one + [Query(100)], Query(50), 60);
    PruneOne(30, 40);
    CountPush([], 30, -10);
  }

  // ---------------------------------------------------------------- the limiter

  datatype Limiter = Limiter(
    maxSourceFailures: int,
    maxTokenFailures: int,
    window: int,
    sources: map<Str, seq<Time>>,
    tokens: map<Str, seq<Time>>)

  /** A `defaultdict(deque)` lookup. */
  function At(m: map<Str, seq<Time>>, key: Str): seq<Time> {
    if key in m then m[key] else []
  }

  predicate SourceLimited(l: Limiter, source: Str, now: Time) {
    |Prune(At(l.sources, source), now - l.window)| >= l.maxSourceFailures
  }

  predicate TokenLimited(l: Limiter, token: Str, now: Time) {
    |Prune(At(l.tokens, token), now - l.window)| >= l.maxTokenFailures
  }

  /** `is_limited`: the token's deque is counted, and so pruned, only if the source is not limited. */
  function Queried(l: Limiter, source: Str, token: Str, now: Time): Limiter {
    var l1 := l.(sources := l.sources[source := Prune(At(l.sources, source), now - l.window)]);
    if SourceLimited(l, source, now) then l1
    else l1.(tokens := l.tokens[token := Prune(At(l.tokens, token), now - l.window)])
  }

  function Recorded(l: Limiter, source: Str, token: Str, now: Time): Limiter {
    l.(sources := l.sources[source := At(l.sources, source) + [now]],
       tokens := l.tokens[token := At(l.tokens, token) + [now]])
  }

  /** What is left of a deque once it has been counted: all of it from its first fresh failure on. */
  ghost predicate LeftOf(was: seq<Time>, left: seq<Time>, cutoff: Time) {
    && |left| <= |was| && left == was[|was| - |left|..]
    && (forall i :: 0 <= i < |was| - |left| ==> was[i] <= cutoff)
    && (left != [] ==> left[0] > cutoff)
  }

  class EnrollmentRateLimiter {
    const maxSourceFailures: int
    const maxTokenFailures: int
    const window: int
    var sources: map<Str, seq<Time>>
    var tokens: map<Str, seq<Time>>

    ghost function View(): Limiter
      reads this
    {
      Limiter(maxSourceFailures, maxTokenFailures, window, sources, tokens)
    }

    constructor (maxSourceFailures: int, maxTokenFailures: int, window: int)
      ensures View() == Limiter(maxSourceFailures, maxTokenFailures, window, map[], map[])
    {
      this.maxSourceFailures, this.maxTokenFailures, this.window := maxSourceFailures, maxTokenFailures, window;
      sources, tokens := map[], map[];
    }

    /** `_count`, with the deque it leaves behind. */
    method Count(failures: seq<Time>, now: Time) returns (left: seq<Time>)
      ensures left == Prune(failures, now - window) && LeftOf(failures, left, now - window)
    {
      var cutoff := now - window;
      left := failures;
      ghost var dropped := 0;
      while left != [] && left[0] <= cutoff
        invariant Prune(left, cutoff) == Prune(failures, cutoff)
        invariant 0 <= dropped <= |failures| && left == failures[dropped..]
        invariant forall i :: 0 <= i < dropped ==> failures[i] <= cutoff
      {
        DropTwice(failures, dropped, 1);
        left, dropped := left[1..], dropped + 1;
      }
    }

    method IsLimited(source: Str, token: Str, now: Time) returns (limited: bool)
      modifies this
      ensures View() == Queried(old(View()), source, token, now)
      ensures limited == (SourceLimited(old(View()), source, now) || TokenLimited(old(View()), token, now))
      // The source's deque is counted, and the token's only if the source has not reached its threshold.
      ensures source in sources && LeftOf(At(old(sources), source), sources[source], now - window)
      ensures sources == old(sources)[source := sources[source]]
      ensures |sources[source]| >= maxSourceFailures ==> limited && tokens == old(tokens)
      ensures |sources[source]| < maxSourceFailures ==>
                token in tokens && LeftOf(At(old(tokens), token), tokens[token], now - window)
                && tokens == old(tokens)[token := tokens[token]] && (limited <==> |tokens[token]| >= maxTokenFailures)
    {
      var left := Count(At(sources, source), now);
      sources := sources[source := left];
      if |left| >= maxSourceFailures { return true; }
      left := Count(At(tokens, token), now);
      tokens := tokens[token := left];
      return |left| >= maxTokenFailures;
    }

    method RecordFailure(source: Str, token: Str, now: Time)
      modifies this
      ensures View() == Recorded(old(View()), source, token, now)
      ensures sources == old(sources)[source := At(old(sources), source) + [now]]
      ensures tokens == old(tokens)[token := At(old(tokens), token) + [now]]
    {
      sources := sources[source := At(sources, source) + [now]];
      tokens := tokens[token := At(tokens, token) + [now]];
    }
  }

  // ---------------------------------------------------------------- runs of enrollments

  /**
   One call of `enroll`: `wellFormed` tells whether it gets as far as the limiter, and `succeeds` what happens once the
   limiter has let it through to the token store.
   */
  datatype Attempt = Attempt(source: Str, token: Str, now: Time, wellFormed: bool, succeeds: bool)

  datatype Entry = Entry(attempt: Attempt, reached: bool)

  predicate Failed(e: Entry) {
    !e.reached || !e.attempt.succeeds
  }

  datatype Service = Service(limiter: Limiter, log: seq<Entry>)

  predicate Admitted(l: Limiter, a: Attempt) {
    a.wellFormed && !SourceLimited(l, a.source, a.now) && !TokenLimited(l, a.token, a.now)
  }

  /** `enroll` as the limiter sees it: every failure is recorded, those that the limiter itself causes included. */
  function Enrolled(s: Service, a: Attempt): Service {
    var l := if a.wellFormed then Queried(s.limiter, a.source, a.token, a.now) else s.limiter;
    var e := Entry(a, Admitted(s.limiter, a));
    Service(if Failed(e) then Recorded(l, a.source, a.token, a.now) else l, s.log + [e])
  }

  function Run(s: Service, attempts: seq<Attempt>): Service
    decreases |attempts|
  {
    if attempts == [] then s else Run(Enrolled(s, attempts[0]), attempts[1..])
  }

  /** A limiter is asked about a source and about a token; `ByToken` picks which. */
  function KeyOf(a: Attempt, byToken: bool): Str {
    if byToken then a.token else a.source
  }

  /** Instants of all failures recorded under a key, in order: the full history of its deque. */
  function History(log: seq<Entry>, byToken: bool, key: Str): seq<Time> {
    if log == [] then []
    else
      var e := log[|log| - 1];
      History(log[..|log| - 1], byToken, key) + if Failed(e) && KeyOf(e.attempt, byToken) == key then [e.attempt.now] else []
  }

  predicate InWindow(e: Entry, byToken: bool, key: Str, start: Time, window: int) {
    Failed(e) && e.reached && KeyOf(e.attempt, byToken) == key && start < e.attempt.now <= start + window
  }

  /** The failed attempts under a key that reached the token store within the half-open window after `start`. */
  function ReachedFailures(log: seq<Entry>, byToken: bool, key: Str, start: Time, window: int): nat {
    if log == [] then 0
    else
      var e := log[|log| - 1];
      ReachedFailures(log[..|log| - 1], byToken, key, start, window)
      + if InWindow(e, byToken, key, start, window) then 1 else 0
  }

  function Deque(l: Limiter, byToken: bool, key: Str): seq<Time> {
    if byToken then At(l.tokens, key) else At(l.sources, key)
  }

  function Threshold(l: Limiter, byToken: bool): nat {
    var max := if byToken then l.maxTokenFailures else l.maxSourceFailures;
    if max < 0 then 0 else max
  }

  ghost predicate KeyOk(s: Service, byToken: bool, key: Str, last: Time) {
    Lazy(Deque(s.limiter, byToken, key), History(s.log, byToken, key), last - s.limiter.window)
  }

  ghost predicate ServiceOk(s: Service, last: Time) {
    forall byToken, key :: KeyOk(s, byToken, key, last)
  }

  lemma NeverUndercounts(q: seq<Time>, h: seq<Time>, cutoff: Time, later: Time)
    requires Lazy(q, h, cutoff) && cutoff <= later
    ensures |Prune(q, later)| >= CountNewer(h, later)
  {
    DequeCountsWindow(q, h, cutoff, later);
  }

  lemma LazyLater(q: seq<Time>, h: seq<Time>, cutoff: Time, later: Time)
    requires Lazy(q, h, cutoff) && cutoff <= later
    ensures Lazy(q, h, later)
  {
  }

  lemma HistoryAppend(log: seq<Entry>, e: Entry, byToken: bool, key: Str)
    ensures History(log + [e], byToken, key)
         == History(log, byToken, key) + if Failed(e) && KeyOf(e.attempt, byToken) == key then [e.attempt.now] else []
  {
    assert (log + [e])[..|log|] == log;
  }

  /** What one enrollment does to one deque: pruned or not, and then one failure longer if it failed under that key. */
  lemma DequeAfter(s: Service, a: Attempt, byToken: bool, key: Str)
    ensures var q, t := Deque(s.limiter, byToken, key), Enrolled(s, a);
            var pruned := Prune(q, a.now - s.limiter.window);
            var tail := if Failed(Entry(a, Admitted(s.limiter, a))) && KeyOf(a, byToken) == key then [a.now] else [];
            Deque(t.limiter, byToken, key) == q + tail || Deque(t.limiter, byToken, key) == pruned + tail
  {
    var q := Deque(s.limiter, byToken, key);
    assert q + [] == q;
    assert Prune(q, a.now - s.limiter.window) + [] == Prune(q, a.now - s.limiter.window);
  }

  lemma TailKeepsLazy(q: seq<Time>, h: seq<Time>, cutoff: Time, tail: seq<Time>)
    requires Lazy(q, h, cutoff) && |tail| <= 1
    ensures Lazy(q + tail, h + tail, cutoff)
  {
    if tail == [] {
      assert h + tail == h && q + tail == q;
    } else {
      AppendKeepsLazy(q, h, cutoff, tail[0]);
    }
  }

  lemma LazyStep(q: seq<Time>, h: seq<Time>, cutoff: Time, later: Time, tail: seq<Time>, after: seq<Time>)
    requires Lazy(q, h, cutoff) && cutoff <= later && |tail| <= 1
    requires after == q + tail || after == Prune(q, later) + tail
    ensures Lazy(after, h + tail, later)
  {
    LazyLater(q, h, cutoff, later);
    PruneKeepsLazy(q, h, later, later);
    TailKeepsLazy(q, h, later, tail);
    TailKeepsLazy(Prune(q, later), h, later, tail);
  }

  lemma LazyStepTo(q: seq<Time>, h: seq<Time>, cutoff: Time, later: Time, tail: seq<Time>, after: seq<Time>,
                   longer: seq<Time>)
    requires Lazy(q, h, cutoff) && cutoff <= later && |tail| <= 1 && longer == h + tail
    requires after == q + tail || after == Prune(q, later) + tail
    ensures Lazy(after, longer, later)
  {
    LazyStep(q, h, cutoff, later, tail, after);
  }

  lemma EnrolledShape(s: Service, a: Attempt)
    ensures Enrolled(s, a).limiter.window == s.limiter.window
    ensures Enrolled(s, a).log == s.log + [Entry(a, Admitted(s.limiter, a))]
  {
  }

  lemma KeyKept(s: Service, a: Attempt, byToken: bool, key: Str, last: Time)
    requires KeyOk(s, byToken, key, last) && last <= a.now
    ensures KeyOk(Enrolled(s, a), byToken, key, a.now)
  {
    var e, t := Entry(a, Admitted(s.limiter, a)), Enrolled(s, a);
    var tail := if Failed(e) && KeyOf(a, byToken) == key then [a.now] else [];
    HistoryAppend(s.log, e, byToken, key);
    DequeAfter(s, a, byToken, key);
    EnrolledShape(s, a);
    LazyStepTo(Deque(s.limiter, byToken, key), History(s.log, byToken, key), last - s.limiter.window,
               a.now - s.limiter.window, tail, Deque(t.limiter, byToken, key), History(t.log, byToken, key));
  }

  lemma {:induction false} ReachedWithinHistory(log: seq<Entry>, byToken: bool, key: Str, start: Time, window: int,
                                                cutoff: Time)
    requires cutoff <= start
    ensures ReachedFailures(log, byToken, key, start, window) <= CountNewer(History(log, byToken, key), cutoff)
  {
    if log != [] {
      var init, e := log[..|log| - 1], log[|log| - 1];
      ReachedWithinHistory(init, byToken, key, start, window, cutoff);
      var h := History(init, byToken, key);
      assert (h + [e.attempt.now])[..|h|] == h;
      assert h + [] == h;
    }
  }

  ghost predicate Bounded(s: Service) {
    forall byToken, key, start ::
      ReachedFailures(s.log, byToken, key, start, s.limiter.window) <= Threshold(s.limiter, byToken)
  }

  lemma ReachedAppend(log: seq<Entry>, e: Entry, byToken: bool, key: Str, start: Time, window: int)
    ensures ReachedFailures(log + [e], byToken, key, start, window)
         == ReachedFailures(log, byToken, key, start, window) + if InWindow(e, byToken, key, start, window) then 1 else 0
  {
    assert (log + [e])[..|log|] == log;
  }

  lemma BelowThreshold(l: Limiter, a: Attempt, byToken: bool)
    requires Admitted(l, a)
    ensures |Prune(Deque(l, byToken, KeyOf(a, byToken)), a.now - l.window)| < Threshold(l, byToken)
  {
  }

  /** An attempt is let through only while the window before it has room. */
  lemma AdmittedHasRoom(s: Service, a: Attempt, byToken: bool, key: Str, start: Time, last: Time)
    requires KeyOk(s, byToken, key, last) && last <= a.now
    requires Admitted(s.limiter, a) && KeyOf(a, byToken) == key && a.now <= start + s.limiter.window
    ensures ReachedFailures(s.log, byToken, key, start, s.limiter.window) < Threshold(s.limiter, byToken)
  {
    var l, cutoff := s.limiter, a.now - s.limiter.window;
    NeverUndercounts(Deque(l, byToken, key), History(s.log, byToken, key), last - l.window, cutoff);
    ReachedWithinHistory(s.log, byToken, key, start, l.window, cutoff);
    BelowThreshold(l, a, byToken);
  }

  lemma BoundKept(s: Service, a: Attempt, byToken: bool, key: Str, start: Time, last: Time)
    requires KeyOk(s, byToken, key, last) && last <= a.now
    requires ReachedFailures(s.log, byToken, key, start, s.limiter.window) <= Threshold(s.limiter, byToken)
    ensures ReachedFailures(Enrolled(s, a).log, byToken, key, start, s.limiter.window) <= Threshold(s.limiter, byToken)
  {
    var e := Entry(a, Admitted(s.limiter, a));
    ReachedAppend(s.log, e, byToken, key, start, s.limiter.window);
    if InWindow(e, byToken, key, start, s.limiter.window) {
      AdmittedHasRoom(s, a, byToken, key, start, last);
    }
  }

  predicate Monotone(attempts: seq<Attempt>, last: Time) {
    attempts == [] || (last <= attempts[0].now && Monotone(attempts[1..], attempts[0].now))
  }

  lemma {:induction false} RunKeeps(s: Service, attempts: seq<Attempt>, last: Time)
    requires ServiceOk(s, last) && Bounded(s) && Monotone(attempts, last)
    ensures Bounded(Run(s, attempts)) && Run(s, attempts).limiter.window == s.limiter.window
    ensures forall byToken :: Threshold(Run(s, attempts).limiter, byToken) == Threshold(s.limiter, byToken)
    decreases |attempts|
  {
    if attempts != [] {
      var a, t := attempts[0], Enrolled(s, attempts[0]);
      forall byToken, key ensures KeyOk(t, byToken, key, a.now) {
        assert KeyOk(s, byToken, key, last);
        KeyKept(s, a, byToken, key, last);
      }
      forall byToken, key, start
        ensures ReachedFailures(t.log, byToken, key, start, t.limiter.window) <= Threshold(t.limiter, byToken)
      {
        assert KeyOk(s, byToken, key, last);
        BoundKept(s, a, byToken, key, start, last);
      }
      RunKeeps(t, attempts[1..], a.now);
    }
  }

  /**
   With enrollments one after the other and a clock that does not go back, no half-open window of `window_seconds` holds
   more failed attempts that reached the token store than the threshold: per source, and per token hash.
   */
  lemma FailuresPerWindow(maxSource: int, maxToken: int, window: int, attempts: seq<Attempt>, last: Time,
                          byToken: bool, key: Str, start: Time)
    requires Monotone(attempts, last)
    ensures var s := Run(Service(Limiter(maxSource, maxToken, window, map[], map[]), []), attempts);
            ReachedFailures(s.log, byToken, key, start, window)
            <= Threshold(Limiter(maxSource, maxToken, window, map[], map[]), byToken)
  {
    var s := Service(Limiter(maxSource, maxToken, window, map[], map[]), []);
    NewServiceOk(s.limiter, last);
    RunKeeps(s, attempts, last);
  }

  // ---------------------------------------------------------------- whom the limiter refuses

  /** The attempts of a log, in the order of their instants and none after `last`. */
  ghost predicate LogInTime(log: seq<Entry>, last: Time) {
    && (forall i :: 0 <= i < |log| ==> log[i].attempt.now <= last)
    && (forall i, j :: 0 <= i < j < |log| ==> log[i].attempt.now <= log[j].attempt.now)
  }

  function EndOf(attempts: seq<Attempt>, last: Time): Time {
    if attempts == [] then last else EndOf(attempts[1..], attempts[0].now)
  }

  lemma {:induction false} HistoryInTime(log: seq<Entry>, last: Time, byToken: bool, key: Str)
    requires LogInTime(log, last)
    ensures Sorted(History(log, byToken, key))
    ensures forall i :: 0 <= i < |History(log, byToken, key)| ==> History(log, byToken, key)[i] <= last
  {
    if log != [] {
      HistoryInTime(log[..|log| - 1], log[|log| - 1].attempt.now, byToken, key);
    }
  }

  lemma StepInTime(s: Service, a: Attempt, last: Time)
    requires ServiceOk(s, last) && LogInTime(s.log, last) && last <= a.now
    ensures ServiceOk(Enrolled(s, a), a.now) && LogInTime(Enrolled(s, a).log, a.now)
    ensures var l := Enrolled(s, a).limiter;
            l.window == s.limiter.window && l.maxSourceFailures == s.limiter.maxSourceFailures
            && l.maxTokenFailures == s.limiter.maxTokenFailures
  {
    forall byToken, key ensures KeyOk(Enrolled(s, a), byToken, key, a.now) {
      assert KeyOk(s, byToken, key, last);
      KeyKept(s, a, byToken, key, last);
    }
  }

  lemma InOrderCounts(q: seq<Time>, h: seq<Time>, cutoff: Time, later: Time)
    requires Lazy(q, h, cutoff) && Sorted(h) && cutoff <= later
    ensures |Prune(q, later)| == CountNewer(h, later)
  {
    DequeCountsWindow(q, h, cutoff, later);
  }

  /** The deque of a key counts exactly the failures of its full history that are newer than `now` less the window. */
  ghost predicate Exact(s: Service, byToken: bool, key: Str, now: Time) {
    |Prune(Deque(s.limiter, byToken, key), now - s.limiter.window)|
    == CountNewer(History(s.log, byToken, key), now - s.limiter.window)
  }

  lemma CountsExactly(s: Service, byToken: bool, key: Str, last: Time, now: Time)
    requires ServiceOk(s, last) && LogInTime(s.log, last) && last <= now
    ensures Exact(s, byToken, key, now)
  {
    HistoryInTime(s.log, last, byToken, key);
    assert KeyOk(s, byToken, key, last);
    InOrderCounts(Deque(s.limiter, byToken, key), History(s.log, byToken, key), last - s.limiter.window,
                  now - s.limiter.window);
  }

  lemma NextLetThrough(s: Service, a: Attempt)
    requires Exact(s, false, a.source, a.now) && Exact(s, true, a.token, a.now)
    ensures var recent := a.now - s.limiter.window;
            Admitted(s.limiter, a) <==>
              a.wellFormed && CountNewer(History(s.log, false, a.source), recent) < s.limiter.maxSourceFailures
              && CountNewer(History(s.log, true, a.token), recent) < s.limiter.maxTokenFailures
  {
  }

  lemma NewServiceOk(limiter: Limiter, last: Time)
    requires limiter.sources == map[] && limiter.tokens == map[]
    ensures ServiceOk(Service(limiter, []), last) && LogInTime([], last)
  {
    forall byToken, key ensures KeyOk(Service(limiter, []), byToken, key, last) {
    }
  }

  /**
   The next attempt reaches the token store if and only if it is well formed and, of all failures ever recorded, fewer
   than the thresholds lie within the window before it: under its source, and under its token hash.
   */
  ghost predicate ReachesIffBelow(s: Service, a: Attempt, window: int, maxSource: int, maxToken: int) {
    Enrolled(s, a).log
    == s.log + [Entry(a, a.wellFormed && CountNewer(History(s.log, false, a.source), a.now - window) < maxSource
                         && CountNewer(History(s.log, true, a.token), a.now - window) < maxToken)]
  }

  lemma ReachesIff(s: Service, last: Time, a: Attempt)
    requires ServiceOk(s, last) && LogInTime(s.log, last) && last <= a.now
    ensures ReachesIffBelow(s, a, s.limiter.window, s.limiter.maxSourceFailures, s.limiter.maxTokenFailures)
  {
    CountsExactly(s, false, a.source, last, a.now);
    CountsExactly(s, true, a.token, last, a.now);
    NextLetThrough(s, a);
    EnrolledShape(s, a);
  }

  /** With enrollments one after the other, that is whom the limiter lets through after every run, and nobody else. */
  lemma {:induction false} LetThroughIff(s: Service, attempts: seq<Attempt>, last: Time, a: Attempt)
    requires ServiceOk(s, last) && LogInTime(s.log, last) && Monotone(attempts, last) && EndOf(attempts, last) <= a.now
    ensures ReachesIffBelow(Run(s, attempts), a, s.limiter.window, s.limiter.maxSourceFailures, s.limiter.maxTokenFailures)
    decreases |attempts|
  {
    if attempts == [] {
      ReachesIff(s, last, a);
    } else {
      StepInTime(s, attempts[0], last);
      LetThroughIff(Enrolled(s, attempts[0]), attempts[1..], attempts[0].now, a);
    }
  }
}
