/**
 Schema migrations (src/vibeconnect_common/db.py): each script and the row that records it commit together, and a run
 may be cut short anywhere.
 */
module Migrations {
  import opened Wrappers
  import opened Text

  datatype Migration = Migration(version: int, sql: Str)

  datatype MigrationError = InvalidFilename | DuplicateVersion | DuplicateApplied | OutOfOrder | PartialOrOutOfOrder

  // ---------------------------------------------------------------- version lists

  ghost predicate Ascending(v: seq<int>) {
    forall i, j :: 0 <= i < j < |v| ==> v[i] < v[j]
  }

  function Versions(ms: seq<Migration>): (v: seq<int>)
    ensures |v| == |ms| && forall i :: 0 <= i < |ms| ==> v[i] == ms[i].version
  {
    seq(|ms|, i requires 0 <= i < |ms| => ms[i].version)
  }

  ghost predicate IsLeast(s: set<int>, x: int) {
    x in s && forall y :: y in s ==> x <= y
  }

  ghost function Least(s: set<int>): (x: int)
    requires s != {}
    ensures IsLeast(s, x)
  {
    LeastExists(s);
    var x :| IsLeast(s, x);
    x
  }

  lemma LeastExists(s: set<int>)
    requires s != {}
    ensures exists x :: IsLeast(s, x)
  {
    var x := FindLeast(s);
  }

  lemma {:induction false} FindLeast(s: set<int>) returns (x: int)
    requires s != {}
    ensures IsLeast(s, x)
  {
    assert (forall y :: y !in s) ==> s == {};
    x :| x in s;
    var rest := s - {x};
    if rest == {} {
      assert s == rest + {x};
    } else {
      var z := FindLeast(rest);
      forall y | y in s ensures (if x < z then x else z) <= y { if y != x { assert y in rest; } }
      x := if x < z then x else z;
    }
  }

  /** The rows of `SELECT version FROM schema_migrations ORDER BY version`. */
  ghost function InOrder(s: set<int>): (v: seq<int>)
    ensures Ascending(v) && forall x :: x in v <==> x in s
  {
    if s == {} then []
    else
      assert IsLeast(s, Least(s));
      [Least(s)] + InOrder(s - {Least(s)})
  }

  /** An ascending list is determined by its elements. */
  lemma {:induction false} AscendingUnique(a: seq<int>, b: seq<int>)
    requires Ascending(a) && Ascending(b) && forall x :: x in a <==> x in b
    ensures a == b
  {
    if b != [] { assert b[0] in b; }
    if a != [] {
      assert a[0] in a && a[0] in b;
      assert b[0] in a;
      assert a[0] == b[0];
      forall x ensures x in a[1..] <==> x in b[1..] {
        assert x in a[1..] <==> x in a && x != a[0] by { InTail(a, x); }
        assert x in b[1..] <==> x in b && x != b[0] by { InTail(b, x); }
      }
      AscendingUnique(a[1..], b[1..]);
      assert a == [a[0]] + a[1..] && b == [b[0]] + b[1..];
    }
  }

  lemma InTail(v: seq<int>, x: int)
    requires Ascending(v) && v != []
    ensures x in v[1..] <==> x in v && x != v[0]
  {
    assert v == [v[0]] + v[1..];
    if x in v[1..] {
      var i :| 0 <= i < |v| - 1 && v[1..][i] == x;
      assert v[0] < v[i + 1];
    }
  }

  function Elements(v: seq<int>): set<int> {
    set x | x in v
  }

  // ---------------------------------------------------------------- loading

  /** A migration file as `_parse_migration_version` reads its name: None if the name is malformed. */
  datatype File = File(version: Option<int>, sql: Str)

  function Insert(ms: seq<Migration>, m: Migration): (r: seq<Migration>)
    ensures multiset(r) == multiset(ms) + multiset{m}
  {
    if ms == [] || m.version < ms[0].version then [m] + ms
    else
      assert ms == [ms[0]] + ms[1..];
      [ms[0]] + Insert(ms[1..], m)
  }

  lemma AscendingCons(x: int, v: seq<int>)
    requires Ascending(v) && (v != [] ==> x < v[0])
    ensures Ascending([x] + v)
  {
  }

  lemma VersionsCons(m: Migration, ms: seq<Migration>)
    ensures Versions([m] + ms) == [m.version] + Versions(ms)
  {
  }

  lemma {:induction false} InsertAscending(ms: seq<Migration>, m: Migration)
    requires Ascending(Versions(ms)) && m.version !in Versions(ms)
    ensures Ascending(Versions(Insert(ms, m)))
    ensures forall x :: x in Versions(Insert(ms, m)) <==> x in Versions(ms) || x == m.version
    ensures Versions(Insert(ms, m))[0] == if ms != [] && ms[0].version < m.version then ms[0].version else m.version
  {
    if ms == [] || m.version < ms[0].version {
      VersionsCons(m, ms);
      AscendingCons(m.version, Versions(ms));
    } else {
      var first, rest := ms[0], ms[1..];
      assert ms == [first] + rest;
      VersionsCons(first, rest);
      assert Versions(ms)[0] == first.version && Versions(ms)[1..] == Versions(rest);
      assert first.version in Versions(ms);
      InsertAscending(rest, m);
      VersionsCons(first, Insert(rest, m));
      if rest != [] { assert Versions(ms)[0] < Versions(ms)[1]; }
      AscendingCons(first.version, Versions(Insert(rest, m)));
    }
  }

  predicate SameVersion(files: seq<File>, i: nat, j: nat) {
    i < j < |files| && files[i].version == files[j].version
  }

  ghost predicate Distinct(files: seq<File>, n: nat) {
    forall i: nat, j: nat :: j < n ==> !SameVersion(files, i, j)
  }

  function ToMigration(f: File): Migration {
    Migration(if f.version.Some? then f.version.value else 0, f.sql)
  }

  function ToMigrations(files: seq<File>): seq<Migration> {
    if files == [] then [] else ToMigrations(files[..|files| - 1]) + [ToMigration(files[|files| - 1])]
  }

  lemma ToMigrationsStep(files: seq<File>, k: nat)
    requires k < |files|
    ensures multiset(ToMigrations(files[..k + 1])) == multiset(ToMigrations(files[..k])) + multiset{ToMigration(files[k])}
  {
    assert files[..k + 1][..k] == files[..k];
  }

  /** The versions of the first `k` files. */
  function Seen(files: seq<File>, k: nat): set<int>
    requires k <= |files|
  {
    set i | 0 <= i < k :: ToMigration(files[i]).version
  }

  ghost predicate WellNamed(files: seq<File>, n: nat)
    requires n <= |files|
  {
    forall i :: 0 <= i < n ==> files[i].version.Some?
  }

  lemma DistinctStep(files: seq<File>, k: nat)
    requires k < |files| && WellNamed(files, k + 1) && Distinct(files, k)
    ensures files[k].version.value !in Seen(files, k) <==> Distinct(files, k + 1)
    ensures files[k].version.value in Seen(files, k) ==> exists i: nat :: SameVersion(files, i, k)
    ensures Seen(files, k + 1) == Seen(files, k) + {files[k].version.value}
  {
    var x := files[k].version.value;
    if x in Seen(files, k) {
      var i: nat :| i < k && ToMigration(files[i]).version == x;
      assert SameVersion(files, i, k);
    } else {
      forall i: nat, j: nat | j < k + 1 ensures !SameVersion(files, i, j) {
        if j == k && i < k { assert ToMigration(files[i]).version in Seen(files, k); }
      }
    }
  }

  lemma InsertElements(ms: seq<Migration>, m: Migration)
    requires Ascending(Versions(ms)) && m.version !in Elements(Versions(ms))
    ensures Ascending(Versions(Insert(ms, m)))
    ensures Elements(Versions(Insert(ms, m))) == Elements(Versions(ms)) + {m.version}
  {
    InsertAscending(ms, m);
  }

  /** The migration has the version and the text of the file. */
  predicate Keeps(f: File, m: Migration) {
    f.version == Some(m.version) && f.sql == m.sql
  }

  /** Each migration is made of a file; `order` tells which. */
  ghost predicate MadeOf(ms: seq<Migration>, files: seq<File>, order: seq<nat>) {
    |order| == |ms| && forall i :: 0 <= i < |ms| ==> order[i] < |files| && Keeps(files[order[i]], ms[i])
  }

  /** One migration for each file, in strictly ascending order of version. */
  ghost predicate LoadedFrom(files: seq<File>, ms: seq<Migration>) {
    |ms| == |files| && Ascending(Versions(ms)) && exists order :: MadeOf(ms, files, order)
  }

  lemma {:induction false} FindFile(files: seq<File>, m: Migration) returns (j: nat)
    requires WellNamed(files, |files|) && m in multiset(ToMigrations(files))
    ensures j < |files| && Keeps(files[j], m)
  {
    var n := |files| - 1;
    if ToMigration(files[n]) == m {
      j := n;
    } else {
      j := FindFile(files[..n], m);
    }
  }

  lemma {:induction false} FindFiles(files: seq<File>, ms: seq<Migration>) returns (order: seq<nat>)
    requires WellNamed(files, |files|) && multiset(ms) <= multiset(ToMigrations(files))
    ensures MadeOf(ms, files, order)
  {
    if ms == [] {
      order := [];
    } else {
      var init, m := ms[..|ms| - 1], ms[|ms| - 1];
      assert ms == init + [m];
      order := FindFiles(files, init);
      var j := FindFile(files, m);
      order := order + [j];
    }
  }

  lemma {:induction false} ToMigrationsSize(files: seq<File>)
    ensures |ToMigrations(files)| == |files|
  {
    if files != [] { ToMigrationsSize(files[..|files| - 1]); }
  }

  lemma SameElements(files: seq<File>, ms: seq<Migration>)
    requires WellNamed(files, |files|) && Ascending(Versions(ms)) && multiset(ms) == multiset(ToMigrations(files))
    ensures LoadedFrom(files, ms)
  {
    ToMigrationsSize(files);
    assert |multiset(ms)| == |ms| && |multiset(ToMigrations(files))| == |files|;
    var order := FindFiles(files, ms);
  }

  /** The file at which loading stops: the first whose name is malformed, or whose version an earlier one has. */
  ghost predicate StopsAt(files: seq<File>, k: nat, error: MigrationError) {
    k < |files| && WellNamed(files, k) && Distinct(files, k)
    && match error
       case InvalidFilename => files[k].version.None?
       case DuplicateVersion => exists i: nat :: i < k && files[i].version == files[k].version && files[k].version.Some?
       case _ => false
  }

  /**
   `load_migrations`: succeeds exactly when every name is well formed and no version occurs twice, and then gives all
   the files, each with its version and its text, in strictly ascending order of version.
   */
  method LoadMigrations(files: seq<File>) returns (r: Result<seq<Migration>, MigrationError>)
    ensures r.Ok? <==> WellNamed(files, |files|) && Distinct(files, |files|)
    ensures r.Ok? ==> LoadedFrom(files, r.value) && multiset(r.value) == multiset(ToMigrations(files))
    ensures r.Err? ==> exists k: nat :: StopsAt(files, k, r.error)
  {
    var migrations: seq<Migration> := [];
    var seen: set<int> := {};
    var k := 0;
    while k < |files|
      invariant 0 <= k <= |files|
      invariant WellNamed(files, k) && Distinct(files, k)
      invariant seen == Seen(files, k) == Elements(Versions(migrations)) && Ascending(Versions(migrations))
      invariant multiset(migrations) == multiset(ToMigrations(files[..k]))
    {
      if files[k].version.None? {
        assert StopsAt(files, k, InvalidFilename);
        return Err(InvalidFilename);
      }
      var version := files[k].version.value;
      DistinctStep(files, k);
      if version in seen {
        assert exists i: nat :: SameVersion(files, i, k);
        assert StopsAt(files, k, DuplicateVersion);
        return Err(DuplicateVersion);
      }
      var m := ToMigration(files[k]);
      InsertElements(migrations, m);
      ToMigrationsStep(files, k);
      seen := seen + {version};
      migrations := Insert(migrations, m);
      k := k + 1;
    }
    assert files[..k] == files;
    SameElements(files, migrations);
    return Ok(migrations);
  }

  // ---------------------------------------------------------------- running

  /** The `schema_migrations` table, and the scripts whose effects are committed, in order. */
  datatype Database = Database(applied: set<int>, effects: seq<Str>)

  /** A run ends, is cut short before some commit, hits the table's primary key, or refuses to start. */
  datatype RunResult = Completed | Interrupted | KeyViolated | Refused(error: MigrationError)

  /** `_validate_applied_versions`. */
  function Validate(applied: seq<int>, expected: seq<int>): Option<MigrationError> {
    if |Elements(applied)| != |applied| then Some(DuplicateApplied)
    else if exists i, j :: 0 <= i < j < |applied| && applied[i] > applied[j] then Some(OutOfOrder)
    else if !(applied <= expected) then Some(PartialOrOutOfOrder)
    else None
  }

  /** One migration's transaction. */
  function Commit(db: Database, m: Migration): Database {
    Database(db.applied + {m.version}, db.effects + [m.sql])
  }

  /** The loop of `run_migrations`: `done` is what was applied when it began, `commits` how far it gets. */
  function Apply(db: Database, done: set<int>, ms: seq<Migration>, commits: nat): (Database, RunResult)
    decreases |ms|
  {
    if ms == [] then (db, Completed)
    else if ms[0].version in done then Apply(db, done, ms[1..], commits)
    else if commits == 0 then (db, Interrupted)
    else if ms[0].version in db.applied then (db, KeyViolated)
    else Apply(Commit(db, ms[0]), done, ms[1..], commits - 1)
  }

  ghost function Ran(db: Database, ms: seq<Migration>, commits: nat): (Database, RunResult) {
    match Validate(InOrder(db.applied), Versions(ms))
    case Some(e) => (db, Refused(e))
    case None => Apply(db, db.applied, ms, commits)
  }

  lemma ApplyAt(db: Database, done: set<int>, ms: seq<Migration>, i: nat, commits: nat)
    requires i < |ms|
    ensures Apply(db, done, ms[i..], commits)
         == if ms[i].version in done then Apply(db, done, ms[i + 1..], commits)
            else if commits == 0 then (db, Interrupted)
            else if ms[i].version in db.applied then (db, KeyViolated)
            else Apply(Commit(db, ms[i]), done, ms[i + 1..], commits - 1)
  {
    assert ms[i..][1..] == ms[i + 1..];
  }

  class Schema {
    var applied: set<int>
    var effects: seq<Str>

    ghost function View(): Database
      reads this
    {
      Database(applied, effects)
    }

    constructor ()
      ensures View() == Database({}, [])
    {
      applied, effects := {}, [];
    }

    /**
     `run_migrations` on a connection that survives `commits` transactions; the next one rolls back. `fetched` are the
     rows that the ordered SELECT returns.
     */
    method RunMigrations(ms: seq<Migration>, fetched: seq<int>, commits: nat) returns (r: RunResult)
      requires fetched == InOrder(applied)
      modifies this
      ensures (View(), r) == Ran(old(View()), ms, commits)
    {
      var error := Validate(fetched, Versions(ms));
      if error.Some? { return Refused(error.value); }
      var done := Elements(fetched);
      assert done == applied;
      var left := commits;
      var i := 0;
      while i < |ms|
        invariant 0 <= i <= |ms|
        invariant Apply(View(), done, ms[i..], left) == Apply(old(View()), done, ms, commits)
      {
        ApplyAt(View(), done, ms, i, left);
        var m := ms[i];
        if m.version !in done {
          if left == 0 { return Interrupted; }
          if m.version in applied { return KeyViolated; }
          applied, effects := applied + {m.version}, effects + [m.sql];
          left := left - 1;
        }
        i := i + 1;
      }
      return Completed;
    }
  }

  // ---------------------------------------------------------------- interrupted and resumed

  function Scripts(ms: seq<Migration>): seq<Str> {
    seq(|ms|, i requires 0 <= i < |ms| => ms[i].sql)
  }

  /** The database with exactly the first `k` migrations applied, each once and in order. */
  function UpTo(ms: seq<Migration>, k: nat): Database
    requires k <= |ms|
  {
    Database(Elements(Versions(ms[..k])), Scripts(ms[..k]))
  }

  function Min(a: nat, b: nat): nat {
    if a < b then a else b
  }

  lemma VersionsOfPrefix(ms: seq<Migration>, k: nat)
    requires k <= |ms|
    ensures Versions(ms[..k]) == Versions(ms)[..k]
    ensures Ascending(Versions(ms)) ==> Ascending(Versions(ms[..k]))
  {
  }

  lemma InOrderOfPrefix(ms: seq<Migration>, k: nat)
    requires k <= |ms| && Ascending(Versions(ms))
    ensures InOrder(UpTo(ms, k).applied) == Versions(ms)[..k]
  {
    VersionsOfPrefix(ms, k);
    AscendingUnique(InOrder(UpTo(ms, k).applied), Versions(ms)[..k]);
  }

  lemma {:induction false} AscendingSize(v: seq<int>)
    requires Ascending(v)
    ensures |Elements(v)| == |v|
  {
    if v != [] {
      AscendingSize(v[1..]);
      forall x ensures x in v[1..] <==> x in v && x != v[0] { InTail(v, x); }
      assert Elements(v) == Elements(v[1..]) + {v[0]};
    }
  }

  /** A run starts if and only if what is applied is some prefix of its list. */
  lemma StartsIff(db: Database, ms: seq<Migration>, commits: nat)
    requires Ascending(Versions(ms))
    ensures Ran(db, ms, commits).1.Refused? <==> !exists k: nat :: k <= |ms| && db.applied == UpTo(ms, k).applied
    ensures Ran(db, ms, commits).1.Refused? ==> Ran(db, ms, commits) == (db, Refused(PartialOrOutOfOrder))
  {
    var v := InOrder(db.applied);
    AscendingSize(v);
    if v <= Versions(ms) {
      VersionsOfPrefix(ms, |v|);
      assert db.applied == UpTo(ms, |v|).applied;
    } else if exists k: nat :: k <= |ms| && db.applied == UpTo(ms, k).applied {
      var k: nat :| k <= |ms| && db.applied == UpTo(ms, k).applied;
      InOrderOfPrefix(ms, k);
      assert false;
    }
    ApplyNotRefused(db, db.applied, ms, commits);
  }

  lemma {:induction false} ApplyNotRefused(db: Database, done: set<int>, ms: seq<Migration>, commits: nat)
    ensures !Apply(db, done, ms, commits).1.Refused?
    decreases |ms|
  {
    if ms != [] {
      ApplyNotRefused(db, done, ms[1..], commits);
      if commits > 0 { ApplyNotRefused(Commit(db, ms[0]), done, ms[1..], commits - 1); }
    }
  }

  lemma {:induction false} SkipDone(db: Database, done: set<int>, ms: seq<Migration>, k: nat, commits: nat)
    requires k <= |ms| && forall i :: 0 <= i < k ==> ms[i].version in done
    ensures Apply(db, done, ms, commits) == Apply(db, done, ms[k..], commits)
    decreases k
  {
    if k > 0 {
      SkipDone(db, done, ms[1..], k - 1, commits);
      assert ms[1..][k - 1..] == ms[k..];
    } else {
      assert ms[k..] == ms;
    }
  }

  lemma CommitOne(ms: seq<Migration>, k: nat)
    requires k < |ms|
    ensures Commit(UpTo(ms, k), ms[k]) == UpTo(ms, k + 1)
  {
    assert ms[..k + 1] == ms[..k] + [ms[k]];
    assert Versions(ms[..k + 1]) == Versions(ms[..k]) + [ms[k].version];
    assert Scripts(ms[..k + 1]) == Scripts(ms[..k]) + [ms[k].sql];
  }

  lemma NotYetApplied(ms: seq<Migration>, k: nat, j: nat)
    requires k <= j < |ms| && Ascending(Versions(ms))
    ensures ms[j].version !in UpTo(ms, k).applied
  {
    VersionsOfPrefix(ms, k);
  }

  lemma {:induction false} ApplyRest(ms: seq<Migration>, first: nat, k: nat, commits: nat)
    requires first <= k <= |ms| && Ascending(Versions(ms))
    ensures Apply(UpTo(ms, k), UpTo(ms, first).applied, ms[k..], commits)
         == (UpTo(ms, Min(k + commits, |ms|)), if k + commits >= |ms| then Completed else Interrupted)
    decreases |ms| - k
  {
    if k < |ms| {
      NotYetApplied(ms, first, k);
      NotYetApplied(ms, k, k);
      CommitOne(ms, k);
      assert ms[k..][0] == ms[k] && ms[k..][1..] == ms[k + 1..];
      if commits > 0 { ApplyRest(ms, first, k + 1, commits - 1); }
    }
  }

  /** A run picks up where the last one stopped: it commits the next scripts of the list, as far as it gets. */
  lemma RunResumes(ms: seq<Migration>, k: nat, commits: nat)
    requires k <= |ms| && Ascending(Versions(ms))
    ensures Ran(UpTo(ms, k), ms, commits)
         == (UpTo(ms, Min(k + commits, |ms|)), if k + commits >= |ms| then Completed else Interrupted)
  {
    InOrderOfPrefix(ms, k);
    VersionsOfPrefix(ms, k);
    AscendingSize(Versions(ms)[..k]);
    forall i | 0 <= i < k ensures ms[i].version in UpTo(ms, k).applied {
      assert Versions(ms[..k])[i] == ms[i].version;
    }
    SkipDone(UpTo(ms, k), UpTo(ms, k).applied, ms, k, commits);
    ApplyRest(ms, k, k, commits);
  }

  /**
   A new database after a run that is let to finish: the texts of as many different files as there are have been
   executed, each once and in ascending order of version, and their versions are recorded. `order` is that order.
   */
  lemma CompletedRunExecutesFiles(files: seq<File>, ms: seq<Migration>, commits: nat) returns (order: seq<nat>)
    requires LoadedFrom(files, ms) && commits >= |files|
    ensures var (db, result) := Ran(Database({}, []), ms, commits);
            && result == Completed && |order| == |db.effects| == |files|
            && (forall i :: 0 <= i < |order| ==>
                  order[i] < |files| && db.effects[i] == files[order[i]].sql && files[order[i]].version.Some?
                  && files[order[i]].version.value in db.applied)
            && (forall i, j :: 0 <= i < j < |order| ==>
                  files[order[i]].version.value < files[order[j]].version.value)
            && |db.applied| == |files|
  {
    assert UpTo(ms, 0) == Database({}, []);
    RunResumes(ms, 0, commits);
    assert ms[..|ms|] == ms;
    order :| MadeOf(ms, files, order);
    AscendingSize(Versions(ms));
    forall i | 0 <= i < |order| ensures files[order[i]].version == Some(Versions(ms)[i]) {
      assert Keeps(files[order[i]], ms[i]);
    }
  }

  /** Once a run has completed, running again changes nothing. */
  lemma RerunIsNoOp(ms: seq<Migration>, commits: nat)
    requires Ascending(Versions(ms))
    ensures Ran(UpTo(ms, |ms|), ms, commits) == (UpTo(ms, |ms|), Completed)
  {
    RunResumes(ms, |ms|, commits);
  }

  // ---------------------------------------------------------------- the life of a database

  /** One deployment: the list it ships, and how many transactions it gets to commit. */
  datatype Deployment = Deployment(ms: seq<Migration>, commits: nat)

  /** Every deployment ships an ascending list that extends the one before it. */
  ghost predicate Growing(ds: seq<Deployment>, before: seq<Migration>) {
    ds == [] || (before <= ds[0].ms && Ascending(Versions(ds[0].ms)) && Growing(ds[1..], ds[0].ms))
  }

  ghost function Deploy(db: Database, ds: seq<Deployment>): Database
    decreases |ds|
  {
    if ds == [] then db else Deploy(Ran(db, ds[0].ms, ds[0].commits).0, ds[1..])
  }

  function Latest(ds: seq<Deployment>, before: seq<Migration>): seq<Migration> {
    if ds == [] then before else Latest(ds[1..], ds[0].ms)
  }

  lemma Extended(ms: seq<Migration>, more: seq<Migration>, k: nat)
    requires k <= |ms| && ms <= more
    ensures UpTo(ms, k) == UpTo(more, k)
  {
    assert ms[..k] == more[..k];
  }

  lemma DeployOne(ds: seq<Deployment>, before: seq<Migration>, k: nat)
    requires ds != [] && before <= ds[0].ms && Ascending(Versions(ds[0].ms)) && k <= |before|
    ensures Deploy(UpTo(before, k), ds) == Deploy(UpTo(ds[0].ms, Min(k + ds[0].commits, |ds[0].ms|)), ds[1..])
  {
    Extended(before, ds[0].ms, k);
    RunResumes(ds[0].ms, k, ds[0].commits);
  }

  /** How many migrations are applied in the end: each deployment adds what it gets to commit. */
  function Reached(ds: seq<Deployment>, k: nat): nat {
    if ds == [] then k else Reached(ds[1..], Min(k + ds[0].commits, |ds[0].ms|))
  }

  lemma {:induction false} ReachedBound(ds: seq<Deployment>, before: seq<Migration>, k: nat)
    requires Growing(ds, before) && k <= |before|
    ensures k <= Reached(ds, k) <= |Latest(ds, before)|
  {
    if ds != [] { ReachedBound(ds[1..], ds[0].ms, Min(k + ds[0].commits, |ds[0].ms|)); }
  }

  /**
   Over any number of deployments, each interrupted anywhere: what is applied is always a prefix of the latest list, and
   the committed scripts are those of that prefix, each once and in order.
   */
  lemma {:induction false} DeployKeepsPrefix(ds: seq<Deployment>, before: seq<Migration>, k: nat)
    requires Growing(ds, before) && k <= |before|
    ensures Reached(ds, k) <= |Latest(ds, before)|
    ensures Deploy(UpTo(before, k), ds) == UpTo(Latest(ds, before), Reached(ds, k))
    decreases |ds|
  {
    ReachedBound(ds, before, k);
    if ds != [] {
      DeployOne(ds, before, k);
      DeployKeepsPrefix(ds[1..], ds[0].ms, Min(k + ds[0].commits, |ds[0].ms|));
    }
  }

  /** And a deployment that is let to finish brings the database to the full list. */
  lemma LastRunCompletes(ds: seq<Deployment>, last: Deployment)
    requires Growing(ds, []) && Latest(ds, []) <= last.ms && Ascending(Versions(last.ms)) && last.commits >= |last.ms|
    ensures Ran(Deploy(Database({}, []), ds), last.ms, last.commits) == (UpTo(last.ms, |last.ms|), Completed)
  {
    assert UpTo([], 0) == Database({}, []);
    DeployKeepsPrefix(ds, [], 0);
    Extended(Latest(ds, []), last.ms, Reached(ds, 0));
    RunResumes(last.ms, Reached(ds, 0), last.commits);
  }
}
