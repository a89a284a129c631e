/** Migrations: apply in filename order, roll back newest first, and survive being stopped
    between any two transactions (internal/store/migrate.go). */
module Migrate {
  import opened Models
  import opened Lists
  import Text

  /** The embedded files: what running a body does to the schema, and which versions
      have a down file. */
  datatype Scripts<!S> = Scripts(up: (string, S) -> S, down: (string, S) -> S, hasDown: set<string>)

  datatype Db<S> = Db(applied: set<string>, schema: S)

  // ---------- transactions and calls ----------

  /** runMigration: the body and the bookkeeping row commit together. */
  function RunUp<S>(x: Scripts<S>, name: string, db: Db<S>): Db<S> {
    Db(db.applied + {name}, x.up(name, db.schema))
  }

  function RunDown<S>(x: Scripts<S>, name: string, db: Db<S>): Db<S> {
    Db(db.applied - {name}, x.down(name, db.schema))
  }

  /** Migrate, stopped by a crash or an error once `budget` transactions have committed. */
  function Migrated<S>(x: Scripts<S>, files: seq<string>, db: Db<S>, budget: nat): Db<S>
    decreases |files|
  {
    if files == [] then db
    else if files[0] in db.applied then Migrated(x, files[1..], db, budget)
    else if budget == 0 then db
    else Migrated(x, files[1..], RunUp(x, files[0], db), budget - 1)
  }

  /** The loop of Rollback over the selected versions; it ends at a missing down file. */
  function Undone<S>(x: Scripts<S>, versions: seq<string>, db: Db<S>, budget: nat): Db<S>
    decreases |versions|
  {
    if versions == [] || budget == 0 || versions[0] !in x.hasDown then db
    else Undone(x, versions[1..], RunDown(x, versions[0], db), budget - 1)
  }

  ghost predicate IsGreatest(versions: set<string>, v: string) {
    v in versions && forall w :: w in versions && w != v ==> Text.Less(w, v)
  }

  lemma GreatestUnique(versions: set<string>, v: string, w: string)
    requires IsGreatest(versions, v) && IsGreatest(versions, w)
    ensures v == w
  {
    if v != w {
      Text.LessTransitive(v, w, v);
      Text.LessIrreflexive(v);
    }
  }

  /** SELECT version ... ORDER BY version DESC LIMIT steps. */
  ghost predicate IsNewest(applied: set<string>, steps: nat, versions: seq<string>)
    decreases steps
  {
    if applied == {} || steps == 0 then versions == []
    else versions != [] && IsGreatest(applied, versions[0]) && IsNewest(applied - {versions[0]}, steps - 1, versions[1..])
  }

  // ---------- the sorted list of up files ----------

  ghost predicate Ascending(files: seq<string>) {
    forall i, k :: 0 <= i < k < |files| ==> Text.Less(files[i], files[k])
  }

  predicate HasSuffix(s: string, suffix: string) {
    |suffix| <= |s| && s[|s| - |suffix|..] == suffix
  }

  function Insert(name: string, files: seq<string>): seq<string> {
    if files == [] || Text.Less(name, files[0]) then [name] + files else [files[0]] + Insert(name, files[1..])
  }

  lemma {:induction false} InsertAscends(name: string, files: seq<string>)
    requires Ascending(files) && name !in files
    ensures Ascending(Insert(name, files))
    ensures forall f :: f in Insert(name, files) <==> f == name || f in files
  {
    if files != [] {
      assert files == [files[0]] + files[1..];
      if Text.Less(name, files[0]) {
        forall k | 0 <= k < |files| ensures Text.Less(name, files[k]) {
          if k > 0 {
            Text.LessTransitive(name, files[0], files[k]);
          }
        }
      } else {
        InsertAscends(name, files[1..]);
        Text.LessTotal(name, files[0]);
        var tail := Insert(name, files[1..]);
        forall k | 0 <= k < |tail| ensures Text.Less(files[0], tail[k]) {
          assert tail[k] in tail;
        }
      }
    }
  }

  /** upMigrations: every .sql file but the .down.sql ones, each once, in filename order. */
  method UpMigrations(names: seq<string>) returns (up: seq<string>)
    requires forall i, k :: 0 <= i < k < |names| ==> names[i] != names[k]
    ensures Ascending(up)
    ensures forall f :: f in up <==> f in names && HasSuffix(f, ".sql") && !HasSuffix(f, ".down.sql")
  {
    up := [];
    for i := 0 to |names|
      invariant Ascending(up)
      invariant forall f :: f in up <==> f in names[..i] && HasSuffix(f, ".sql") && !HasSuffix(f, ".down.sql")
    {
      if HasSuffix(names[i], ".sql") && !HasSuffix(names[i], ".down.sql") {
        assert names[i] !in names[..i];
        InsertAscends(names[i], up);
        up := Insert(names[i], up);
      }
    }
    assert names[..|names|] == names;
  }

  // ---------- the migrator ----------

  class Migrator<!S> {
    const scripts: Scripts<S>
    var applied: set<string>
    var schema: S

    function Contents(): Db<S>
      reads this
    {
      Db(applied, schema)
    }

    constructor (scripts: Scripts<S>, base: S)
      ensures this.scripts == scripts && Contents() == Db({}, base)
    {
      this.scripts, applied, schema := scripts, {}, base;
    }

    method Migrate(files: seq<string>, budget: nat)
      modifies this
      ensures Contents() == Migrated(scripts, files, old(Contents()), budget)
    {
      var left := budget;
      for i := 0 to |files|
        invariant Migrated(scripts, files[i..], Contents(), left) == Migrated(scripts, files, old(Contents()), budget)
      {
        assert files[i..][0] == files[i] && files[i..][1..] == files[i + 1..];
        if files[i] !in applied {
          if left == 0 {
            return;
          }
          applied, schema, left := applied + {files[i]}, scripts.up(files[i], schema), left - 1;
        }
      }
    }

    /** A negative LIMIT is an SQL error. Returns whether the selection succeeded. */
    method Rollback(steps: int, budget: nat) returns (ok: bool)
      modifies this
      ensures ok <==> steps >= 0
      ensures !ok ==> Contents() == old(Contents())
      ensures ok ==> exists versions ::
        IsNewest(old(applied), steps, versions) && Contents() == Undone(scripts, versions, old(Contents()), budget)
    {
      if steps < 0 {
        return false;
      }
      var versions := Newest(steps);
      ok := true;
      var left := budget;
      for i := 0 to |versions|
        invariant Undone(scripts, versions[i..], Contents(), left) == Undone(scripts, versions, old(Contents()), budget)
      {
        assert versions[i..][0] == versions[i] && versions[i..][1..] == versions[i + 1..];
        if left == 0 || versions[i] !in scripts.hasDown {
          return;
        }
        applied, schema, left := applied - {versions[i]}, scripts.down(versions[i], schema), left - 1;
      }
    }

    method Newest(steps: nat) returns (versions: seq<string>)
      ensures IsNewest(applied, steps, versions)
    {
      versions := NewestOf(applied, steps);
    }

    static method NewestOf(applied: set<string>, steps: nat) returns (versions: seq<string>)
      ensures IsNewest(applied, steps, versions)
      decreases steps
    {
      if applied == {} || steps == 0 {
        return [];
      }
      var greatest := Greatest(applied);
      var rest := NewestOf(applied - {greatest}, steps - 1);
      versions := [greatest] + rest;
    }

    static method Greatest(versions: set<string>) returns (v: string)
      requires versions != {}
      ensures IsGreatest(versions, v)
    {
      v :| v in versions;
      var todo := versions - {v};
      while todo != {}
        invariant todo < versions && IsGreatest(versions - todo, v)
        decreases todo
      {
        var w :| w in todo;
        Text.LessTotal(v, w);
        if Text.Less(v, w) {
          forall u | u in versions - todo && u != v ensures Text.Less(u, w) {
            Text.LessTransitive(u, v, w);
          }
          v := w;
        }
        todo := todo - {w};
      }
      assert versions - todo == versions;
    }
  }

  // ---------- crash safety ----------

  function Fold<S>(x: Scripts<S>, base: S, files: seq<string>): S {
    if files == [] then base else x.up(files[|files| - 1], Fold(x, base, files[..|files| - 1]))
  }

  ghost predicate DownUndoesUp<S(!new)>(x: Scripts<S>) {
    forall name, s :: x.down(name, x.up(name, s)) == s
  }

  function Names(files: seq<string>): set<string> {
    set f | f in files
  }

  /** The first n files are applied, and the schema is their fold. */
  ghost predicate AtPrefix<S>(x: Scripts<S>, base: S, files: seq<string>, db: Db<S>, n: nat) {
    n <= |files| && db == Db(Names(files[..n]), Fold(x, base, files[..n]))
  }

  function Min(a: nat, b: nat): nat {
    if a < b then a else b
  }

  lemma AscendingMember(files: seq<string>, n: nat, i: nat)
    requires Ascending(files) && n <= |files| && i < |files|
    ensures files[i] in files[..n] <==> i < n
  {
    if files[i] in files[..n] && i >= n {
      var k :| 0 <= k < n && files[k] == files[i];
      Text.LessIrreflexive(files[i]);
    }
  }

  lemma OneMore<S>(x: Scripts<S>, base: S, files: seq<string>, db: Db<S>, n: nat)
    requires AtPrefix(x, base, files, db, n) && n < |files|
    ensures AtPrefix(x, base, files, RunUp(x, files[n], db), n + 1)
  {
    assert files[..n + 1] == files[..n] + [files[n]] && files[..n + 1][..n] == files[..n];
    assert Names(files[..n + 1]) == Names(files[..n]) + {files[n]};
  }

  /** The loop has looked at the first i files. */
  lemma {:induction false} MigratedFrom<S>(x: Scripts<S>, base: S, files: seq<string>, db: Db<S>, budget: nat, n: nat, i: nat)
    requires Ascending(files) && AtPrefix(x, base, files, db, n) && i <= |files| && i <= n
    ensures AtPrefix(x, base, files, Migrated(x, files[i..], db, budget), Min(|files|, n + budget))
    decreases |files| - i
  {
    if i < |files| {
      assert files[i..][0] == files[i] && files[i..][1..] == files[i + 1..];
      AscendingMember(files, n, i);
      if i < n {
        MigratedFrom(x, base, files, db, budget, n, i + 1);
      } else if budget > 0 {
        OneMore(x, base, files, db, n);
        MigratedFrom(x, base, files, RunUp(x, files[i], db), budget - 1, n + 1, i + 1);
      }
    }
  }

  /** Wherever it is stopped, Migrate extends the applied prefix by the transactions that
      committed; left to finish it applies every file. */
  lemma MigrateExtends<S>(x: Scripts<S>, base: S, files: seq<string>, db: Db<S>, budget: nat, n: nat)
    requires Ascending(files) && AtPrefix(x, base, files, db, n)
    ensures AtPrefix(x, base, files, Migrated(x, files, db, budget), Min(|files|, n + budget))
  {
    assert files[0..] == files;
    MigratedFrom(x, base, files, db, budget, n, 0);
  }

  /** Migrate applies every file exactly once: a further call changes nothing. */
  lemma MigrateIdempotent<S>(x: Scripts<S>, base: S, files: seq<string>, db: Db<S>, budget: nat, again: nat, n: nat)
    requires Ascending(files) && AtPrefix(x, base, files, db, n) && budget >= |files|
    ensures Migrated(x, files, db, budget) == Db(Names(files), Fold(x, base, files))
    ensures Migrated(x, files, Migrated(x, files, db, budget), again) == Migrated(x, files, db, budget)
  {
    MigrateExtends(x, base, files, db, budget, n);
    MigrateExtends(x, base, files, Migrated(x, files, db, budget), again, |files|);
    assert files[..|files|] == files;
  }

  lemma LastIsGreatest(files: seq<string>, n: nat)
    requires Ascending(files) && 0 < n <= |files|
    ensures IsGreatest(Names(files[..n]), files[n - 1])
    ensures Names(files[..n]) - {files[n - 1]} == Names(files[..n - 1])
  {
    assert files[..n] == files[..n - 1] + [files[n - 1]];
    AscendingMember(files, n - 1, n - 1);
  }

  lemma OneLess<S(!new)>(x: Scripts<S>, base: S, files: seq<string>, db: Db<S>, n: nat)
    requires Ascending(files) && DownUndoesUp(x) && AtPrefix(x, base, files, db, n) && n > 0
    ensures AtPrefix(x, base, files, RunDown(x, files[n - 1], db), n - 1)
  {
    LastIsGreatest(files, n);
    assert files[..n][..n - 1] == files[..n - 1];
  }

  /** The selected versions are the last applied files, newest first. */
  ghost predicate AreLast(files: seq<string>, n: nat, versions: seq<string>) {
    |versions| <= n <= |files| && forall k :: 0 <= k < |versions| ==> versions[k] == files[n - 1 - k]
  }

  lemma {:induction false} NewestAreLast(files: seq<string>, n: nat, steps: nat, versions: seq<string>)
    requires Ascending(files) && n <= |files| && IsNewest(Names(files[..n]), steps, versions)
    ensures AreLast(files, n, versions) && |versions| == Min(steps, n)
    decreases steps
  {
    if n == 0 {
      assert Names(files[..0]) == {};
    } else if steps > 0 {
      LastIsGreatest(files, n);
      assert files[n - 1] in Names(files[..n]);
      GreatestUnique(Names(files[..n]), versions[0], files[n - 1]);
      NewestAreLast(files, n - 1, steps - 1, versions[1..]);
    }
  }

  /** How many of the selected versions the loop of Rollback undoes. */
  function Count<S>(x: Scripts<S>, versions: seq<string>, budget: nat): (count: nat)
    ensures count <= Min(|versions|, budget)
    ensures (forall k :: 0 <= k < |versions| ==> versions[k] in x.hasDown) ==> count == Min(|versions|, budget)
    decreases |versions|
  {
    if versions == [] || budget == 0 || versions[0] !in x.hasDown then 0 else 1 + Count(x, versions[1..], budget - 1)
  }

  lemma {:induction false} UndonePrefix<S(!new)>(
    x: Scripts<S>, base: S, files: seq<string>, db: Db<S>, versions: seq<string>, budget: nat, n: nat)
    requires Ascending(files) && DownUndoesUp(x) && AtPrefix(x, base, files, db, n) && AreLast(files, n, versions)
    ensures AtPrefix(x, base, files, Undone(x, versions, db, budget), n - Count(x, versions, budget))
    decreases |versions|
  {
    if versions != [] && budget > 0 && versions[0] in x.hasDown {
      OneLess(x, base, files, db, n);
      UndonePrefix(x, base, files, RunDown(x, versions[0], db), versions[1..], budget - 1, n - 1);
    }
  }

  lemma LastAreUndone<S>(x: Scripts<S>, files: seq<string>, n: nat, versions: seq<string>, budget: nat)
    requires AreLast(files, n, versions)
    ensures Names(files) <= x.hasDown ==> Count(x, versions, budget) == Min(|versions|, budget)
  {
    assert forall k :: 0 <= k < |versions| ==> versions[k] in Names(files);
  }

  /** Rollback removes a suffix, newest first, wherever it is stopped and whether or not
      every down file exists. If they all do it removes exactly the last min(steps, applied). */
  lemma RollbackShrinks<S(!new)>(
    x: Scripts<S>, base: S, files: seq<string>, db: Db<S>, steps: nat, versions: seq<string>, budget: nat, n: nat)
    returns (m: nat)
    requires Ascending(files) && DownUndoesUp(x) && AtPrefix(x, base, files, db, n)
    requires IsNewest(db.applied, steps, versions)
    ensures AtPrefix(x, base, files, Undone(x, versions, db, budget), m)
    ensures n - Min(steps, Min(n, budget)) <= m <= n
    ensures Names(files) <= x.hasDown ==> m == n - Min(steps, Min(n, budget))
  {
    NewestAreLast(files, n, steps, versions);
    UndonePrefix(x, base, files, db, versions, budget, n);
    LastAreUndone(x, files, n, versions, budget);
    m := n - Count(x, versions, budget);
  }

  datatype Op = Up(budget: nat) | Back(versions: seq<string>, steps: nat, budget: nat)

  /** One call that may have been stopped; `versions` is what the SELECT returned. */
  ghost predicate Called<S>(x: Scripts<S>, files: seq<string>, before: Db<S>, op: Op, after: Db<S>) {
    match op
    case Up(budget) => after == Migrated(x, files, before, budget)
    case Back(versions, steps, budget) =>
      IsNewest(before.applied, steps, versions) && after == Undone(x, versions, before, budget)
  }

  /** In every run of Migrate and Rollback calls, each possibly stopped between transactions,
      the applied set is a prefix of the sorted files and the schema is the fold of exactly
      that prefix. */
  lemma {:induction false} AlwaysAtPrefix<S(!new)>(x: Scripts<S>, base: S, files: seq<string>, dbs: seq<Db<S>>, ops: seq<Op>, i: nat)
    returns (n: nat)
    requires Ascending(files) && DownUndoesUp(x)
    requires |dbs| == |ops| + 1 && dbs[0] == Db({}, base) && i < |dbs|
    requires forall k :: 0 <= k < |ops| ==> Called(x, files, dbs[k], ops[k], dbs[k + 1])
    ensures AtPrefix(x, base, files, dbs[i], n)
  {
    if i == 0 {
      n := 0;
      assert Names(files[..0]) == {};
    } else {
      n := AlwaysAtPrefix(x, base, files, dbs, ops, i - 1);
      assert Called(x, files, dbs[i - 1], ops[i - 1], dbs[i]);
      match ops[i - 1]
      case Up(budget) =>
        MigrateExtends(x, base, files, dbs[i - 1], budget, n);
        n := Min(|files|, n + budget);
      case Back(versions, steps, budget) =>
        n := RollbackShrinks(x, base, files, dbs[i - 1], steps, versions, budget, n);
    }
  }
}
