/** Migrate and Rollback calls that overlap, cut at their statements (internal/store/migrate.go:19-84,
    cmd/api/main.go:49-61): every API process migrates when it starts, and a rollback is a
    process of its own. */
module MigrateRaces {
  import opened Models
  import opened Migrate
  import Text

  /** A call, named by its next statement. */
  datatype Client =
    | Checking(i: nat)                    // SELECT EXISTS for the i-th file
    | Applying(i: nat)                    // the transaction of a file found missing
    | Selecting(steps: nat)
    | Undoing(versions: seq<string>)      // the transactions of the selected versions

  datatype State<S> = State(db: Db<S>, clients: map<nat, Client>)

  datatype Action =
    | StartMigrate(c: nat)
    | StartRollback(c: nat, steps: nat)
    | Check(c: nat)
    | Apply(c: nat)
    | Select(c: nat, versions: seq<string>)
    | Undo(c: nat)
    | Stop(c: nat)                        // the process dies, or a statement fails

  ghost function Next<S>(x: Scripts<S>, files: seq<string>, s: State<S>, a: Action): State<S> {
    match a
    case StartMigrate(c) => if c in s.clients then s else s.(clients := s.clients[c := Checking(0)])
    case StartRollback(c, steps) => if c in s.clients then s else s.(clients := s.clients[c := Selecting(steps)])
    case Check(c) =>
      if !(c in s.clients && s.clients[c].Checking?) then s
      else if s.clients[c].i >= |files| then s.(clients := s.clients - {c})
      else s.(clients := s.clients[c :=
        if files[s.clients[c].i] in s.db.applied then Checking(s.clients[c].i + 1) else Applying(s.clients[c].i)])
    case Apply(c) =>
      if !(c in s.clients && s.clients[c].Applying? && s.clients[c].i < |files|) then s
      // The primary key refuses a version that somebody else has applied meanwhile.
      else if files[s.clients[c].i] in s.db.applied then s.(clients := s.clients - {c})
      else State(RunUp(x, files[s.clients[c].i], s.db), s.clients[c := Checking(s.clients[c].i + 1)])
    case Select(c, versions) =>
      if !(c in s.clients && s.clients[c].Selecting? && IsNewest(s.db.applied, s.clients[c].steps, versions)) then s
      else s.(clients := s.clients[c := Undoing(versions)])
    case Undo(c) =>
      if !(c in s.clients && s.clients[c].Undoing?) then s
      else if s.clients[c].versions == [] || s.clients[c].versions[0] !in x.hasDown then s.(clients := s.clients - {c})
      // DELETE of a version that is gone already is no error.
      else State(RunDown(x, s.clients[c].versions[0], s.db), s.clients[c := Undoing(s.clients[c].versions[1..])])
    case Stop(c) => s.(clients := s.clients - {c})
  }

  ghost predicate IsRun<S>(x: Scripts<S>, base: S, files: seq<string>, ss: seq<State<S>>, actions: seq<Action>) {
    && |ss| == |actions| + 1
    && ss[0] == State(Db({}, base), map[])
    && forall i {:trigger actions[i]} :: 0 <= i < |actions| ==> ss[i + 1] == Next(x, files, ss[i], actions[i])
  }

  ghost predicate IsPrefix<S>(x: Scripts<S>, base: S, files: seq<string>, db: Db<S>) {
    exists n :: AtPrefix(x, base, files, db, n)
  }

  // ---------- the exact condition ----------

  /** A transaction comes at the right time: an up file when everything before it is still
      applied, a down file when its version is still the newest one applied. A down file
      whose version is gone already must do nothing. */
  ghost predicate Timely<S>(x: Scripts<S>, files: seq<string>, s: State<S>, a: Action) {
    match a
    case Apply(c) =>
      c in s.clients && s.clients[c].Applying? && s.clients[c].i < |files| ==>
        files[s.clients[c].i] in s.db.applied || forall k :: 0 <= k < s.clients[c].i ==> files[k] in s.db.applied
    case Undo(c) =>
      c in s.clients && s.clients[c].Undoing? && s.clients[c].versions != [] && s.clients[c].versions[0] in x.hasDown ==>
        var v := s.clients[c].versions[0];
        if v in s.db.applied then IsGreatest(s.db.applied, v) else x.down(v, s.db.schema) == s.db.schema
    case _ => true
  }

  lemma InPrefix(files: seq<string>, n: nat, f: string)
    requires n <= |files|
    ensures f in Names(files[..n]) <==> exists k :: 0 <= k < n && files[k] == f
  {
    if k :| 0 <= k < n && files[k] == f {
      assert files[..n][k] == f;
    }
  }

  /** No prefix misses a file before one that it has. */
  lemma PrefixHasEarlier(files: seq<string>, applied: set<string>, n: nat, k: nat, i: nat)
    requires Ascending(files) && n <= |files| && applied == Names(files[..n])
    requires k < i < |files| && files[i] in applied
    ensures files[k] in applied
  {
    AscendingMember(files, n, i);
    AscendingMember(files, n, k);
  }

  lemma ApplyKeepsExactly<S>(x: Scripts<S>, base: S, files: seq<string>, db: Db<S>, n: nat, i: nat)
    requires Ascending(files) && AtPrefix(x, base, files, db, n) && i < |files| && files[i] !in db.applied
    ensures IsPrefix(x, base, files, RunUp(x, files[i], db)) <==> forall k :: 0 <= k < i ==> files[k] in db.applied
  {
    AscendingMember(files, n, i);
    if forall k :: 0 <= k < i ==> files[k] in db.applied {
      if n < i {
        assert files[n] in db.applied;
        AscendingMember(files, n, n);
      }
      OneMore(x, base, files, db, n);
    } else {
      var k :| 0 <= k < i && files[k] !in db.applied;
      var after := RunUp(x, files[i], db);
      if m :| AtPrefix(x, base, files, after, m) {
        PrefixHasEarlier(files, after.applied, m, k, i);
        Text.LessIrreflexive(files[i]);
      }
    }
  }

  lemma UndoKeepsExactly<S(!new)>(x: Scripts<S>, base: S, files: seq<string>, db: Db<S>, n: nat, v: string)
    requires Ascending(files) && DownUndoesUp(x) && AtPrefix(x, base, files, db, n) && v in db.applied
    ensures IsPrefix(x, base, files, RunDown(x, v, db)) <==> IsGreatest(db.applied, v)
  {
    InPrefix(files, n, v);
    LastIsGreatest(files, n);
    assert files[n - 1] in db.applied;
    if IsGreatest(db.applied, v) {
      GreatestUnique(db.applied, v, files[n - 1]);
      OneLess(x, base, files, db, n);
    } else {
      var i :| 0 <= i < n && files[i] == v;
      var after := RunDown(x, v, db);
      if m :| AtPrefix(x, base, files, after, m) {
        PrefixHasEarlier(files, after.applied, m, i, n - 1);
      }
    }
  }

  lemma UndoGoneKeepsExactly<S>(x: Scripts<S>, base: S, files: seq<string>, db: Db<S>, n: nat, v: string)
    requires Ascending(files) && AtPrefix(x, base, files, db, n) && v !in db.applied
    ensures IsPrefix(x, base, files, RunDown(x, v, db)) <==> x.down(v, db.schema) == db.schema
  {
    var after := RunDown(x, v, db);
    assert after.applied == db.applied;
    if m :| AtPrefix(x, base, files, after, m) {
      SamePrefix(files, n, m);
    } else {
      assert x.down(v, db.schema) == db.schema ==> after == db;
    }
  }

  lemma SamePrefix(files: seq<string>, n: nat, m: nat)
    requires Ascending(files) && n <= |files| && m <= |files| && Names(files[..n]) == Names(files[..m])
    ensures n == m
  {
    if n != m {
      var i := Min(n, m);
      assert files[i] in Names(files[..n]) <==> files[i] in files[..n];
      assert files[i] in Names(files[..m]) <==> files[i] in files[..m];
      AscendingMember(files, n, i);
      AscendingMember(files, m, i);
    }
  }

  /** One statement of any client keeps the applied set a prefix, and the schema its fold,
      exactly when it is timely. */
  lemma StepKeepsExactly<S(!new)>(x: Scripts<S>, base: S, files: seq<string>, s: State<S>, a: Action)
    requires Ascending(files) && DownUndoesUp(x) && IsPrefix(x, base, files, s.db)
    ensures IsPrefix(x, base, files, Next(x, files, s, a).db) <==> Timely(x, files, s, a)
  {
    var n :| AtPrefix(x, base, files, s.db, n);
    match a
    case Apply(c) =>
      if c in s.clients && s.clients[c].Applying? && s.clients[c].i < |files| && files[s.clients[c].i] !in s.db.applied {
        ApplyKeepsExactly(x, base, files, s.db, n, s.clients[c].i);
      }
    case Undo(c) =>
      if c in s.clients && s.clients[c].Undoing? && s.clients[c].versions != [] && s.clients[c].versions[0] in x.hasDown {
        var v := s.clients[c].versions[0];
        if v in s.db.applied {
          UndoKeepsExactly(x, base, files, s.db, n, v);
        } else {
          UndoGoneKeepsExactly(x, base, files, s.db, n, v);
        }
      }
    case _ =>
      assert Next(x, files, s, a).db == s.db;
  }

  ghost predicate KeptFrom<S>(
    x: Scripts<S>, base: S, files: seq<string>, ss: seq<State<S>>, actions: seq<Action>, n: nat)
    requires n < |actions| < |ss|
  {
    IsPrefix(x, base, files, ss[n].db) ==> (IsPrefix(x, base, files, ss[n + 1].db) <==> Timely(x, files, ss[n], actions[n]))
  }

  lemma KeptAt<S(!new)>(x: Scripts<S>, base: S, files: seq<string>, ss: seq<State<S>>, actions: seq<Action>, n: nat)
    requires Ascending(files) && DownUndoesUp(x) && IsRun(x, base, files, ss, actions) && n < |actions|
    ensures KeptFrom(x, base, files, ss, actions, n)
  {
    if IsPrefix(x, base, files, ss[n].db) {
      StepKeepsExactly(x, base, files, ss[n], actions[n]);
      assert ss[n + 1] == Next(x, files, ss[n], actions[n]);
    }
  }

  ghost predicate AllPrefixes<S>(x: Scripts<S>, base: S, files: seq<string>, ss: seq<State<S>>, m: nat)
    requires m < |ss|
  {
    forall k :: 0 <= k <= m ==> IsPrefix(x, base, files, ss[k].db)
  }

  ghost predicate AllTimely<S>(x: Scripts<S>, files: seq<string>, ss: seq<State<S>>, actions: seq<Action>, m: nat)
    requires m <= |actions| < |ss|
  {
    forall k :: 0 <= k < m ==> Timely(x, files, ss[k], actions[k])
  }

  lemma {:induction false} PrefixUntil<S>(
    x: Scripts<S>, base: S, files: seq<string>, ss: seq<State<S>>, actions: seq<Action>, m: nat)
    requires m <= |actions| < |ss| && IsPrefix(x, base, files, ss[0].db)
    requires forall n :: 0 <= n < m ==> KeptFrom(x, base, files, ss, actions, n)
    ensures AllPrefixes(x, base, files, ss, m) <==> AllTimely(x, files, ss, actions, m)
  {
    if m > 0 {
      PrefixUntil(x, base, files, ss, actions, m - 1);
      assert KeptFrom(x, base, files, ss, actions, m - 1);
      assert AllPrefixes(x, base, files, ss, m) <==> AllPrefixes(x, base, files, ss, m - 1) && IsPrefix(x, base, files, ss[m].db);
      assert AllTimely(x, files, ss, actions, m) <==>
        AllTimely(x, files, ss, actions, m - 1) && Timely(x, files, ss[m - 1], actions[m - 1]);
    }
  }

  /** In every run of overlapping calls, each possibly stopped anywhere: the applied set is a
      prefix with the schema its fold at all points up to m exactly when all transactions up
      to there were timely. */
  lemma PrefixExactly<S(!new)>(
    x: Scripts<S>, base: S, files: seq<string>, ss: seq<State<S>>, actions: seq<Action>, m: nat)
    requires Ascending(files) && DownUndoesUp(x) && IsRun(x, base, files, ss, actions) && m < |ss|
    ensures AllPrefixes(x, base, files, ss, m) <==> AllTimely(x, files, ss, actions, m)
  {
    assert Names(files[..0]) == {};
    assert AtPrefix(x, base, files, ss[0].db, 0);
    forall n | 0 <= n < m ensures KeptFrom(x, base, files, ss, actions, n) {
      KeptAt(x, base, files, ss, actions, n);
    }
    PrefixUntil(x, base, files, ss, actions, m);
  }

  // ---------- migrations alone ----------

  /** Everything before the file that a Migrate has got to is applied. */
  ghost predicate MigratesOnly<S>(files: seq<string>, s: State<S>) {
    forall c :: c in s.clients ==>
      (s.clients[c].Checking? || s.clients[c].Applying?)
      && forall k :: 0 <= k < s.clients[c].i && k < |files| ==> files[k] in s.db.applied
  }

  lemma MigratesStep<S>(x: Scripts<S>, files: seq<string>, s: State<S>, a: Action)
    requires MigratesOnly(files, s) && !a.StartRollback?
    ensures MigratesOnly(files, Next(x, files, s, a)) && Timely(x, files, s, a)
  {
  }

  lemma {:induction false} MigratesTimely<S>(
    x: Scripts<S>, base: S, files: seq<string>, ss: seq<State<S>>, actions: seq<Action>, m: nat)
    requires IsRun(x, base, files, ss, actions) && m < |ss|
    requires forall k {:trigger actions[k]} :: 0 <= k < m ==> !actions[k].StartRollback?
    ensures MigratesOnly(files, ss[m]) && AllTimely(x, files, ss, actions, m)
  {
    if m > 0 {
      MigratesTimely(x, base, files, ss, actions, m - 1);
      assert ss[m] == Next(x, files, ss[m - 1], actions[m - 1]);
      MigratesStep(x, files, ss[m - 1], actions[m - 1]);
    }
  }

  /** Any number of API processes may migrate at the same time and die anywhere: without a
      rollback the applied set is always a prefix and the schema its fold. */
  lemma MigratesNeverClash<S(!new)>(
    x: Scripts<S>, base: S, files: seq<string>, ss: seq<State<S>>, actions: seq<Action>, m: nat)
    requires Ascending(files) && DownUndoesUp(x) && IsRun(x, base, files, ss, actions) && m < |ss|
    requires forall k {:trigger actions[k]} :: 0 <= k < m ==> !actions[k].StartRollback?
    ensures IsPrefix(x, base, files, ss[m].db)
  {
    MigratesTimely(x, base, files, ss, actions, m);
    PrefixExactly(x, base, files, ss, actions, m);
  }

  // ---------- a call that is left alone ----------

  /** The SELECT returns the newest applied versions and nothing else. */
  lemma SelectExactly<S>(x: Scripts<S>, files: seq<string>, s: State<S>, c: nat, versions: seq<string>)
    requires c in s.clients && s.clients[c].Selecting?
    ensures
      var t := Next(x, files, s, Select(c, versions));
      t.db == s.db && c in t.clients
      && (t.clients[c] == Undoing(versions) <==> IsNewest(s.db.applied, s.clients[c].steps, versions))
  {
  }

  ghost function MigrateSteps<S>(x: Scripts<S>, files: seq<string>, s: State<S>, c: nat, n: nat): State<S>
    decreases n
  {
    if n == 0 then Next(x, files, s, Check(c))
    else MigrateSteps(x, files, Next(x, files, Next(x, files, s, Check(c)), Apply(c)), c, n - 1)
  }

  /** The statements of Migrate, one by one, amount to the whole call. */
  lemma {:induction false} AloneIsMigrate<S>(x: Scripts<S>, files: seq<string>, s: State<S>, c: nat, i: nat)
    requires c in s.clients && s.clients[c] == Checking(i) && i <= |files|
    ensures
      var t := MigrateSteps(x, files, s, c, |files| - i);
      t.db == Migrated(x, files[i..], s.db, |files| - i) && t.clients == s.clients - {c}
    decreases |files| - i
  {
    if i < |files| {
      var t := Next(x, files, Next(x, files, s, Check(c)), Apply(c));
      assert t.clients == s.clients[c := Checking(i + 1)];
      assert files[i..][0] == files[i] && files[i..][1..] == files[i + 1..];
      AloneIsMigrate(x, files, t, c, i + 1);
      assert t.clients - {c} == s.clients - {c};
      if files[i] in s.db.applied {
        BudgetSpare(x, files[i + 1..], s.db, |files| - i - 1);
      }
    }
  }

  /** A budget of one transaction per file is enough. */
  lemma {:induction false} BudgetSpare<S>(x: Scripts<S>, files: seq<string>, db: Db<S>, budget: nat)
    requires budget >= |files|
    ensures Migrated(x, files, db, budget + 1) == Migrated(x, files, db, budget)
    decreases |files|
  {
    if files != [] {
      if files[0] in db.applied {
        BudgetSpare(x, files[1..], db, budget);
      } else {
        BudgetSpare(x, files[1..], RunUp(x, files[0], db), budget - 1);
      }
    }
  }

  ghost function UndoSteps<S>(x: Scripts<S>, files: seq<string>, s: State<S>, c: nat, n: nat): State<S>
    decreases n
  {
    if n == 0 then s else UndoSteps(x, files, Next(x, files, s, Undo(c)), c, n - 1)
  }

  lemma {:induction false} UndoneIsOver<S>(x: Scripts<S>, files: seq<string>, s: State<S>, c: nat, n: nat)
    requires c !in s.clients
    ensures UndoSteps(x, files, s, c, n) == s
    decreases n
  {
    if n > 0 {
      UndoneIsOver(x, files, s, c, n - 1);
    }
  }

  /** And so do those of Rollback. */
  lemma {:induction false} AloneIsRollback<S>(x: Scripts<S>, files: seq<string>, s: State<S>, c: nat, versions: seq<string>)
    requires c in s.clients && s.clients[c] == Undoing(versions)
    ensures
      var t := UndoSteps(x, files, s, c, |versions| + 1);
      t.db == Undone(x, versions, s.db, |versions|) && t.clients == s.clients - {c}
    decreases |versions|
  {
    var t := Next(x, files, s, Undo(c));
    if versions == [] || versions[0] !in x.hasDown {
      UndoneIsOver(x, files, t, c, |versions|);
    } else {
      AloneIsRollback(x, files, t, c, versions[1..]);
      assert t.clients - {c} == s.clients - {c};
    }
  }

  /** Both from the first statement on. */
  lemma CallsAlone<S>(x: Scripts<S>, files: seq<string>, s: State<S>, c: nat, steps: nat, versions: seq<string>)
    requires c !in s.clients && IsNewest(s.db.applied, steps, versions)
    ensures MigrateSteps(x, files, Next(x, files, s, StartMigrate(c)), c, |files|).db == Migrated(x, files, s.db, |files|)
    ensures
      var selected := Next(x, files, Next(x, files, s, StartRollback(c, steps)), Select(c, versions));
      UndoSteps(x, files, selected, c, |versions| + 1).db == Undone(x, versions, s.db, |versions|)
  {
    AloneIsMigrate(x, files, Next(x, files, s, StartMigrate(c)), c, 0);
    assert files[0..] == files;
    var selected := Next(x, files, Next(x, files, s, StartRollback(c, steps)), Select(c, versions));
    assert selected.clients[c] == Undoing(versions);
    AloneIsRollback(x, files, selected, c, versions);
  }

  // ---------- a rollback in between ----------

  const FILES := ["1.sql", "2.sql", "3.sql"]

  /** Scripts that leave a schema of one number alone. */
  function Idle(): Scripts<int> {
    Scripts((name, s) => s, (name, s) => s, {"1.sql", "2.sql", "3.sql"})
  }

  lemma Then(ss: seq<State<int>>, actions: seq<Action>, a: Action) returns (ss': seq<State<int>>, actions': seq<Action>)
    requires IsRun(Idle(), 0, FILES, ss, actions)
    ensures IsRun(Idle(), 0, FILES, ss', actions') && ss'[|ss'| - 1] == Next(Idle(), FILES, ss[|ss| - 1], a)
  {
    ss', actions' := ss + [Next(Idle(), FILES, ss[|ss| - 1], a)], actions + [a];
  }

  lemma FilesAscend()
    ensures Ascending(FILES) && DownUndoesUp(Idle())
    ensures IsNewest({FILES[0], FILES[1]}, 1, [FILES[1]])
  {
    assert FILES[0][0] < FILES[1][0] < FILES[2][0];
    assert IsGreatest({FILES[0], FILES[1]}, FILES[1]);
    assert IsNewest({FILES[0], FILES[1]} - {FILES[1]}, 0, []);
  }

  /** The third file has been found missing when somebody rolls the second one back. */
  lemma RolledBackRun() returns (ss: seq<State<int>>, actions: seq<Action>)
    ensures IsRun(Idle(), 0, FILES, ss, actions)
    ensures ss[|ss| - 1] == State(Db({FILES[0]}, 0), map[0 := Applying(2), 1 := Undoing([])])
  {
    FilesAscend();
    ss, actions := [State(Db({}, 0), map[])], [];
    ss, actions := Then(ss, actions, StartMigrate(0));
    ss, actions := Then(ss, actions, Check(0));
    ss, actions := Then(ss, actions, Apply(0));
    assert ss[|ss| - 1] == State(Db({FILES[0]}, 0), map[0 := Checking(1)]);
    ss, actions := Then(ss, actions, Check(0));
    ss, actions := Then(ss, actions, Apply(0));
    ss, actions := Then(ss, actions, Check(0));
    assert ss[|ss| - 1] == State(Db({FILES[0], FILES[1]}, 0), map[0 := Applying(2)]);
    ss, actions := Then(ss, actions, StartRollback(1, 1));
    ss, actions := Then(ss, actions, Select(1, [FILES[1]]));
    ss, actions := Then(ss, actions, Undo(1));
  }

  /** The migration then applies the third file without the second. */
  lemma ClashRun() returns (ss: seq<State<int>>, actions: seq<Action>)
    ensures IsRun(Idle(), 0, FILES, ss, actions)
    ensures ss[|ss| - 1].db.applied == {FILES[0], FILES[2]} && !IsPrefix(Idle(), 0, FILES, ss[|ss| - 1].db)
  {
    ss, actions := RolledBackRun();
    var s := ss[|ss| - 1];
    FilesAscend();
    assert FILES[2][0] != FILES[0][0] && FILES[1][0] != FILES[0][0];
    ss, actions := Then(ss, actions, Apply(0));
    assert Names(FILES[..1]) == {FILES[0]};
    assert Fold(Idle(), 0, FILES[..1]) == 0;
    assert AtPrefix(Idle(), 0, FILES, s.db, 1);
    StepKeepsExactly(Idle(), 0, FILES, s, Apply(0));
    assert !Timely(Idle(), FILES, s, Apply(0)) by {
      assert FILES[1] !in s.db.applied;
    }
  }
}
