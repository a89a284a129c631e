/** Who owns which job, with each store method and each reaper pass as one step
    (internal/store/store.go:118-194, 286-345, internal/scheduler/service.go:135-154). */
module Ownership {
  import opened Models
  import opened Sql
  import opened Calls
  import opened Cluster
  import Tables

  datatype Step =
    | CreateJob(id: JobId, key: JobKey, labels: seq<string>)
    | RegisterRunner(r: RunnerId, labels: seq<string>, now: int)
    | AssignJob(id: JobId, r: RunnerId, now: int)
    | ChangeJob(id: JobId, change: Change)
    | BeatRunner(r: RunnerId, now: int)
    | AppendLogs(id: JobId, seqNo: int, chunk: seq<Byte>)
    | ReapPass(cutoff: int, order: seq<RunnerId>)

  function Do(db: Db, step: Step): Db {
    match step
    case CreateJob(id, key, labels) => if id == "" then db else InsertJob(db, id, key, labels)
    case RegisterRunner(r, labels, now) => InsertRunner(db, r, labels, now)
    case AssignJob(id, r, now) => AssignAtomically(db, id, r, now).0
    case ChangeJob(id, change) => if change.Valid() then Atomically(db, id, change).0 else db
    case BeatRunner(r, now) => Beat(db, r, now)
    case AppendLogs(id, seqNo, chunk) => AppendLog(db, id, seqNo, chunk)
    case ReapPass(cutoff, order) =>
      if Enumerates(order, StaleRunners(db, cutoff)) then Reaped(db, cutoff, order) else db
  }

  /** The steps are the methods of the store: for the statement they issue, or as a whole. */
  lemma StepsAreMethods(db: Db, step: Step)
    ensures step.CreateJob? && step.id != "" ==> Do(db, step) == Tables.Execute(db, Tables.Insert(step.id, step.key, step.labels))
    ensures step.RegisterRunner? ==> Do(db, step) == Tables.Execute(db, Tables.Register(step.r, step.labels, step.now))
    ensures step.AssignJob? ==> Do(db, step) == Tables.Execute(db, Tables.Assign(step.id, step.r, Queued, step.now))
    ensures step.ChangeJob? && step.change.Valid() ==> Do(db, step) == AdvanceTimes(db, Call(step.id, step.change, AtRead), 3).0
    ensures step.BeatRunner? ==> Do(db, step) == Tables.Execute(db, Tables.Heartbeat(step.r, step.now))
    ensures step.AppendLogs? ==> Do(db, step) == Tables.Execute(db, Tables.Append(step.id, step.seqNo, step.chunk))
    ensures step.ReapPass? && Enumerates(step.order, StaleRunners(db, step.cutoff)) ==>
      Do(db, step) == RequeueAll(Tables.Execute(db, Tables.Reap(step.cutoff)), Orphans(db, step.order))
  {
    if step.ChangeJob? {
      UninterruptedIsAtomic(db, step.id, step.change);
    }
  }

  /** One tick of the reaper: mark the silent runners OFFLINE, requeue what they held. */
  function Reaped(db: Db, cutoff: int, order: seq<RunnerId>): Db {
    RequeueAll(MarkOffline(db, cutoff), Orphans(db, order))
  }

  function RequeueAll(db: Db, orphans: seq<JobId>): Db
    decreases |orphans|
  {
    if orphans == [] then db
    else RequeueAll(RequeueOne(db, orphans[0]), orphans[1..])
  }

  /** The empty id stands for a runner that held nothing. */
  function RequeueOne(db: Db, id: JobId): Db {
    if id == "" then db else Atomically(db, id, Change.Requeue).0
  }

  function After(steps: seq<Step>): Db {
    if steps == [] then EMPTY else Do(After(steps[..|steps| - 1]), steps[|steps| - 1])
  }

  // ---------- one to one ----------

  /** The runner row of j's runner names j back. */
  ghost predicate Served(db: Db, j: JobId) {
    && j in db.jobs && db.jobs[j].status.Held() && db.jobs[j].runnerId.Some?
    && var r := db.jobs[j].runnerId.value;
    r in db.runners && db.runners[r].status == Busy && db.runners[r].currentJob == Some(j)
  }

  /** A BUSY runner serves the job it names; any other runner names none. */
  ghost predicate RunnersServe(db: Db) {
    forall r :: r in db.runners ==>
      if db.runners[r].status == Busy
      then db.runners[r].currentJob.Some? && var j := db.runners[r].currentJob.value;
        Served(db, j) && db.jobs[j].runnerId == Some(r)
      else db.runners[r].currentJob.None?
  }

  /** A QUEUED job names no runner, so cancelling it releases nobody. */
  ghost predicate QueuedUnowned(db: Db) {
    "" !in db.jobs && forall j :: InStatus(db, j, Queued) ==> db.jobs[j].runnerId.None?
  }

  /** BUSY runners and ASSIGNED/RUNNING jobs correspond one to one through
      current_job_id and runner_id; IDLE and OFFLINE runners own nothing. */
  ghost predicate OneToOne(db: Db) {
    && QueuedUnowned(db)
    && RunnersServe(db)
    && forall j :: j in db.jobs && db.jobs[j].status.Held() ==> Served(db, j)
  }

  /** Within a reaper pass: a held job that is not served is still to be requeued. */
  ghost predicate AllButOrphans(db: Db, orphans: seq<JobId>) {
    && QueuedUnowned(db)
    && RunnersServe(db)
    && forall j :: j in db.jobs && db.jobs[j].status.Held() ==>
      Served(db, j) || (j in orphans && db.jobs[j].runnerId.Some? && !IsBusy(db, db.jobs[j].runnerId.value))
  }

  predicate IsBusy(db: Db, r: RunnerId) {
    r in db.runners && db.runners[r].status == Busy
  }

  /** A releasing change of a held job frees at most the runner that serves it. */
  lemma OthersStayServed(db: Db, j: JobId, change: Change, k: JobId)
    requires RunnersServe(db) && change.Valid()
    requires j in db.jobs && (db.jobs[j].runnerId.Some? && IsBusy(db, db.jobs[j].runnerId.value) ==> Served(db, j))
    requires k != j && Served(db, k)
    ensures Served(Atomically(db, j, change).0, k)
  {
  }

  lemma ChangedServe(db: Db, j: JobId, change: Change)
    requires RunnersServe(db) && change.Valid()
    requires j in db.jobs && (db.jobs[j].runnerId.Some? && IsBusy(db, db.jobs[j].runnerId.value) ==> Served(db, j))
    ensures RunnersServe(Atomically(db, j, change).0)
  {
    var after := Atomically(db, j, change).0;
    forall r | r in after.runners && after.runners[r].status == Busy
      ensures after.runners[r].currentJob.Some?
      ensures Served(after, after.runners[r].currentJob.value)
      ensures after.jobs[after.runners[r].currentJob.value].runnerId == Some(r)
    {
      assert after.runners[r] == db.runners[r];
      var k := db.runners[r].currentJob.value;
      assert Served(db, k) && db.jobs[k].runnerId == Some(r);
      if k != j {
        OthersStayServed(db, j, change, k);
      }
    }
  }

  lemma RequeueOrphan(db: Db, orphans: seq<JobId>)
    requires AllButOrphans(db, orphans) && orphans != [] && orphans[0] != ""
    ensures AllButOrphans(Atomically(db, orphans[0], Change.Requeue).0, orphans[1..])
  {
    var j := orphans[0];
    var after := Atomically(db, j, Change.Requeue).0;
    assert forall k :: k in orphans ==> k == j || k in orphans[1..];
    if j in db.jobs && db.jobs[j].status.Held() {
      ChangedServe(db, j, Change.Requeue);
      forall k | k in after.jobs && after.jobs[k].status.Held()
        ensures Served(after, k) || (k in orphans[1..] && after.jobs[k].runnerId.Some? && !IsBusy(after, after.jobs[k].runnerId.value))
      {
        assert k != j && after.jobs[k] == db.jobs[k];
        if Served(db, k) {
          OthersStayServed(db, j, Change.Requeue, k);
        }
      }
    } else {
      assert after == db;
    }
  }

  lemma {:induction false} RequeueAllServes(db: Db, orphans: seq<JobId>)
    requires AllButOrphans(db, orphans)
    ensures OneToOne(RequeueAll(db, orphans))
    decreases |orphans|
  {
    if orphans != [] {
      if orphans[0] == "" {
        assert forall k :: k in db.jobs && k in orphans ==> k in orphans[1..];
        RequeueAllServes(db, orphans[1..]);
      } else {
        RequeueOrphan(db, orphans);
        RequeueAllServes(Atomically(db, orphans[0], Change.Requeue).0, orphans[1..]);
      }
    }
  }

  lemma ReapPassKeeps(db: Db, cutoff: int, order: seq<RunnerId>)
    requires OneToOne(db) && Enumerates(order, StaleRunners(db, cutoff))
    ensures OneToOne(Reaped(db, cutoff, order))
  {
    var marked, orphans := MarkOffline(db, cutoff), Orphans(db, order);
    forall j | j in marked.jobs && marked.jobs[j].status.Held()
      ensures Served(marked, j) || (j in orphans && !IsBusy(marked, marked.jobs[j].runnerId.value))
    {
      var r := db.jobs[j].runnerId.value;
      assert Served(db, j);
      if r in StaleRunners(db, cutoff) {
        var i :| 0 <= i < |order| && order[i] == r;
        assert orphans[i] == j;
      }
    }
    RequeueAllServes(marked, orphans);
  }

  lemma ChangeKeeps(db: Db, id: JobId, change: Change)
    requires OneToOne(db) && change.Valid()
    ensures OneToOne(Atomically(db, id, change).0)
  {
    var after := Atomically(db, id, change).0;
    if Atomically(db, id, change).1 == Ok {
      ChangedServe(db, id, change);
      forall k | k in after.jobs && after.jobs[k].status.Held() ensures Served(after, k) {
        if k != id {
          OthersStayServed(db, id, change, k);
        }
      }
    }
  }

  lemma AssignKeeps(db: Db, id: JobId, r: RunnerId, now: int)
    requires OneToOne(db)
    ensures OneToOne(AssignAtomically(db, id, r, now).0)
  {
    var after := AssignAtomically(db, id, r, now).0;
    assert forall k :: k != id && Served(db, k) ==> Served(after, k);
  }

  lemma StepKeeps(db: Db, step: Step)
    requires OneToOne(db)
    ensures OneToOne(Do(db, step))
  {
    match step
    case ReapPass(cutoff, order) =>
      if Enumerates(order, StaleRunners(db, cutoff)) {
        ReapPassKeeps(db, cutoff, order);
      }
    case ChangeJob(id, change) =>
      if change.Valid() {
        ChangeKeeps(db, id, change);
      }
    case AssignJob(id, r, now) => AssignKeeps(db, id, r, now);
    case _ =>
      assert forall k :: Served(db, k) ==> Served(Do(db, step), k);
  }

  /** In every reachable state of the method-level machine, ownership is one to one. */
  lemma {:induction false} OwnershipBijection(steps: seq<Step>)
    ensures OneToOne(After(steps))
    decreases |steps|
  {
    if steps != [] {
      OwnershipBijection(steps[..|steps| - 1]);
      StepKeeps(After(steps[..|steps| - 1]), steps[|steps| - 1]);
    }
  }

  /** So no runner ever holds two jobs. */
  lemma NoRunnerHoldsTwo(steps: seq<Step>, i: JobId, j: JobId)
    requires i in After(steps).jobs && After(steps).jobs[i].status.Held()
    requires j in After(steps).jobs && After(steps).jobs[j].status.Held()
    requires i != j
    ensures After(steps).jobs[i].runnerId != After(steps).jobs[j].runnerId
  {
    OwnershipBijection(steps);
    assert Served(After(steps), i) && Served(After(steps), j);
  }

  // ---------- statement by statement ----------

  /** The statement takes runner r out of BUSY: a release that names it, or a reap that
      finds it stale. Neither looks at the job. */
  predicate Takes(db: Db, st: Tables.Statement, r: RunnerId) {
    || st == Tables.Release(r)
    || (st.Reap? && r in StaleRunners(db, st.cutoff))
  }

  predicate TakesRunner(s: State, a: Action, r: RunnerId) {
    StatementAt(s, a).Some? && Takes(s.db, StatementAt(s, a).value, r)
  }

  /** The row of k says that r holds it. */
  predicate HeldBy(db: Db, k: JobId, r: RunnerId) {
    k in db.jobs && db.jobs[k].status.Held() && db.jobs[k].runnerId == Some(r)
  }

  /** A statement that leaves the row of a served job with its runner makes the runner row
      disagree exactly when it takes the runner; a job that is not served is not served
      again while its row stays with the same runner. */
  lemma StatementRobsExactly(db: Db, st: Tables.Statement, k: JobId, r: RunnerId)
    requires Tables.Legal(st)
    requires HeldBy(db, k, r) && HeldBy(Tables.Execute(db, st), k, r)
    ensures Served(Tables.Execute(db, st), k) <==> Served(db, k) && !Takes(db, st, r)
  {
  }

  lemma StepRobsExactly(s: State, a: Action, k: JobId, r: RunnerId)
    requires AllChecked(s)
    requires HeldBy(s.db, k, r) && HeldBy(Next(s, a).db, k, r)
    ensures Served(Next(s, a).db, k) <==> Served(s.db, k) && !TakesRunner(s, a, r)
  {
    StepIsLegal(s, a);
    var st := StatementAt(s, a);
    if st.Some? {
      StatementRobsExactly(s.db, st.value, k, r);
    }
  }

  /** A committed assignment makes the two rows agree, whatever they said before. */
  lemma CommitServes(s: State, now: int)
    requires s.sched.Committing? && Next(s, Sched(Commit(now))).sched.Dispatching?
    ensures
      var t := Next(s, Sched(Commit(now)));
      HeldBy(t.db, s.sched.job, s.sched.runner) && Served(t.db, s.sched.job)
  {
  }

  lemma StepRobsAt(ss: seq<State>, actions: seq<Action>, n: nat, k: JobId, r: RunnerId)
    requires IsRun(ss, actions) && n < |actions| && HeldBy(ss[n].db, k, r) && HeldBy(ss[n + 1].db, k, r)
    ensures Served(ss[n + 1].db, k) <==> Served(ss[n].db, k) && !TakesRunner(ss[n], actions[n], r)
  {
    AlwaysChecked(ss, actions, n);
    StepRobsExactly(ss[n], actions[n], k, r);
  }

  ghost predicate HeldBetween(ss: seq<State>, i: nat, m: nat, k: JobId, r: RunnerId)
    requires i <= m < |ss|
  {
    forall n :: i <= n <= m ==> HeldBy(ss[n].db, k, r)
  }

  lemma {:induction false} ServedBefore(ss: seq<State>, actions: seq<Action>, i: nat, m: nat, k: JobId, r: RunnerId)
    requires IsRun(ss, actions) && i <= m < |ss| && HeldBetween(ss, i, m, k, r) && Served(ss[m].db, k)
    ensures Served(ss[i].db, k)
    decreases m
  {
    if i < m {
      StepRobsAt(ss, actions, m - 1, k, r);
      ServedBefore(ss, actions, i, m - 1, k, r);
    }
  }

  /** The step that took the runner. */
  lemma {:induction false} LastServed(ss: seq<State>, actions: seq<Action>, i: nat, m: nat, k: JobId, r: RunnerId)
    returns (n: nat)
    requires IsRun(ss, actions) && i <= m < |ss| && HeldBetween(ss, i, m, k, r)
    requires Served(ss[i].db, k) && !Served(ss[m].db, k)
    ensures i <= n < m && TakesRunner(ss[n], actions[n], r)
    decreases m
  {
    n := m - 1;
    if Served(ss[n].db, k) {
      StepRobsAt(ss, actions, n, k, r);
    } else {
      n := LastServed(ss, actions, i, n, k, r);
    }
  }

  /** In every run of the whole system, at the granularity of SQL statements: as long as
      the row of k stays with r, the runner row of r agrees exactly if no release of r and
      no reap of a stale r has come in between, whichever job they were meant for. */
  lemma ServedExactly(ss: seq<State>, actions: seq<Action>, i: nat, m: nat, k: JobId, r: RunnerId)
    requires IsRun(ss, actions) && i <= m < |ss| && HeldBetween(ss, i, m, k, r) && Served(ss[i].db, k)
    ensures Served(ss[m].db, k) <==> forall n :: i <= n < m ==> !TakesRunner(ss[n], actions[n], r)
  {
    if Served(ss[m].db, k) {
      forall n | i <= n < m ensures !TakesRunner(ss[n], actions[n], r) {
        ServedBefore(ss, actions, n + 1, m, k, r);
        StepRobsAt(ss, actions, n, k, r);
      }
    } else {
      var n := LastServed(ss, actions, i, m, k, r);
    }
  }

  /** The same for a method run as one step (complete, cancel or requeue of j): it takes
      the runner away from another job exactly when j's row still names a runner that
      serves that other job by now. */
  lemma ReleaseRobsExactly(db: Db, j: JobId, change: Change)
    requires change.Valid() && change.Releases()
    requires Atomically(db, j, change).1 == Ok
    ensures (forall k :: k != j && Served(db, k) ==> Served(Atomically(db, j, change).0, k)) <==>
      !exists k :: k != j && Served(db, k) && db.jobs[j].runnerId == db.jobs[k].runnerId
  {
    var after, owner := Atomically(db, j, change).0, db.jobs[j].runnerId;
    forall k | k != j && Served(db, k) ensures Served(after, k) <==> owner != db.jobs[k].runnerId {
    }
  }
}
