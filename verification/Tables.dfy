/** What every run of legal SQL statements keeps, whoever issues them and in
    whatever order (internal/store/store.go, migrations/0001_init.sql).

    A statement is legal when the status it is guarded by was checked against the
    transition table first; Cluster shows that the clients only issue legal ones. */
module Tables {
  import opened Models
  import opened Sql

  datatype Statement =
    | Insert(id: JobId, key: JobKey, labels: seq<string>)
    | Move(id: JobId, from: JobStatus, change: Change)
    | Assign(id: JobId, r: RunnerId, from: JobStatus, now: int)
    | Release(r: RunnerId)
    | Heartbeat(r: RunnerId, now: int)
    | Reap(cutoff: int)
    | Append(id: JobId, seqNo: int, chunk: seq<Byte>)
    | Register(r: RunnerId, labels: seq<string>, now: int)

  function Execute(db: Db, st: Statement): Db {
    match st
    case Insert(id, key, labels) => InsertJob(db, id, key, labels)
    case Move(id, from, change) => UpdateJob(db, id, from, change)
    case Assign(id, r, from, now) => AssignTx(db, id, r, from, now)
    case Release(r) => ReleaseRunner(db, r)
    case Heartbeat(r, now) => Beat(db, r, now)
    case Reap(cutoff) => MarkOffline(db, cutoff)
    case Append(id, seqNo, chunk) => AppendLog(db, id, seqNo, chunk)
    case Register(r, labels, now) => InsertRunner(db, r, labels, now)
  }

  predicate Legal(st: Statement) {
    match st
    case Move(_, from, change) => from.CanTransitionTo(change.Target()) && change.Valid()
    case Assign(_, _, from, _) => from.CanTransitionTo(Assigned)
    case _ => true
  }

  ghost predicate Step(before: Db, after: Db) {
    before == after || exists st :: Legal(st) && after == Execute(before, st)
  }

  /** The successive contents of the database, from empty tables. */
  ghost predicate IsHistory(dbs: seq<Db>) {
    && |dbs| > 0
    && dbs[0] == EMPTY
    && forall i :: 0 <= i < |dbs| - 1 ==> StepAt(dbs, i)
  }

  ghost predicate StepAt(dbs: seq<Db>, i: nat)
    requires i + 1 < |dbs|
  {
    Step(dbs[i], dbs[i + 1])
  }

  lemma HistoryFront(dbs: seq<Db>)
    requires IsHistory(dbs) && |dbs| > 1
    ensures IsHistory(dbs[..|dbs| - 1])
    ensures Step(dbs[|dbs| - 2], dbs[|dbs| - 1])
  {
    var front := dbs[..|dbs| - 1];
    assert StepAt(dbs, |dbs| - 2);
    forall i | 0 <= i < |front| - 1 ensures StepAt(front, i) {
      assert StepAt(dbs, i);
    }
  }

  // ---------- runner rows ----------

  ghost predicate BusyIffHolding(db: Db) {
    forall r :: r in db.runners ==> (db.runners[r].status == Busy <==> db.runners[r].currentJob.Some?)
  }

  ghost predicate RunnerEdges(before: Db, after: Db) {
    forall r :: r in before.runners ==>
      && r in after.runners
      && (before.runners[r].status == after.runners[r].status
          || before.runners[r].status.CanTransitionTo(after.runners[r].status))
  }

  lemma StatementKeepsBusy(db: Db, st: Statement)
    requires BusyIffHolding(db)
    ensures BusyIffHolding(Execute(db, st))
  {
  }

  lemma StatementIsEdge(db: Db, st: Statement)
    requires BusyIffHolding(db)
    ensures RunnerEdges(db, Execute(db, st))
  {
  }

  lemma RunnerStep(before: Db, after: Db)
    requires Step(before, after) && BusyIffHolding(before)
    ensures BusyIffHolding(after) && RunnerEdges(before, after)
  {
    if before != after {
      var st :| Legal(st) && after == Execute(before, st);
      StatementKeepsBusy(before, st);
      StatementIsEdge(before, st);
    }
  }

  /** Every status write is an edge of the runner table or no change at all, and a
      runner is BUSY exactly when it names a job. */
  lemma {:induction false} RunnerRows(dbs: seq<Db>, i: nat)
    requires IsHistory(dbs) && i < |dbs|
    ensures BusyIffHolding(dbs[i])
    ensures i + 1 < |dbs| ==> RunnerEdges(dbs[i], dbs[i + 1])
  {
    if i > 0 {
      RunnerRows(dbs, i - 1);
      assert StepAt(dbs, i - 1);
      RunnerStep(dbs[i - 1], dbs[i]);
    }
    if i + 1 < |dbs| {
      assert StepAt(dbs, i);
      RunnerStep(dbs[i], dbs[i + 1]);
    }
  }

  // ---------- the idempotency index ----------

  ghost predicate UniqueActive(db: Db) {
    forall i, j | i in db.jobs && j in db.jobs && i != j ::
      db.jobs[i].status.Active() && db.jobs[j].status.Active() ==> db.jobs[i].key != db.jobs[j].key
  }

  /** No statement but the INSERT can trip the index: the UPDATEs are modelled
      without any index check, and still never produce a violation. */
  lemma IndexNeverTripped(db: Db, st: Statement)
    requires UniqueActive(db) && Legal(st)
    ensures UniqueActive(Execute(db, st))
  {
    var after := Execute(db, st);
    assert !st.Insert? ==> forall j :: j in after.jobs ==>
      j in db.jobs && db.jobs[j].key == after.jobs[j].key
      && (after.jobs[j].status.Active() ==> db.jobs[j].status.Active());
  }

  lemma {:induction false} ActiveJobsUnique(dbs: seq<Db>, i: nat)
    requires IsHistory(dbs) && i < |dbs|
    ensures UniqueActive(dbs[i])
  {
    if i > 0 {
      ActiveJobsUnique(dbs, i - 1);
      assert StepAt(dbs, i - 1);
      if dbs[i - 1] != dbs[i] {
        var st :| Legal(st) && dbs[i] == Execute(dbs[i - 1], st);
        IndexNeverTripped(dbs[i - 1], st);
      }
    }
  }

  /** CreateJob reports a duplicate exactly when the id is taken or an unfinished job
      already covers the same repository, commit and event; otherwise the row exists
      afterwards, QUEUED, and no other row has changed. */
  lemma InsertAdmits(db: Db, id: JobId, key: JobKey, labels: seq<string>)
    ensures InsertJob(db, id, key, labels) != db <==>
      id !in db.jobs && forall j :: j in db.jobs && db.jobs[j].key == key ==> db.jobs[j].status.Terminal()
    ensures InsertJob(db, id, key, labels) != db ==>
      && InStatus(InsertJob(db, id, key, labels), id, Queued)
      && InsertJob(db, id, key, labels).jobs - {id} == db.jobs
  {
    var after := InsertJob(db, id, key, labels);
    if !Conflicts(db, id, key) {
      assert id in after.jobs;
      assert after.jobs - {id} == db.jobs;
    }
  }

  // ---------- job rows over a whole run ----------

  predicate Begun(job: Job) {
    job.status == Running || job.status.Terminal()
  }

  /** What may happen to one row between any two points of a run. */
  ghost predicate RowEvolves(a: Job, b: Job) {
    && a.key == b.key && a.labels == b.labels
    && a.attempts <= b.attempts
    && a.logSeq <= b.logSeq && a.logs <= b.logs
    && (a.status.Terminal() ==> b == a.(logs := b.logs, logSeq := b.logSeq))
    && (a.attempts == b.attempts && b.status.Held() ==> a.status.Held() && a.runnerId == b.runnerId)
    && (a.attempts == b.attempts && b.runnerId.Some? ==> a.runnerId == b.runnerId)
    && (a.attempts == b.attempts && b.runnerId.Some? && Begun(a) ==> Begun(b) && a.startedAt == b.startedAt)
  }

  ghost predicate Evolves(before: Db, after: Db) {
    forall j :: j in before.jobs ==> j in after.jobs && RowEvolves(before.jobs[j], after.jobs[j])
  }

  lemma EvolvesTransitive(a: Db, b: Db, c: Db)
    requires Evolves(a, b) && Evolves(b, c)
    ensures Evolves(a, c)
  {
    forall j | j in a.jobs ensures j in c.jobs && RowEvolves(a.jobs[j], c.jobs[j]) {
      assert RowEvolves(a.jobs[j], b.jobs[j]) && RowEvolves(b.jobs[j], c.jobs[j]);
    }
  }

  lemma StatementEvolves(db: Db, st: Statement)
    requires Legal(st)
    ensures Evolves(db, Execute(db, st))
  {
  }

  lemma StepEvolves(before: Db, after: Db)
    requires Step(before, after)
    ensures Evolves(before, after)
  {
    if before != after {
      var st :| Legal(st) && after == Execute(before, st);
      StatementEvolves(before, st);
    }
  }

  lemma EvolvesAt(dbs: seq<Db>, m: nat)
    requires IsHistory(dbs) && m + 1 < |dbs|
    ensures Evolves(dbs[m], dbs[m + 1])
  {
    assert StepAt(dbs, m);
    StepEvolves(dbs[m], dbs[m + 1]);
  }

  /** Once a job is terminal its status, runner, attempts, exit code, error and times
      never change again, and two points of a run with equal `attempts` at which a
      runner holds the job name the same runner; within one attempt started_at, once set, stays. */
  lemma {:induction false} JobsEvolve(dbs: seq<Db>, i: nat, k: nat)
    requires IsHistory(dbs) && i <= k < |dbs|
    ensures Evolves(dbs[i], dbs[k])
    decreases k
  {
    if i < k {
      JobsEvolve(dbs, i, k - 1);
      EvolvesAt(dbs, k - 1);
      EvolvesTransitive(dbs[i], dbs[k - 1], dbs[k]);
    }
  }

  // ---------- committed statuses form a path ----------

  /** The statuses job j has gone through, each committed change once. */
  function Committed(dbs: seq<Db>, j: JobId): seq<JobStatus> {
    if dbs == [] then [] else
      var path := Committed(dbs[..|dbs| - 1], j);
      var db := dbs[|dbs| - 1];
      if j !in db.jobs || (path != [] && path[|path| - 1] == db.jobs[j].status) then path
      else path + [db.jobs[j].status]
  }

  ghost predicate IsPath(path: seq<JobStatus>) {
    && (path != [] ==> path[0] == Queued)
    && forall i :: 0 <= i < |path| - 1 ==> path[i].CanTransitionTo(path[i + 1])
  }

  lemma StatusStep(before: Db, after: Db, j: JobId)
    requires Step(before, after)
    ensures j in before.jobs ==>
      && j in after.jobs
      && (before.jobs[j].status == after.jobs[j].status || before.jobs[j].status.CanTransitionTo(after.jobs[j].status))
    ensures j in after.jobs && j !in before.jobs ==> after.jobs[j].status == Queued
  {
  }

  /** However the statements interleave, the committed statuses of a job are a path
      of the transition table that starts at QUEUED and ends at its present status. */
  lemma {:induction false} CommittedPath(dbs: seq<Db>, j: JobId)
    requires IsHistory(dbs)
    ensures IsPath(Committed(dbs, j))
    ensures Committed(dbs, j) != [] <==> j in dbs[|dbs| - 1].jobs
    ensures j in dbs[|dbs| - 1].jobs ==>
      var path := Committed(dbs, j); path[|path| - 1] == dbs[|dbs| - 1].jobs[j].status
    decreases |dbs|
  {
    var front := dbs[..|dbs| - 1];
    if |dbs| == 1 {
      assert Committed(front, j) == [];
    } else {
      HistoryFront(dbs);
      CommittedPath(front, j);
      var n := |dbs| - 1;
      assert front[|front| - 1] == dbs[n - 1];
      StatusStep(dbs[n - 1], dbs[n], j);
    }
  }

  // ---------- times and results ----------

  /** The time and result columns agree with the status. */
  ghost predicate RowTimed(job: Job) {
    && (job.completedAt.Some? <==> job.status.Terminal())
    && (job.exitCode.Some? <==> job.status == Success || job.status == Failed)
    && (job.exitCode.None? ==> job.error == "")
    && (job.startedAt.Some? ==> job.status != Queued && job.status != Assigned)
    && (job.status == Running || job.status == Success ==> job.startedAt.Some?)
  }

  ghost predicate RowsTimed(db: Db) {
    forall j :: j in db.jobs ==> RowTimed(db.jobs[j])
  }

  lemma ChangeKeepsTimes(job: Job, change: Change)
    requires RowTimed(job) && job.status.CanTransitionTo(change.Target()) && change.Valid()
    ensures RowTimed(change.Write(job))
  {
  }

  lemma StatementKeepsTimes(db: Db, st: Statement)
    requires Legal(st) && RowsTimed(db)
    ensures RowsTimed(Execute(db, st))
  {
    var after := Execute(db, st);
    if st.Move? && InStatus(db, st.id, st.from) {
      ChangeKeepsTimes(db.jobs[st.id], st.change);
    } else {
      forall j | j in after.jobs ensures RowTimed(after.jobs[j]) {
      }
    }
  }

  /** completed_at is set exactly on terminal jobs, exit_code exactly on reported ones;
      started_at is cleared by a requeue and present on every RUNNING or SUCCESS job. */
  lemma {:induction false} TimesAgree(dbs: seq<Db>, i: nat)
    requires IsHistory(dbs) && i < |dbs|
    ensures RowsTimed(dbs[i])
  {
    if i > 0 {
      TimesAgree(dbs, i - 1);
      assert StepAt(dbs, i - 1);
      if dbs[i - 1] != dbs[i] {
        var st :| Legal(st) && dbs[i] == Execute(dbs[i - 1], st);
        StatementKeepsTimes(dbs[i - 1], st);
      }
    }
  }

  // ---------- reaping and coming back ----------

  /** A reap leaves no stale runner behind, takes every job reference from those it marks,
      touches nobody else, and a runner it marked is schedulable again after one heartbeat. */
  lemma ReapAndRevive(db: Db, cutoff: int, r: RunnerId, now: int)
    requires r in db.runners
    ensures StaleRunners(MarkOffline(db, cutoff), cutoff) == {}
    ensures MarkOffline(db, cutoff).jobs == db.jobs && MarkOffline(db, cutoff).runners.Keys == db.runners.Keys
    ensures r !in StaleRunners(db, cutoff) ==> MarkOffline(db, cutoff).runners[r] == db.runners[r]
    ensures r in StaleRunners(db, cutoff) && now > cutoff ==>
      var back := Beat(MarkOffline(db, cutoff), r, now);
      r in LiveIdle(back, cutoff) && r !in StaleRunners(back, cutoff) && back.runners[r].currentJob == None
    ensures r in StaleRunners(db, cutoff) ==> r !in LiveIdle(MarkOffline(db, cutoff), cutoff)
  {
    var marked := MarkOffline(db, cutoff);
    forall q ensures q !in StaleRunners(marked, cutoff) {
    }
  }

  /** A newly registered runner is schedulable at once, never used and owning nothing; an
      existing row is never overwritten. */
  lemma RegisterJoins(db: Db, r: RunnerId, labels: seq<string>, now: int, cutoff: int)
    requires cutoff < now
    ensures r !in db.runners ==>
      var after := InsertRunner(db, r, labels, now);
      && LiveIdle(after, cutoff) == LiveIdle(db, cutoff) + {r}
      && after.runners[r].labels == labels && after.runners[r].lastAssigned.None? && after.runners[r].currentJob.None?
      && after.runners - {r} == db.runners && after.jobs == db.jobs
    ensures r in db.runners ==> InsertRunner(db, r, labels, now) == db
  {
    if r !in db.runners {
      assert InsertRunner(db, r, labels, now).runners - {r} == db.runners;
    }
  }

  // ---------- attempts ----------

  /** How often an existing row of j has been put back to QUEUED. */
  function Requeues(dbs: seq<Db>, j: JobId): nat {
    if |dbs| < 2 then 0 else
      var a, b := dbs[|dbs| - 2], dbs[|dbs| - 1];
      Requeues(dbs[..|dbs| - 1], j)
      + (if j in a.jobs && j in b.jobs && a.jobs[j].status != Queued && b.jobs[j].status == Queued then 1 else 0)
  }

  ghost predicate Accounted(job: Job, requeues: nat) {
    && job.attempts == requeues + (if job.runnerId.Some? then 1 else 0)
    && (job.status == Queued ==> job.runnerId.None?)
    && (job.status.Held() ==> job.runnerId.Some?)
  }

  lemma AccountingStep(before: Db, after: Db, j: JobId, requeues: nat)
    requires Step(before, after) && j in after.jobs
    requires j in before.jobs ==> Accounted(before.jobs[j], requeues)
    requires j !in before.jobs ==> requeues == 0
    ensures Accounted(after.jobs[j],
      requeues + (if j in before.jobs && before.jobs[j].status != Queued && after.jobs[j].status == Queued then 1 else 0))
  {
  }

  lemma {:induction false} NoRowNoRequeues(dbs: seq<Db>, j: JobId)
    requires IsHistory(dbs) && j !in dbs[|dbs| - 1].jobs
    ensures Requeues(dbs, j) == 0
    decreases |dbs|
  {
    if |dbs| >= 2 {
      var front := dbs[..|dbs| - 1];
      HistoryFront(dbs);
      assert front[|front| - 1] == dbs[|dbs| - 2];
      StepEvolves(dbs[|dbs| - 2], dbs[|dbs| - 1]);
      NoRowNoRequeues(front, j);
    }
  }

  /** `attempts` is the number of committed requeues, plus one exactly when the row
      names a runner; QUEUED rows name none, ASSIGNED and RUNNING rows name one. */
  lemma {:induction false} AttemptsAccounted(dbs: seq<Db>, j: JobId)
    requires IsHistory(dbs) && j in dbs[|dbs| - 1].jobs
    ensures Accounted(dbs[|dbs| - 1].jobs[j], Requeues(dbs, j))
    decreases |dbs|
  {
    if |dbs| >= 2 {
      var front, n := dbs[..|dbs| - 1], |dbs| - 1;
      HistoryFront(dbs);
      assert front[|front| - 1] == dbs[n - 1];
      if j in dbs[n - 1].jobs {
        AttemptsAccounted(front, j);
      } else {
        NoRowNoRequeues(front, j);
      }
      AccountingStep(dbs[n - 1], dbs[n], j, Requeues(front, j));
    }
  }

  // ---------- the lease ----------

  /** leaseLost on the row that GetJob returns; an unknown job is a lost lease. */
  predicate LeaseLost(db: Db, r: RunnerId, j: JobId) {
    j !in db.jobs || db.jobs[j].status.Terminal() || db.jobs[j].runnerId != Some(r)
  }

  ghost predicate QueuedUnowned(db: Db) {
    forall j :: InStatus(db, j, Queued) ==> db.jobs[j].runnerId.None?
  }

  lemma StatementKeepsUnowned(db: Db, st: Statement)
    requires QueuedUnowned(db) && Legal(st)
    ensures QueuedUnowned(Execute(db, st))
  {
  }

  lemma {:induction false} QueuedUnownedHolds(dbs: seq<Db>, i: nat)
    requires IsHistory(dbs) && i < |dbs|
    ensures QueuedUnowned(dbs[i])
  {
    if i > 0 {
      QueuedUnownedHolds(dbs, i - 1);
      assert StepAt(dbs, i - 1);
      if dbs[i - 1] != dbs[i] {
        var st :| Legal(st) && dbs[i] == Execute(dbs[i - 1], st);
        StatementKeepsUnowned(dbs[i - 1], st);
      }
    }
  }

  /** In every reachable state r has lost its lease on j exactly when it does not hold the
      job: the row is missing, QUEUED, finished or with another runner. */
  lemma LeaseLostExactly(dbs: seq<Db>, i: nat, r: RunnerId, j: JobId)
    requires IsHistory(dbs) && i < |dbs|
    ensures LeaseLost(dbs[i], r, j) <==>
      !(j in dbs[i].jobs && (dbs[i].jobs[j].status == Assigned || dbs[i].jobs[j].status == Running)
        && dbs[i].jobs[j].runnerId == Some(r))
  {
    QueuedUnownedHolds(dbs, i);
  }

  /** The rows show that AssignJob(j, r) has just committed. */
  ghost predicate AssignmentCommitted(before: Db, after: Db, j: JobId, r: RunnerId) {
    && InStatus(before, j, Queued)
    && InStatus(after, j, Assigned)
    && after.jobs[j].runnerId == Some(r)
  }

  lemma LeaseStep(before: Db, after: Db, r: RunnerId, j: JobId)
    requires Step(before, after) && LeaseLost(before, r, j)
    ensures LeaseLost(after, r, j) || AssignmentCommitted(before, after, j, r)
  {
  }

  lemma LeaseStepAt(dbs: seq<Db>, m: nat, r: RunnerId, j: JobId)
    requires IsHistory(dbs) && m + 1 < |dbs|
    requires LeaseLost(dbs[m], r, j) && !AssignmentCommitted(dbs[m], dbs[m + 1], j, r)
    ensures LeaseLost(dbs[m + 1], r, j)
  {
    assert StepAt(dbs, m);
    LeaseStep(dbs[m], dbs[m + 1], r, j);
  }

  ghost predicate NeverReassigned(dbs: seq<Db>, i: nat, k: nat, j: JobId, r: RunnerId)
    requires i <= k < |dbs|
  {
    forall m :: i <= m < k ==> !AssignmentCommitted(dbs[m], dbs[m + 1], j, r)
  }

  /** A lost lease stays lost until the same job is assigned to the same runner anew. */
  lemma {:induction false} LostLeaseStaysLost(dbs: seq<Db>, i: nat, k: nat, r: RunnerId, j: JobId)
    requires IsHistory(dbs) && i <= k < |dbs|
    requires LeaseLost(dbs[i], r, j) && NeverReassigned(dbs, i, k, j, r)
    ensures LeaseLost(dbs[k], r, j)
    decreases k
  {
    if i < k {
      LostLeaseStaysLost(dbs, i, k - 1, r, j);
      LeaseStepAt(dbs, k - 1, r, j);
    }
  }
}
