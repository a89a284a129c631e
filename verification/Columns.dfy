/** Column by column, what each statement of internal/store/store.go writes and what it leaves
    alone, and who wrote the values that a run ends up with. */
module Columns {
  import opened Models
  import opened Sql
  import opened Cluster
  import Tables

  // ---------- the two state machines ----------

  /** By target: a job is assigned from QUEUED and started from ASSIGNED; it succeeds only
      after it has started; a held job can fail or go back; an unfinished one can be
      cancelled. */
  lemma JobTransitions(from: JobStatus, to: JobStatus)
    ensures from.CanTransitionTo(to) <==> match to
      case Queued => from.Held()
      case Assigned => from == Queued
      case Running => from == Assigned
      case Success => from == Running
      case Failed => from.Held()
      case Cancelled => from.Active()
    ensures from.Terminal() <==> from == Success || from == Failed || from == Cancelled
    ensures from.Active() <==> !from.Terminal()
    ensures from.Held() <==> from.Active() && from != Queued
  {
  }

  /** By target: BUSY only from IDLE, OFFLINE from everywhere else, DRAINING from IDLE or
      BUSY, and back to IDLE from everywhere. */
  lemma RunnerTransitions(from: RunnerStatus, to: RunnerStatus)
    ensures from.CanTransitionTo(to) <==> match to
      case Idle => from != Idle
      case Busy => from == Idle
      case Offline => from != Offline
      case Draining => from == Idle || from == Busy
  {
  }

  // ---------- jobs ----------

  /** The columns that no transition touches. */
  ghost predicate Untouched(a: Job, b: Job) {
    a.key == b.key && a.labels == b.labels && a.attempts == b.attempts && a.logs == b.logs && a.logSeq == b.logSeq
  }

  /** A transition sets the status to its target. started_at is set by a start, to its own
      time, and cleared by a requeue; completed_at is set by the end of the job, to its own
      time; exit code and error come from the report; only a requeue forgets the runner. */
  lemma ChangeWrites(job: Job, change: Change)
    ensures
      var after := change.Write(job);
      && Untouched(job, after)
      && after.status == change.Target()
      && (after.startedAt == if change.Start? then Some(change.now) else if change.Requeue? then None else job.startedAt)
      && (after.completedAt == if change.Complete? || change.Cancel? then Some(change.now) else job.completedAt)
      && (after.exitCode == if change.Complete? then Some(change.exitCode) else job.exitCode)
      && (after.error == if change.Complete? then change.error else job.error)
      && (after.runnerId == if change.Requeue? then None else job.runnerId)
    ensures change.Target() == match change
      case Start(_) => Running
      case Complete(result, _, _, _) => result
      case Requeue => Queued
      case Cancel(_) => Cancelled
  {
  }

  /** All rows but j are the same. */
  ghost predicate OtherJobsSame(before: Db, after: Db, j: JobId) {
    (forall i :: i != j ==> (i in before.jobs <==> i in after.jobs))
    && forall i :: i != j && i in before.jobs ==> after.jobs[i] == before.jobs[i]
  }

  ghost predicate OtherRunnersSame(before: Db, after: Db, r: RunnerId) {
    (forall q :: q != r ==> (q in before.runners <==> q in after.runners))
    && forall q :: q != r && q in before.runners ==> after.runners[q] == before.runners[q]
  }

  /** The guarded UPDATE writes one row if the guard holds, and nothing otherwise. */
  lemma MoveWrites(db: Db, j: JobId, from: JobStatus, change: Change)
    ensures
      var after := UpdateJob(db, j, from, change);
      && after.runners == db.runners && OtherJobsSame(db, after, j)
      && (j in after.jobs <==> j in db.jobs)
      && (j in db.jobs && db.jobs[j].status == from ==> after.jobs[j] == change.Write(db.jobs[j]))
      && (j in db.jobs && db.jobs[j].status != from ==> after.jobs[j] == db.jobs[j])
  {
  }

  /** A new row carries the caller's key and labels; it is QUEUED, unowned, unstarted and
      has an empty log. */
  lemma InsertWrites(db: Db, j: JobId, key: JobKey, labels: seq<string>)
    requires !Conflicts(db, j, key)
    ensures
      var after := InsertJob(db, j, key, labels);
      && after.runners == db.runners && OtherJobsSame(db, after, j) && j in after.jobs
      && var job := after.jobs[j];
      && job.key == key && job.labels == labels && job.status == Queued && job.runnerId.None? && job.attempts == 0
      && job.exitCode.None? && job.error == "" && job.startedAt.None? && job.completedAt.None?
      && job.logs == [] && job.logSeq == 0
  {
  }

  /** A chunk is appended iff its number is above log_seq, which it then becomes. */
  lemma AppendWrites(db: Db, j: JobId, seqNo: int, chunk: seq<Byte>)
    ensures
      var after := AppendLog(db, j, seqNo, chunk);
      && after.runners == db.runners && OtherJobsSame(db, after, j) && (j in after.jobs <==> j in db.jobs)
      && (j in db.jobs ==>
            var a, b := db.jobs[j], after.jobs[j];
            && b.key == a.key && b.labels == a.labels && b.status == a.status && b.runnerId == a.runnerId
            && b.attempts == a.attempts && b.exitCode == a.exitCode && b.error == a.error
            && b.startedAt == a.startedAt && b.completedAt == a.completedAt
            && (b.logs == if seqNo > a.logSeq then a.logs + chunk else a.logs)
            && (b.logSeq == if seqNo > a.logSeq then seqNo else a.logSeq))
  {
  }

  // ---------- runners ----------

  /** Both rows are written, or neither is: the job by status, runner and one attempt more,
      the runner by status, job and stamp. */
  lemma AssignWrites(db: Db, j: JobId, r: RunnerId, from: JobStatus, now: int)
    ensures
      var after := AssignTx(db, j, r, from, now);
      && (!(InStatus(db, j, from) && IsIdle(db, r)) ==> after == db)
      && (InStatus(db, j, from) && IsIdle(db, r) ==>
            && OtherJobsSame(db, after, j) && OtherRunnersSame(db, after, r) && j in after.jobs && r in after.runners
            && var a, b := db.jobs[j], after.jobs[j];
            var p, q := db.runners[r], after.runners[r];
            && b.status == Assigned && b.runnerId == Some(r) && b.attempts == a.attempts + 1
            && b.key == a.key && b.labels == a.labels && b.exitCode == a.exitCode && b.error == a.error
            && b.startedAt == a.startedAt && b.completedAt == a.completedAt && b.logs == a.logs && b.logSeq == a.logSeq
            && q.status == Busy && q.currentJob == Some(j) && q.lastAssigned == Some(now)
            && q.labels == p.labels && q.lastHeartbeat == p.lastHeartbeat)
  {
  }

  /** A BUSY runner becomes IDLE and names no job; nothing else changes, and nothing at all
      for a runner that is not BUSY. */
  lemma ReleaseWrites(db: Db, r: RunnerId)
    ensures
      var after := ReleaseRunner(db, r);
      && after.jobs == db.jobs && OtherRunnersSame(db, after, r) && (r in after.runners <==> r in db.runners)
      && (r in db.runners ==>
            var p, q := db.runners[r], after.runners[r];
            && q.labels == p.labels && q.lastHeartbeat == p.lastHeartbeat && q.lastAssigned == p.lastAssigned
            && (q.status == if p.status == Busy then Idle else p.status)
            && (q.currentJob == if p.status == Busy then None else p.currentJob))
  {
  }

  /** A heartbeat refreshes any runner it knows, whatever its status: it is not stale for any
      cutoff up to its time. The status changes only from OFFLINE to IDLE, and nothing else
      changes. */
  lemma BeatRefreshes(db: Db, r: RunnerId, now: int, cutoff: int)
    requires cutoff <= now
    ensures
      var after := Beat(db, r, now);
      && after.jobs == db.jobs && OtherRunnersSame(db, after, r) && (r in after.runners <==> r in db.runners)
      && r !in StaleRunners(after, cutoff)
      && (r in db.runners ==>
            var p, q := db.runners[r], after.runners[r];
            && q.lastHeartbeat == now && q.labels == p.labels && q.lastAssigned == p.lastAssigned
            && q.currentJob == p.currentJob && (q.status == if p.status == Offline then Idle else p.status))
  {
  }

  /** A reap writes exactly the rows that have not been heard of since the cutoff and are not
      OFFLINE yet: they become OFFLINE and name no job, and keep everything else. */
  lemma ReapWrites(db: Db, cutoff: int, r: RunnerId)
    ensures MarkOffline(db, cutoff).jobs == db.jobs && (r in MarkOffline(db, cutoff).runners <==> r in db.runners)
    ensures r in db.runners ==>
      var p, q := db.runners[r], MarkOffline(db, cutoff).runners[r];
      var stale := p.status != Offline && p.lastHeartbeat < cutoff;
      && (r in StaleRunners(db, cutoff) <==> stale)
      && q.labels == p.labels && q.lastHeartbeat == p.lastHeartbeat && q.lastAssigned == p.lastAssigned
      && (q.status == if stale then Offline else p.status)
      && (q.currentJob == if stale then None else p.currentJob)
  {
  }

  /** The pool is what the WHERE clause says, and no runner is in the pool and stale. */
  lemma PoolIsLive(db: Db, cutoff: int, r: RunnerId)
    ensures r in LiveIdle(db, cutoff) <==>
      r in db.runners && db.runners[r].status == Idle && db.runners[r].lastHeartbeat > cutoff
    ensures !(r in LiveIdle(db, cutoff) && r in StaleRunners(db, cutoff))
  {
  }

  // ---------- the requests that carry the values ----------

  /** A webhook's job has the key and the labels of its request, and the webhook owes its push. */
  lemma CreateStores(s: State, w: nat, j: JobId, key: JobKey, labels: seq<string>)
    requires w !in s.webhooks && j != "" && !Conflicts(s.db, j, key)
    ensures
      var t := Next(s, Api(Create(w, j, key, labels)));
      && InStatus(t.db, j, Queued) && t.db.jobs[j].key == key && t.db.jobs[j].labels == labels
      && OtherJobsSame(s.db, t.db, j) && w in t.webhooks && t.webhooks[w] == j
  {
  }

  /** A runner is registered with its labels and the time of its registration. */
  lemma RegisterStores(s: State, r: RunnerId, labels: seq<string>, now: int)
    requires r !in s.db.runners
    ensures
      var t := Next(s, Api(Register(r, labels, now)));
      && r in t.db.runners && t.db.runners[r].labels == labels && t.db.runners[r].lastHeartbeat == now
      && t.db.runners[r].status == Idle && OtherRunnersSame(s.db, t.db, r)
  {
  }

  lemma LogsStore(s: State, j: JobId, seqNo: int, chunk: seq<Byte>)
    requires j in s.db.jobs && seqNo > s.db.jobs[j].logSeq
    ensures
      var t := Next(s, Api(Logs(j, seqNo, chunk)));
      j in t.db.jobs && t.db.jobs[j].logs == s.db.jobs[j].logs + chunk && t.db.jobs[j].logSeq == seqNo
  {
  }

  /** A tick marks exactly the runners that are stale for its cutoff. */
  lemma TickMarks(s: State, cutoff: int, order: seq<RunnerId>, r: RunnerId)
    requires s.reaper.Waiting? && Enumerates(order, StaleRunners(s.db, cutoff)) && r in s.db.runners
    ensures
      var t := Next(s, Reaper(Reap(cutoff, order)));
      && r in t.db.runners
      && (t.db.runners[r].status == Offline <==> s.db.runners[r].status == Offline || s.db.runners[r].lastHeartbeat < cutoff)
  {
  }

  // ---------- whose value it is ----------

  /** The step commits this transition of j. */
  predicate Commits(s: State, a: Action, j: JobId, change: Change) {
    && StatementAt(s, a).Some? && StatementAt(s, a).value.Move?
    && StatementAt(s, a).value.id == j && StatementAt(s, a).value.change == change
    && InStatus(s.db, j, StatementAt(s, a).value.from)
  }

  function StartedAt(db: Db, j: JobId): Option<int> {
    if j in db.jobs then db.jobs[j].startedAt else None
  }

  function CompletedAt(db: Db, j: JobId): Option<int> {
    if j in db.jobs then db.jobs[j].completedAt else None
  }

  function Result(db: Db, j: JobId): Option<(int, string)> {
    if j in db.jobs && db.jobs[j].exitCode.Some? then Some((db.jobs[j].exitCode.value, db.jobs[j].error)) else None
  }

  predicate Starts(s: State, a: Action, j: JobId, t: int) {
    Commits(s, a, j, Start(t))
  }

  /** The step ends j at t, by a report or a cancellation. */
  ghost predicate Ends(s: State, a: Action, j: JobId, t: int) {
    || Commits(s, a, j, Cancel(t))
    || exists result, code, error :: Commits(s, a, j, Complete(result, t, code, error))
  }

  ghost predicate Reports(s: State, a: Action, j: JobId, code: int, error: string) {
    exists result, t :: Commits(s, a, j, Complete(result, t, code, error))
  }

  lemma StatementTimes(db: Db, st: Tables.Statement, j: JobId)
    requires !(st.Move? && st.id == j && InStatus(db, j, st.from))
    ensures var after := Tables.Execute(db, st);
      StartedAt(after, j) == StartedAt(db, j) && CompletedAt(after, j) == CompletedAt(db, j) && Result(after, j) == Result(db, j)
  {
  }

  lemma MoveTimes(db: Db, st: Tables.Statement, j: JobId)
    requires st.Move? && st.id == j && InStatus(db, j, st.from)
    ensures var after := Tables.Execute(db, st);
      && (StartedAt(after, j) == if st.change.Start? then Some(st.change.now) else if st.change.Requeue? then None else StartedAt(db, j))
      && (CompletedAt(after, j) ==
            if st.change.Complete? || st.change.Cancel? then Some(st.change.now) else CompletedAt(db, j))
      && (Result(after, j) == if st.change.Complete? then Some((st.change.exitCode, st.change.error)) else Result(db, j))
  {
  }

  /** One step changes a time or a result only by the transition whose value it is. */
  lemma StepTimes(s: State, a: Action, j: JobId)
    requires AllChecked(s)
    ensures var t := Next(s, a);
      && (StartedAt(t.db, j) == StartedAt(s.db, j) || Commits(s, a, j, Change.Requeue)
          || (StartedAt(t.db, j).Some? && Starts(s, a, j, StartedAt(t.db, j).value)))
      && (CompletedAt(t.db, j) == CompletedAt(s.db, j)
          || (CompletedAt(t.db, j).Some? && Ends(s, a, j, CompletedAt(t.db, j).value)))
      && (Result(t.db, j) == Result(s.db, j)
          || (Result(t.db, j).Some? && Reports(s, a, j, Result(t.db, j).value.0, Result(t.db, j).value.1)))
  {
    StepIsLegal(s, a);
    var st := StatementAt(s, a);
    if st.Some? {
      if st.value.Move? && st.value.id == j && InStatus(s.db, j, st.value.from) {
        MoveTimes(s.db, st.value, j);
        assert Commits(s, a, j, st.value.change);
        if st.value.change.Complete? {
          var c := st.value.change;
          assert Commits(s, a, j, Complete(c.result, c.now, c.exitCode, c.error));
        }
      } else {
        StatementTimes(s.db, st.value, j);
      }
    }
  }

  /** A start at t commits; from then on the value stays. */
  ghost predicate StartedSince(ss: seq<State>, actions: seq<Action>, n: nat, m: nat, j: JobId, t: int)
    requires n < m < |ss| == |actions| + 1
  {
    Starts(ss[n], actions[n], j, t) && forall k :: n < k <= m ==> StartedAt(ss[k].db, j) == Some(t)
  }

  ghost predicate StartFrom(ss: seq<State>, actions: seq<Action>, n: nat, j: JobId)
    requires n < |actions| < |ss|
  {
    StartedAt(ss[n + 1].db, j).Some? && StartedAt(ss[n + 1].db, j) != StartedAt(ss[n].db, j) ==>
      Starts(ss[n], actions[n], j, StartedAt(ss[n + 1].db, j).value)
  }

  lemma StartAt(ss: seq<State>, actions: seq<Action>, n: nat, j: JobId)
    requires IsRun(ss, actions) && n < |actions|
    ensures StartFrom(ss, actions, n, j)
  {
    AlwaysChecked(ss, actions, n);
    StepTimes(ss[n], actions[n], j);
    assert ss[n + 1] == Next(ss[n], actions[n]);
    RequeueClears(ss[n], actions[n], j);
  }

  /** A committed requeue clears started_at. */
  lemma RequeueClears(s: State, a: Action, j: JobId)
    requires AllChecked(s)
    ensures Commits(s, a, j, Change.Requeue) ==> StartedAt(Next(s, a).db, j).None?
  {
    StepIsLegal(s, a);
  }

  lemma {:induction false} StartAuthor(ss: seq<State>, actions: seq<Action>, m: nat, j: JobId) returns (n: nat)
    requires m < |ss| == |actions| + 1 && StartedAt(ss[m].db, j).Some? && StartedAt(ss[0].db, j).None?
    requires forall k :: 0 <= k < m ==> StartFrom(ss, actions, k, j)
    ensures n < m && StartedSince(ss, actions, n, m, j, StartedAt(ss[m].db, j).value)
  {
    assert StartFrom(ss, actions, m - 1, j);
    if StartedAt(ss[m].db, j) == StartedAt(ss[m - 1].db, j) {
      n := StartAuthor(ss, actions, m - 1, j);
    } else {
      n := m - 1;
    }
  }

  /** In every run a started_at of t was written by a committed start at t, and no completion,
      cancellation, log chunk or anything else has changed it since. */
  lemma StartHasAuthor(ss: seq<State>, actions: seq<Action>, m: nat, j: JobId) returns (n: nat)
    requires IsRun(ss, actions) && m < |ss| && StartedAt(ss[m].db, j).Some?
    ensures n < m && StartedSince(ss, actions, n, m, j, StartedAt(ss[m].db, j).value)
  {
    forall k | 0 <= k < m ensures StartFrom(ss, actions, k, j) {
      StartAt(ss, actions, k, j);
    }
    n := StartAuthor(ss, actions, m, j);
  }

  /** In every run a completed_at of t was written by a committed report or cancellation at t. */
  lemma {:induction false} EndHasAuthor(ss: seq<State>, actions: seq<Action>, m: nat, j: JobId) returns (n: nat)
    requires IsRun(ss, actions) && m < |ss| && CompletedAt(ss[m].db, j).Some?
    ensures n < m && Ends(ss[n], actions[n], j, CompletedAt(ss[m].db, j).value)
  {
    if m == 0 {
      assert false;
    } else {
      AlwaysChecked(ss, actions, m - 1);
      assert ss[m] == Next(ss[m - 1], actions[m - 1]);
      StepTimes(ss[m - 1], actions[m - 1], j);
      if CompletedAt(ss[m].db, j) == CompletedAt(ss[m - 1].db, j) {
        n := EndHasAuthor(ss, actions, m - 1, j);
      } else {
        n := m - 1;
      }
    }
  }

  /** In every run exit code and error are those of a committed report. */
  lemma {:induction false} ResultHasAuthor(ss: seq<State>, actions: seq<Action>, m: nat, j: JobId) returns (n: nat)
    requires IsRun(ss, actions) && m < |ss| && Result(ss[m].db, j).Some?
    ensures n < m && Reports(ss[n], actions[n], j, Result(ss[m].db, j).value.0, Result(ss[m].db, j).value.1)
  {
    if m == 0 {
      assert false;
    } else {
      AlwaysChecked(ss, actions, m - 1);
      assert ss[m] == Next(ss[m - 1], actions[m - 1]);
      StepTimes(ss[m - 1], actions[m - 1], j);
      if Result(ss[m].db, j) == Result(ss[m - 1].db, j) {
        n := ResultHasAuthor(ss, actions, m - 1, j);
      } else {
        n := m - 1;
      }
    }
  }
}
