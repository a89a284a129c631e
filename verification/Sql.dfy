/** The two tables, and each SQL statement of internal/store/store.go as one
    atomic function on them. */
module Sql {
  import opened Models

  datatype Db = Db(jobs: map<JobId, Job>, runners: map<RunnerId, Runner>)

  const EMPTY := Db(map[], map[])

  /** What a store method reports to its caller. */
  datatype Outcome = Ok | NotFound | Duplicate | Invalid | NotIdle | Forbidden

  /** The four uses of `transition`, each with the columns it writes beside `status`. */
  datatype Change =
    | Start(now: int)
    | Complete(result: JobStatus, now: int, exitCode: int, error: string)
    | Requeue
    | Cancel(now: int)
  {
    function Target(): JobStatus {
      match this
      case Start(_) => Running
      case Complete(result, _, _, _) => result
      case Requeue => Queued
      case Cancel(_) => Cancelled
    }

    /** The result handler lets only SUCCESS and FAILED through to CompleteJob. */
    predicate Valid() {
      Complete? ==> result == Success || result == Failed
    }

    /** CompleteJob, RequeueJob and CancelJob release the runner; StartJob does not. */
    predicate Releases() {
      !Start?
    }

    function Write(job: Job): Job {
      match this
      case Start(now) => job.(status := Running, startedAt := Some(now))
      case Complete(result, now, exitCode, error) =>
        job.(status := result, completedAt := Some(now), exitCode := Some(exitCode), error := error)
      case Requeue => job.(status := Queued, runnerId := None, startedAt := None)
      case Cancel(now) => job.(status := Cancelled, completedAt := Some(now))
    }
  }

  /** Primary key or partial unique index: both raise error 23505. */
  predicate Conflicts(db: Db, id: JobId, key: JobKey) {
    id in db.jobs || exists j | j in db.jobs :: db.jobs[j].status.Active() && db.jobs[j].key == key
  }

  function InsertJob(db: Db, id: JobId, key: JobKey, labels: seq<string>): Db {
    if Conflicts(db, id, key) then db else db.(jobs := db.jobs[id := NewJob(key, labels)])
  }

  predicate InStatus(db: Db, id: JobId, status: JobStatus) {
    id in db.jobs && db.jobs[id].status == status
  }

  /** UPDATE jobs SET status ... WHERE id = .. AND status = from. */
  function UpdateJob(db: Db, id: JobId, from: JobStatus, change: Change): Db {
    if InStatus(db, id, from) then db.(jobs := db.jobs[id := change.Write(db.jobs[id])]) else db
  }

  predicate IsIdle(db: Db, r: RunnerId) {
    r in db.runners && db.runners[r].status == Idle
  }

  /** The two-row assignment transaction: both guards hold, or nothing is written. */
  function AssignTx(db: Db, id: JobId, r: RunnerId, from: JobStatus, now: int): Db {
    if InStatus(db, id, from) && IsIdle(db, r) then
      var job := db.jobs[id];
      Db(db.jobs[id := job.(status := Assigned, runnerId := Some(r), attempts := job.attempts + 1)],
         db.runners[r := db.runners[r].(status := Busy, currentJob := Some(id), lastAssigned := Some(now))])
    else db
  }

  /** UPDATE runners SET status = 'IDLE' ... WHERE id = r AND status = 'BUSY'. */
  function ReleaseRunner(db: Db, r: RunnerId): Db {
    if r in db.runners && db.runners[r].status == Busy then
      db.(runners := db.runners[r := db.runners[r].(status := Idle, currentJob := None)])
    else db
  }

  function Beat(db: Db, r: RunnerId, now: int): Db {
    if r in db.runners then
      var row := db.runners[r];
      db.(runners := db.runners[r := row.(lastHeartbeat := now,
                                          status := if row.status == Offline then Idle else row.status)])
    else db
  }

  predicate IsStale(row: Runner, cutoff: int) {
    row.status != Offline && row.lastHeartbeat < cutoff
  }

  function StaleRunners(db: Db, cutoff: int): set<RunnerId> {
    set r | r in db.runners && IsStale(db.runners[r], cutoff)
  }

  /** The pool of IdleRunners: IDLE, and heard of after the cutoff. */
  function LiveIdle(db: Db, cutoff: int): set<RunnerId> {
    set r | r in db.runners && db.runners[r].status == Idle && db.runners[r].lastHeartbeat > cutoff
  }

  /** The UPDATE half of the reaping statement. */
  function MarkOffline(db: Db, cutoff: int): Db {
    db.(runners := map r | r in db.runners ::
      if IsStale(db.runners[r], cutoff)
      then db.runners[r].(status := Offline, currentJob := None)
      else db.runners[r])
  }

  /** COALESCE(current_job_id, ''). */
  function HeldJob(row: Runner): JobId {
    if row.currentJob.Some? then row.currentJob.value else ""
  }

  function AppendLog(db: Db, id: JobId, seqNo: int, chunk: seq<Byte>): Db {
    if id in db.jobs && seqNo > db.jobs[id].logSeq then
      var job := db.jobs[id];
      db.(jobs := db.jobs[id := job.(logs := job.logs + chunk, logSeq := seqNo)])
    else db
  }

  function InsertRunner(db: Db, r: RunnerId, labels: seq<string>, now: int): Db {
    if r in db.runners then db else db.(runners := db.runners[r := NewRunner(labels, now)])
  }
}
