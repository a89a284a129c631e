/** The job and runner state machines and the two table rows
    (internal/models/job.go, internal/models/runner.go, migrations). */
module Models {

  type JobId = string
  type RunnerId = string
  newtype Byte = x: int | 0 <= x < 256

  datatype Option<+T> = None | Some(value: T)

  datatype JobStatus = Queued | Assigned | Running | Success | Failed | Cancelled {

    /** The rows of `jobTransitions`. */
    function Successors(): seq<JobStatus> {
      match this
      case Queued => [Assigned, Cancelled]
      case Assigned => [Running, Queued, Failed, Cancelled]
      case Running => [Success, Failed, Cancelled, Queued]
      case Success => []
      case Failed => []
      case Cancelled => []
    }

    predicate CanTransitionTo(next: JobStatus) {
      next in Successors()
    }

    predicate Terminal() {
      |Successors()| == 0
    }

    /** The statuses covered by the partial unique index over unfinished jobs. */
    predicate Active() {
      Queued? || Assigned? || Running?
    }

    /** A runner is responsible for the job. */
    predicate Held() {
      Assigned? || Running?
    }
  }

  datatype RunnerStatus = Idle | Busy | Offline | Draining {

    /** The rows of `runnerTransitions`. */
    function Successors(): seq<RunnerStatus> {
      match this
      case Idle => [Busy, Offline, Draining]
      case Busy => [Idle, Offline, Draining]
      case Draining => [Offline, Idle]
      case Offline => [Idle]
    }

    predicate CanTransitionTo(next: RunnerStatus) {
      next in Successors()
    }
  }

  /** The columns of the idempotency index. */
  datatype JobKey = JobKey(repository: string, commitSha: string, eventType: string)

  datatype Job = Job(
    key: JobKey,
    labels: seq<string>,
    status: JobStatus,
    runnerId: Option<RunnerId>,
    attempts: nat,
    exitCode: Option<int>,
    error: string,
    startedAt: Option<int>,
    completedAt: Option<int>,
    logs: seq<Byte>,
    logSeq: int)

  /** The row CreateJob inserts, with the column defaults of both migrations. */
  function NewJob(key: JobKey, labels: seq<string>): Job {
    Job(key, labels, Queued, None, 0, None, "", None, None, [], 0)
  }

  datatype Runner = Runner(
    status: RunnerStatus,
    labels: seq<string>,
    currentJob: Option<JobId>,
    lastHeartbeat: int,
    lastAssigned: Option<int>)

  function NewRunner(labels: seq<string>, now: int): Runner {
    Runner(Idle, labels, None, now, None)
  }
}
