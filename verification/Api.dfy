/** What the handlers accept and refuse, as HTTP status codes, when a request is served on
    its own (internal/api/jobs.go, internal/api/runners.go, internal/api/webhook.go). */
module Api {
  import opened Models
  import opened Sql
  import opened Calls
  import opened Queue
  import Logs
  import LogStream
  import Store
  import Tables

  /** A decoded result body; the status is None if ParseJobStatus rejects it. */
  datatype Report = Report(status: Option<JobStatus>, exitCode: int, error: string)

  /** The transition table decides which reports can still be accepted. */
  predicate Reportable(status: JobStatus, result: JobStatus) {
    (status == Running && (result == Success || result == Failed)) || (status == Assigned && result == Failed)
  }

  /** A runner that was BUSY is IDLE and names no job. */
  function Freed(runners: map<RunnerId, Runner>, r: RunnerId): map<RunnerId, Runner> {
    map q | q in runners ::
      if q == r && runners[q].status == Busy then runners[q].(status := Idle, currentJob := None) else runners[q]
  }

  /** The job exists, is not finished, and its row names r. */
  predicate Keeps(jobs: map<JobId, Job>, r: RunnerId, id: JobId) {
    && id in jobs && jobs[id].runnerId == Some(r)
    && jobs[id].status != Success && jobs[id].status != Failed && jobs[id].status != Cancelled
  }

  /** In every reachable state a runner keeps exactly the jobs it holds. */
  lemma KeepsExactly(dbs: seq<Db>, i: nat, r: RunnerId, id: JobId)
    requires Tables.IsHistory(dbs) && i < |dbs|
    ensures Keeps(dbs[i].jobs, r, id) <==> !Tables.LeaseLost(dbs[i], r, id)
    ensures Keeps(dbs[i].jobs, r, id) <==>
      id in dbs[i].jobs && (dbs[i].jobs[id].status == Assigned || dbs[i].jobs[id].status == Running)
      && dbs[i].jobs[id].runnerId == Some(r)
  {
    Tables.LeaseLostExactly(dbs, i, r, id);
  }

  class Server {
    const store: Store.JobStore
    const queue: RedisQueue

    constructor (store: Store.JobStore, queue: RedisQueue)
      ensures this.store == store && this.queue == queue
    {
      this.store, this.queue := store, queue;
    }

    method RunnerOwnsJob(r: RunnerId, id: JobId) returns (owns: bool)
      ensures owns <==> Owns(store.Contents(), r, id)
    {
      var job := store.GetJob(id);
      owns := job.Some? && job.value.runnerId == Some(r);
    }

    /** Accepted exactly for the runner the job is ASSIGNED to. */
    method HandleJobStart(r: RunnerId, id: JobId, now: int) returns (code: int)
      modifies store
      ensures code == 200 || code == 403 || code == 409
      ensures code == 403 <==> !Owns(old(store.Contents()), r, id)
      ensures code == 200 <==> Owns(old(store.Contents()), r, id) && InStatus(old(store.Contents()), id, Assigned)
      ensures code == 200 ==>
        && id in store.jobs && store.jobs[id] == old(store.jobs)[id].(status := Running, startedAt := Some(now))
        && store.runners == old(store.runners) && store.jobs - {id} == old(store.jobs) - {id}
      ensures code != 200 ==> store.Contents() == old(store.Contents())
    {
      var owns := RunnerOwnsJob(r, id);
      if !owns {
        return 403;
      }
      var out := store.StartJob(id, now);
      code := if out == Ok then 200 else 409;
    }

    /** Accepted exactly from the owner, for SUCCESS or FAILED, while the job can still end
        that way; then the job is over for good. */
    method HandleJobResult(r: RunnerId, id: JobId, body: Option<Report>, now: int) returns (code: int)
      modifies store
      ensures code == 200 || code == 400 || code == 403 || code == 409
      ensures code == 403 <==> !Owns(old(store.Contents()), r, id)
      ensures code == 200 <==>
        && Owns(old(store.Contents()), r, id)
        && body.Some? && body.value.status.Some?
        && Reportable(old(store.jobs)[id].status, body.value.status.value)
      ensures code == 200 ==>
        && id in store.jobs && store.jobs[id] == old(store.jobs)[id].(status := body.value.status.value,
             completedAt := Some(now), exitCode := Some(body.value.exitCode), error := body.value.error)
        && store.jobs - {id} == old(store.jobs) - {id}
        && store.runners == Freed(old(store.runners), r)
      ensures code != 200 ==> store.Contents() == old(store.Contents())
    {
      var owns := RunnerOwnsJob(r, id);
      if !owns {
        return 403;
      }
      if body.None? || body.value.status.None? {
        return 400;
      }
      var status := body.value.status.value;
      if status != Success && status != Failed {
        return 400;
      }
      var out := store.CompleteJob(id, status, now, body.value.exitCode, body.value.error);
      code := if out == Ok then 200 else 409;
    }

    /** `seqNo` is None when the header is not a number. */
    method HandleJobLogs(r: RunnerId, id: JobId, seqNo: Option<int>, chunk: seq<Byte>) returns (code: int)
      modifies store
      ensures code == 202 || code == 400 || code == 403 || code == 413
      ensures code == 403 <==> !Owns(old(store.Contents()), r, id)
      ensures code == 202 <==>
        Owns(old(store.Contents()), r, id) && seqNo.Some? && seqNo.value > 0 && |chunk| <= 1024 * 1024
      ensures code == 202 ==>
        && store.Contents() == AppendLog(old(store.Contents()), id, seqNo.value, chunk)
        && Logs.LogOf(store.jobs[id]) == Logs.Handle(Logs.LogOf(old(store.jobs)[id]), LogStream.Chunk(seqNo.value, chunk))
      ensures code != 202 ==> store.Contents() == old(store.Contents())
    {
      var owns := RunnerOwnsJob(r, id);
      if !owns {
        return 403;
      }
      if seqNo.None? || seqNo.value <= 0 {
        return 400;
      }
      if |chunk| > Logs.MAX_CHUNK {
        return 413;
      }
      var out := store.AppendLogs(id, seqNo.value, chunk);
      code := 202;
    }

    /** Cancels exactly the unfinished jobs; a finished one is the client's mistake. */
    method HandleCancelJob(id: JobId, now: int) returns (code: int)
      modifies store
      ensures code == 404 <==> id !in old(store.jobs)
      ensures code == 200 <==> id in old(store.jobs) && old(store.jobs)[id].status.Active()
      ensures code == 200 || code == 404 || code == 409
      ensures code == 200 ==>
        && id in store.jobs && store.jobs[id] == old(store.jobs)[id].(status := Cancelled, completedAt := Some(now))
        && store.jobs - {id} == old(store.jobs) - {id}
        && store.runners == match old(store.jobs)[id].runnerId
                            case None => old(store.runners)
                            case Some(r) => Freed(old(store.runners), r)
      ensures code != 200 ==> store.Contents() == old(store.Contents())
    {
      var out := store.CancelJob(id, now);
      code := if out == Ok then 200 else if out == NotFound then 404 else 409;
    }

    /** Liveness and lease renewal in one call. An unknown runner gets no answer; any error
        of reading the job counts as a lost lease. */
    method HandleHeartbeat(r: RunnerId, jobId: JobId, readOk: bool, now: int) returns (code: int, cancel: bool)
      modifies store
      ensures code == if r in old(store.runners) then 200 else 404
      ensures store.Contents() == Beat(old(store.Contents()), r, now)
      ensures code == 200 ==> (cancel <==> jobId != "" && !(readOk && Keeps(old(store.jobs), r, jobId)))
      ensures code != 200 ==> !cancel
    {
      var out := store.Heartbeat(r, now);
      if out == NotFound {
        return 404, false;
      }
      cancel := false;
      if jobId != "" {
        var job := store.GetJob(jobId);
        cancel := !readOk || job.None? || job.value.status.Terminal() || job.value.runnerId != Some(r);
      }
      code := 200;
    }

    /** Takes the oldest entry out of the runner's mailbox, whatever has become of the job. */
    method HandlePollJob(r: RunnerId) returns (code: int, delivery: Option<Job>)
      modifies queue
      ensures code == 204 <==> old(queue.Box(r)) == []
      ensures code == 204 ==> queue.Contents() == old(queue.Contents())
      ensures code != 204 ==>
        var id := ReceiveOrder(old(queue.Contents()), r)[0];
        && queue.Contents() == Received(old(queue.Contents()), r)
        && (code == 200 <==> id in store.jobs)
        && (code == 200 ==> delivery == Some(store.jobs[id]))
      ensures code == 200 || code == 204 || code == 500
    {
      delivery := None;
      var id := queue.Receive(r);
      if id.None? {
        return 204, None;
      }
      delivery := store.GetJob(id.value);
      code := if delivery.Some? then 200 else 500;
    }

    /** The create-then-enqueue part of the webhook. If the push fails the row stays QUEUED:
        the compensating CompleteJob is refused. */
    method HandleWebhook(id: JobId, key: JobKey, labels: seq<string>, pushOk: bool, now: int) returns (code: int)
      modifies store, queue
      ensures store.Contents() == InsertJob(old(store.Contents()), id, key, labels)
      ensures code == 200 <==> Conflicts(old(store.Contents()), id, key)
      ensures code == 202 <==> !Conflicts(old(store.Contents()), id, key) && pushOk
      ensures code == 202 ==> queue.Contents() == old(queue.Contents()).(pending := [id] + old(queue.pending))
      ensures code != 202 ==> queue.Contents() == old(queue.Contents())
      ensures code != 200 ==> store.Contents() == old(store.Contents()).(jobs := old(store.jobs)[id :=
        Job(key, labels, Queued, None, 0, None, "", None, None, [], 0)])
      ensures code == 200 || code == 202 || code == 500
    {
      var out := store.CreateJob(id, key, labels);
      if out == Duplicate {
        return 200;
      }
      if !pushOk {
        var refused := store.CompleteJob(id, Failed, now, -1, "could not be queued");
        return 500;
      }
      queue.Enqueue(id);
      code := 202;
    }
  }
}
