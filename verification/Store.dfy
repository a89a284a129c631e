/** internal/store/store.go as a class over two tables. Run without interference, each
    method does what its single-step counterpart in Calls says. */
module Store {
  import opened Models
  import opened Sql
  import opened Calls

  /** ORDER BY last_assigned_at ASC NULLS FIRST. */
  predicate NotAfter(a: Option<int>, b: Option<int>) {
    a.None? || (b.Some? && a.value <= b.value)
  }

  function StampOf(runners: map<RunnerId, Runner>, r: RunnerId): Option<int> {
    if r in runners then runners[r].lastAssigned else None
  }

  predicate IsEarliest(runners: map<RunnerId, Runner>, todo: set<RunnerId>, r: RunnerId) {
    r in todo && forall q :: q in todo ==> NotAfter(StampOf(runners, r), StampOf(runners, q))
  }

  lemma {:induction false} EarliestExists(runners: map<RunnerId, Runner>, todo: set<RunnerId>)
    requires todo != {}
    ensures exists r :: IsEarliest(runners, todo, r)
    decreases todo
  {
    var x :| x in todo;
    var rest := todo - {x};
    assert forall q :: q in todo ==> q in rest || q == x;
    if rest == {} {
      assert IsEarliest(runners, todo, x);
    } else {
      EarliestExists(runners, rest);
      var r :| IsEarliest(runners, rest, r);
      assert IsEarliest(runners, todo, if NotAfter(StampOf(runners, r), StampOf(runners, x)) then r else x);
    }
  }

  class JobStore {
    var jobs: map<JobId, Job>
    var runners: map<RunnerId, Runner>

    function Contents(): Db
      reads this
    {
      Db(jobs, runners)
    }

    constructor ()
      ensures Contents() == EMPTY
    {
      jobs, runners := map[], map[];
    }

    method CreateJob(id: JobId, key: JobKey, labels: seq<string>) returns (out: Outcome)
      modifies this
      ensures Contents() == InsertJob(old(Contents()), id, key, labels)
      ensures out == if Conflicts(old(Contents()), id, key) then Duplicate else Ok
    {
      if Conflicts(Contents(), id, key) {
        return Duplicate;
      }
      jobs := jobs[id := NewJob(key, labels)];
      out := Ok;
    }

    method GetJob(id: JobId) returns (job: Option<Job>)
      ensures job == if id in jobs then Some(jobs[id]) else None
    {
      job := if id in jobs then Some(jobs[id]) else None;
    }

    /** Read, check against the table, guarded UPDATE. Returns the row as read. */
    method Transition(id: JobId, change: Change) returns (out: Outcome, row: Option<Job>)
      modifies this`jobs
      ensures out == Atomically(old(Contents()), id, change).1
      ensures out == if id !in old(jobs) then NotFound
                     else if old(jobs)[id].status.CanTransitionTo(change.Target()) then Ok else Invalid
      ensures out == Ok ==>
        && id in old(jobs) && row == Some(old(jobs)[id])
        && Contents() == UpdateJob(old(Contents()), id, old(jobs)[id].status, change)
      ensures out != Ok ==> jobs == old(jobs)
    {
      row := GetJob(id);
      if row.None? {
        return NotFound, row;
      }
      if !row.value.status.CanTransitionTo(change.Target()) {
        return Invalid, row;
      }
      if jobs[id].status != row.value.status {
        return Invalid, row;
      }
      jobs := jobs[id := change.Write(jobs[id])];
      out := Ok;
    }

    method AssignJob(id: JobId, r: RunnerId, now: int) returns (out: Outcome)
      modifies this
      ensures (Contents(), out) == AssignAtomically(old(Contents()), id, r, now)
      ensures out == if id !in old(jobs) then NotFound
                     else if old(jobs)[id].status != Queued then Invalid
                     else if r in old(runners) && old(runners)[r].status == Idle then Ok else NotIdle
    {
      var job := GetJob(id);
      if job.None? {
        return NotFound;
      }
      if !job.value.status.CanTransitionTo(Assigned) {
        return Invalid;
      }
      var updated := jobs[id := job.value.(status := Assigned, runnerId := Some(r), attempts := job.value.attempts + 1)];
      if r !in runners || runners[r].status != Idle {
        return NotIdle; // rolls the first UPDATE back
      }
      runners := runners[r := runners[r].(status := Busy, currentJob := Some(id), lastAssigned := Some(now))];
      jobs := updated;
      out := Ok;
    }

    method StartJob(id: JobId, now: int) returns (out: Outcome)
      modifies this
      ensures (Contents(), out) == Atomically(old(Contents()), id, Start(now))
    {
      var row;
      out, row := Transition(id, Start(now));
    }

    method CompleteJob(id: JobId, status: JobStatus, now: int, exitCode: int, error: string) returns (out: Outcome)
      modifies this
      ensures (Contents(), out) == Atomically(old(Contents()), id, Complete(status, now, exitCode, error))
    {
      out := TransitionAndRelease(id, Complete(status, now, exitCode, error));
    }

    method RequeueJob(id: JobId) returns (out: Outcome)
      modifies this
      ensures (Contents(), out) == Atomically(old(Contents()), id, Change.Requeue)
    {
      out := TransitionAndRelease(id, Change.Requeue);
    }

    method CancelJob(id: JobId, now: int) returns (out: Outcome)
      modifies this
      ensures (Contents(), out) == Atomically(old(Contents()), id, Cancel(now))
    {
      out := TransitionAndRelease(id, Cancel(now));
    }

    /** The common tail of CompleteJob, RequeueJob and CancelJob. */
    method TransitionAndRelease(id: JobId, change: Change) returns (out: Outcome)
      requires change.Releases()
      modifies this
      ensures (Contents(), out) == Atomically(old(Contents()), id, change)
    {
      var row;
      out, row := Transition(id, change);
      if out == Ok && row.value.runnerId.Some? {
        Release(row.value.runnerId.value);
      }
    }

    /** A redelivered or late chunk changes nothing and is not an error. */
    method AppendLogs(id: JobId, seqNo: int, chunk: seq<Byte>) returns (out: Outcome)
      modifies this`jobs
      ensures Contents() == AppendLog(old(Contents()), id, seqNo, chunk)
      ensures out == if id in old(jobs) then Ok else NotFound
    {
      if id in jobs && seqNo > jobs[id].logSeq {
        jobs := jobs[id := jobs[id].(logs := jobs[id].logs + chunk, logSeq := seqNo)];
        return Ok;
      }
      out := if id in jobs then Ok else NotFound;
    }

    method RegisterRunner(r: RunnerId, labels: seq<string>, now: int)
      modifies this`runners
      ensures Contents() == InsertRunner(old(Contents()), r, labels, now)
    {
      if r !in runners {
        runners := runners[r := NewRunner(labels, now)];
      }
    }

    method Heartbeat(r: RunnerId, now: int) returns (out: Outcome)
      modifies this`runners
      ensures Contents() == Beat(old(Contents()), r, now)
      ensures out == if r in old(runners) then Ok else NotFound
    {
      if r !in runners {
        return NotFound;
      }
      var row := runners[r];
      runners := runners[r := row.(lastHeartbeat := now, status := if row.status == Offline then Idle else row.status)];
      out := Ok;
    }

    method Release(r: RunnerId)
      modifies this`runners
      ensures Contents() == ReleaseRunner(old(Contents()), r)
    {
      if r in runners && runners[r].status == Busy {
        runners := runners[r := runners[r].(status := Idle, currentJob := None)];
      }
    }

    /** The live candidates, each once, the least recently used first. */
    method IdleRunners(cutoff: int) returns (pool: seq<RunnerId>)
      ensures forall r :: r in pool <==> r in runners && runners[r].status == Idle && runners[r].lastHeartbeat > cutoff
      ensures forall i, k :: 0 <= i < k < |pool| ==> pool[i] != pool[k]
      ensures forall i, k :: 0 <= i < k < |pool| ==>
        NotAfter(StampOf(runners, pool[i]), StampOf(runners, pool[k]))
    {
      var todo := LiveIdle(Contents(), cutoff);
      ghost var all := todo;
      pool := [];
      while todo != {}
        invariant todo <= all
        invariant forall r :: r in pool <==> r in all && r !in todo
        invariant forall i, k :: 0 <= i < k < |pool| ==> pool[i] != pool[k]
        invariant forall i, k :: 0 <= i < k < |pool| ==>
          NotAfter(StampOf(runners, pool[i]), StampOf(runners, pool[k]))
        invariant forall p, r :: p in pool && r in todo ==> NotAfter(StampOf(runners, p), StampOf(runners, r))
        decreases todo
      {
        EarliestExists(runners, todo);
        var r :| IsEarliest(runners, todo, r);
        pool := pool + [r];
        todo := todo - {r};
      }
    }

    /** Marks silent runners OFFLINE and reports, for each, the job it held before. */
    method ReapOfflineRunners(cutoff: int) returns (orphaned: map<RunnerId, JobId>)
      modifies this`runners
      ensures Contents() == MarkOffline(old(Contents()), cutoff)
      ensures orphaned.Keys == StaleRunners(old(Contents()), cutoff)
      ensures forall r :: r in orphaned ==> orphaned[r] == HeldJob(old(runners)[r])
    {
      // The common table expression reads current_job_id before the UPDATE clears it.
      var before := runners;
      var stale := StaleRunners(Contents(), cutoff);
      runners := MarkOffline(Contents(), cutoff).runners;
      orphaned := map[];
      ghost var all := stale;
      while stale != {}
        invariant stale <= all && orphaned.Keys == all - stale
        invariant forall r :: r in orphaned ==> r in before && orphaned[r] == HeldJob(before[r])
        decreases stale
      {
        var r :| r in stale;
        orphaned := orphaned[r := HeldJob(before[r])];
        stale := stale - {r};
      }
    }
  }
}
