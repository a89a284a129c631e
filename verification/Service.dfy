/** One pass of the scheduler loop and one tick of the reaper, run on their own
    (internal/scheduler/service.go:62-157). Cluster has the same code cut into steps. */
module Service {
  import opened Models
  import opened Sql
  import opened Calls
  import opened Queue
  import opened Lists
  import Cluster
  import Ownership
  import Scheduler
  import Store
  import Tables

  /** RequeueJob succeeds. */
  predicate Accepts(db: Db, id: JobId) {
    id != "" && Atomically(db, id, Change.Requeue).1 == Ok
  }

  /** The ids of the orphans that RequeueJob accepts, in order. */
  function Rescued(db: Db, orphans: seq<JobId>): seq<JobId>
    decreases |orphans|
  {
    if orphans == [] then []
    else (if Accepts(db, orphans[0]) then [orphans[0]] else [])
         + Rescued(Ownership.RequeueOne(db, orphans[0]), orphans[1..])
  }

  /** The reaper's loop: RequeueJob, and Enqueue if it succeeded. */
  function Sweep(db: Db, pending: seq<JobId>, orphans: seq<JobId>): (Db, seq<JobId>)
    decreases |orphans|
  {
    if orphans == [] then (db, pending)
    else Sweep(Ownership.RequeueOne(db, orphans[0]),
               if Accepts(db, orphans[0]) then [orphans[0]] + pending else pending,
               orphans[1..])
  }

  lemma PushFirst(id: JobId, tail: seq<JobId>, pending: seq<JobId>)
    ensures Reverse(tail) + ([id] + pending) == Reverse([id] + tail) + pending
  {
    assert ([id] + tail)[1..] == tail;
  }

  /** The loop is the atomic pass on the tables and pushes the rescued ids one by one. */
  lemma {:induction false} SweepIsPass(db: Db, pending: seq<JobId>, orphans: seq<JobId>)
    ensures Sweep(db, pending, orphans) ==
      (Ownership.RequeueAll(db, orphans), Reverse(Rescued(db, orphans)) + pending)
    decreases |orphans|
  {
    if orphans == [] {
      assert Reverse<JobId>([]) + pending == pending;
    } else {
      var id, db' := orphans[0], Ownership.RequeueOne(db, orphans[0]);
      var tail := Rescued(db', orphans[1..]);
      if Accepts(db, id) {
        SweepIsPass(db', [id] + pending, orphans[1..]);
        PushFirst(id, tail, pending);
      } else {
        SweepIsPass(db', pending, orphans[1..]);
        assert [] + tail == tail;
      }
    }
  }

  // ---------- the step machine run without interference ----------

  function RecoverSteps(s: Cluster.State, n: nat): Cluster.State
    decreases n
  {
    if n == 0 then s else RecoverSteps(Cluster.RecoverNext(s), n - 1)
  }

  function ViewOf(s: Cluster.State): View {
    View(s.pending, s.inflight, s.mail)
  }

  /** The Redis commands of Recover, one by one, amount to the whole method. */
  lemma {:induction false} RecoverStepsAreRecover(s: Cluster.State)
    requires s.sched == Cluster.Recovering(s.inflight)
    ensures
      var t := RecoverSteps(s, 2 * |s.inflight| + 1);
      ViewOf(t) == Recovered(ViewOf(s)) && t.sched == Cluster.Ready && t.reaper == Cluster.Waiting && t.db == s.db
    decreases |s.inflight|
  {
    var n := 2 * |s.inflight| + 1;
    if s.inflight == [] {
      assert RecoverSteps(s, 1) == RecoverSteps(Cluster.RecoverNext(s), 0);
      assert Reverse<JobId>([]) + s.pending == s.pending;
    } else {
      var id, rest := s.inflight[0], s.inflight[1..];
      var s1 := Cluster.RecoverNext(s);
      var s2 := Cluster.RecoverNext(s1);
      assert s2 == s.(pending := [id] + s.pending, inflight := rest, sched := Cluster.Recovering(rest));
      assert RecoverSteps(s, n) == RecoverSteps(s1, n - 1) == RecoverSteps(s2, n - 2);
      RecoverStepsAreRecover(s2);
      assert Reverse(rest) + ([id] + s.pending) == Reverse(s.inflight) + s.pending;
    }
  }

  // ---------- the stamps that LRU relies on ----------

  function StampsOf(db: Db): Scheduler.Stamps {
    map r | r in db.runners :: db.runners[r].lastAssigned
  }

  ghost predicate StampsGrow(before: Scheduler.Stamps, after: Scheduler.Stamps) {
    before.Keys <= after.Keys && forall r :: r in after ==> after[r] == if r in before then before[r] else None
  }

  /** A committed assignment writes the stamp of the chosen runner and no other; no other
      statement writes stamps, and new runners have none. This is what the fairness
      bound of Scheduler assumes of the table. */
  lemma StampsFollow(db: Db, st: Tables.Statement)
    ensures st.Assign? && InStatus(db, st.id, st.from) && IsIdle(db, st.r) ==>
      forall required, pool, row :: Scheduler.Stamped(StampsOf(db),
        Scheduler.Decision(required, pool, Scheduler.Candidate(st.r, row), st.now), StampsOf(Tables.Execute(db, st)))
    ensures !(st.Assign? && InStatus(db, st.id, st.from) && IsIdle(db, st.r)) ==>
      StampsGrow(StampsOf(db), StampsOf(Tables.Execute(db, st)))
  {
    var after := Tables.Execute(db, st);
    if st.Assign? && InStatus(db, st.id, st.from) && IsIdle(db, st.r) {
      assert StampsOf(after) == StampsOf(db)[st.r := Some(st.now)];
    }
  }

  ghost function Ids(pool: seq<Scheduler.Candidate>): set<RunnerId> {
    set c | c in pool :: c.id
  }

  predicate IsLive(row: Runner, cutoff: int) {
    row.status == Idle && row.lastHeartbeat > cutoff
  }

  /** The candidates of a job: exactly the rows of the live IDLE runners. */
  ghost predicate IsPool(db: Db, cutoff: int, pool: seq<Scheduler.Candidate>) {
    && (forall c :: c in pool ==> c.id in db.runners && db.runners[c.id] == c.row && IsLive(c.row, cutoff))
    && forall r :: r in db.runners && IsLive(db.runners[r], cutoff) ==> r in Ids(pool)
  }

  // ---------- the undo of an assignment ----------

  /** RequeueJob takes an assignment back: only `attempts` and the LRU stamp remember it. */
  lemma UndoRestores(db: Db, id: JobId, r: RunnerId, now: int)
    requires Tables.BusyIffHolding(db) && Tables.RowsTimed(db)
    requires InStatus(db, id, Queued) && db.jobs[id].runnerId.None? && IsIdle(db, r)
    ensures
      var job, row := db.jobs[id], db.runners[r];
      Atomically(AssignAtomically(db, id, r, now).0, id, Change.Requeue) ==
        (Db(db.jobs[id := job.(attempts := job.attempts + 1)], db.runners[r := row.(lastAssigned := Some(now))]), Ok)
  {
    var job, row := db.jobs[id], db.runners[r];
    var (undone, out) := Atomically(AssignAtomically(db, id, r, now).0, id, Change.Requeue);
    assert undone.jobs == db.jobs[id := job.(attempts := job.attempts + 1)];
    assert undone.runners == db.runners[r := row.(lastAssigned := Some(now))];
  }

  // ---------- one pass ----------

  /** What the calls of one pass report. LPUSH and EXPIRE of Dispatch fail separately. */
  datatype Faults = Faults(load: bool, list: bool, assign: bool, dispatch: Sending, undo: bool)

  datatype Sending = Sent | NotPushed | NotExpiring

  predicate AnyEligible(db: Db, cutoff: int, required: seq<string>) {
    exists r | r in db.runners ::
      IsLive(db.runners[r], cutoff) && Scheduler.Eligible(Scheduler.Candidate(r, db.runners[r]), required)
  }

  ghost predicate IsChosen(db: Db, cutoff: int, required: seq<string>, c: Scheduler.Candidate) {
    exists pool :: IsPool(db, cutoff, pool) && Scheduler.IsBest(required, pool, Some(c))
  }

  /** c is the present row of a live IDLE runner that has every label. */
  ghost predicate IsFit(db: Db, cutoff: int, required: seq<string>, c: Scheduler.Candidate) {
    && c.id in db.runners && db.runners[c.id] == c.row
    && c.row.status == Idle && c.row.lastHeartbeat > cutoff
    && forall l :: l in required ==> l in c.row.labels
  }

  lemma BestIffEligible(db: Db, cutoff: int, required: seq<string>, pool: seq<Scheduler.Candidate>, best: Option<Scheduler.Candidate>)
    requires IsPool(db, cutoff, pool) && Scheduler.IsBest(required, pool, best)
    ensures best.Some? <==> AnyEligible(db, cutoff, required)
    ensures best.Some? ==> IsChosen(db, cutoff, required, best.value) && IsFit(db, cutoff, required, best.value)
  {
    if best.Some? {
      assert best.value.id in Ids(pool);
    }
    if r :| r in db.runners && IsLive(db.runners[r], cutoff) && Scheduler.Eligible(Scheduler.Candidate(r, db.runners[r]), required) {
      assert r in Ids(pool);
    }
  }

  /** Where the id has gone after `assign`. */
  datatype Fate = Dropped | PutBack | Undone(runner: Scheduler.Candidate) | Given(runner: Scheduler.Candidate)

  class Scheduling {
    const store: Store.JobStore
    const queue: RedisQueue

    constructor (store: Store.JobStore, queue: RedisQueue)
      ensures this.store == store && this.queue == queue
    {
      this.store, this.queue := store, queue;
    }

    method Candidates(cutoff: int) returns (pool: seq<Scheduler.Candidate>)
      ensures IsPool(store.Contents(), cutoff, pool)
    {
      var ids := store.IdleRunners(cutoff);
      pool := [];
      for i := 0 to |ids|
        invariant forall c :: c in pool ==> c.id in store.runners && store.runners[c.id] == c.row && IsLive(c.row, cutoff)
        invariant Ids(pool) == set r | r in ids[..i]
      {
        assert ids[i] in ids;
        var c := Scheduler.Candidate(ids[i], store.runners[ids[i]]);
        assert Ids(pool + [c]) == Ids(pool) + {c.id} by {
          assert c in pool + [c];
          assert forall d :: d in pool + [c] <==> d in pool || d == c;
        }
        pool := pool + [c];
      }
      assert ids[..|ids|] == ids;
    }

    /** IdleRunners and Schedule. */
    method Pick(required: seq<string>, cutoff: int) returns (best: Option<Scheduler.Candidate>)
      ensures best.Some? <==> AnyEligible(store.Contents(), cutoff, required)
      ensures best.Some? ==>
        IsChosen(store.Contents(), cutoff, required, best.value) && IsFit(store.Contents(), cutoff, required, best.value)
    {
      var pool := Candidates(cutoff);
      best := Scheduler.Schedule(required, pool);
      BestIffEligible(store.Contents(), cutoff, required, pool, best);
    }

    /** One pass, with every outcome of its calls: the id is dropped iff its job cannot be
        read or is not QUEUED, put back iff no runner can be found or assigned, and otherwise
        goes to the best runner; row, runner, mailbox and in-flight list move together. A
        failing Dispatch is undone, whether or not the id reached the mailbox. */
    method Assign(id: JobId, cutoff: int, now: int, fails: Faults) returns (fate: Fate)
      modifies store, queue
      ensures fate.Dropped? <==> fails.load || !InStatus(old(store.Contents()), id, Queued)
      ensures !fate.Dropped? ==>
        (fate.PutBack? <==>
          fails.list || fails.assign || !AnyEligible(old(store.Contents()), cutoff, old(store.jobs)[id].labels))
      ensures fate.Given? ==> fails.dispatch.Sent?
      ensures fate.Undone? ==> !fails.dispatch.Sent?
      ensures fate.Dropped? ==>
        && store.Contents() == old(store.Contents())
        && queue.Contents() == Acked(old(queue.Contents()), id)
      ensures fate.PutBack? ==>
        store.Contents() == old(store.Contents()) && queue.Contents() == Requeued(old(queue.Contents()), id)
      ensures fate.Given? || fate.Undone? ==>
        && IsChosen(old(store.Contents()), cutoff, old(store.jobs)[id].labels, fate.runner)
        && IsFit(old(store.Contents()), cutoff, old(store.jobs)[id].labels, fate.runner)
      ensures fate.Given? ==>
        && (store.Contents(), Ok) == AssignAtomically(old(store.Contents()), id, fate.runner.id, now)
        && queue.Contents() == Acked(Dispatched(old(queue.Contents()), fate.runner.id, id), id)
      ensures fate.Undone? ==>
        var taken := AssignAtomically(old(store.Contents()), id, fate.runner.id, now).0;
        && store.Contents() == (if fails.undo then taken else Atomically(taken, id, Change.Requeue).0)
        && queue.Contents() == Requeued(if fails.dispatch.NotPushed? then old(queue.Contents())
                                        else Dispatched(old(queue.Contents()), fate.runner.id, id), id)
    {
      var job := store.GetJob(id);
      if fails.load || job.None? || job.value.status != Queued {
        queue.Ack(id);
        return Dropped;
      }
      if fails.list {
        queue.Requeue(id);
        return PutBack;
      }
      var best := Pick(job.value.labels, cutoff);
      if best.None? || fails.assign {
        queue.Requeue(id);
        return PutBack;
      }
      fate := Hand(id, best.value, now, fails);
    }

    /** The last part of `assign`, for the chosen runner. */
    method Hand(id: JobId, runner: Scheduler.Candidate, now: int, fails: Faults) returns (fate: Fate)
      requires InStatus(store.Contents(), id, Queued) && IsIdle(store.Contents(), runner.id)
      modifies store, queue
      ensures fate == if fails.dispatch.Sent? then Given(runner) else Undone(runner)
      ensures fate.Given? ==>
        && (store.Contents(), Ok) == AssignAtomically(old(store.Contents()), id, runner.id, now)
        && queue.Contents() == Acked(Dispatched(old(queue.Contents()), runner.id, id), id)
      ensures fate.Undone? ==>
        var taken := AssignAtomically(old(store.Contents()), id, runner.id, now).0;
        && store.Contents() == (if fails.undo then taken else Atomically(taken, id, Change.Requeue).0)
        && queue.Contents() == Requeued(if fails.dispatch.NotPushed? then old(queue.Contents())
                                        else Dispatched(old(queue.Contents()), runner.id, id), id)
    {
      var out := store.AssignJob(id, runner.id, now);
      if !fails.dispatch.NotPushed? {
        queue.Dispatch(runner.id, id);
      }
      if !fails.dispatch.Sent? {
        if !fails.undo {
          out := store.RequeueJob(id);
        }
        queue.Requeue(id);
        return Undone(runner);
      }
      queue.Ack(id);
      fate := Given(runner);
    }

    /** One tick of the reaper is the atomic pass that Ownership reasons about, and pushes
        exactly the rescued jobs. The order of the map iteration is the runtime's choice. */
    method ReapTick(cutoff: int) returns (order: seq<RunnerId>)
      modifies store, queue
      ensures Cluster.Enumerates(order, StaleRunners(old(store.Contents()), cutoff))
      ensures store.Contents() == Ownership.Reaped(old(store.Contents()), cutoff, order)
      ensures queue.Contents() == old(queue.Contents()).(pending :=
        Reverse(Rescued(MarkOffline(old(store.Contents()), cutoff), Cluster.Orphans(old(store.Contents()), order)))
        + old(queue.pending))
    {
      var orphaned := store.ReapOfflineRunners(cutoff);
      order := Enumerate(orphaned.Keys);
      ghost var marked := MarkOffline(old(store.Contents()), cutoff);
      ghost var orphans := Cluster.Orphans(old(store.Contents()), order);
      for i := 0 to |order|
        invariant Sweep(store.Contents(), queue.pending, orphans[i..]) == Sweep(marked, old(queue.pending), orphans)
        invariant queue.inflight == old(queue.inflight) && queue.mail == old(queue.mail)
      {
        var id := orphaned[order[i]];
        assert orphans[i..][0] == id && orphans[i..][1..] == orphans[i + 1..];
        if id != "" {
          var out := store.RequeueJob(id);
          if out == Ok {
            queue.Enqueue(id);
          }
        }
      }
      assert orphans[|order|..] == [];
      SweepIsPass(marked, old(queue.pending), orphans);
    }

    /** A range over the keys of a map: some order, each key once. */
    static method Enumerate(keys: set<RunnerId>) returns (order: seq<RunnerId>)
      ensures Cluster.Enumerates(order, keys)
    {
      order := [];
      var todo := keys;
      while todo != {}
        invariant todo <= keys && |order| + |todo| == |keys|
        invariant forall r :: r in order <==> r in keys && r !in todo
        decreases todo
      {
        var r :| r in todo;
        order := order + [r];
        todo := todo - {r};
      }
    }
  }
}
