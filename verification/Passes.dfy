/** One pass of the scheduler, one tick of the reaper and one request, step by step and left
    alone: the step machine of Cluster does what the whole methods do
    (internal/scheduler/service.go:62-157, internal/api/jobs.go:77-183). */
module Passes {
  import opened Models
  import opened Sql
  import opened Calls
  import opened Lists
  import opened Queue
  import opened Cluster
  import opened Service
  import Ownership

  // ---------- assign ----------

  function LoadStep(s: State, fails: Faults): State {
    Next(s, Sched(if fails.load then LoadFails else Load))
  }

  /** IdleRunners and Schedule; a failing listing is answered like an empty pool. */
  function ChooseStep(s: State, fails: Faults, pick: Option<RunnerId>): State {
    Next(s, Sched(Choose(if fails.list then None else pick)))
  }

  function AssignSteps(s: State, fails: Faults, now: int): State {
    if fails.assign then Next(s, Sched(AssignFails)) else Next(Next(s, Sched(ReadJob)), Sched(Commit(now)))
  }

  function DispatchSteps(s: State, fails: Faults): State {
    var t := Next(s, Sched(if fails.dispatch.Sent? then Dispatch else DispatchFails(fails.dispatch.NotExpiring?)));
    if fails.undo then Next(t, Sched(UndoFails))
    else Next(Next(Next(t, Sched(UndoStep)), Sched(UndoStep)), Sched(UndoStep))
  }

  function ListSteps(s: State): State {
    Next(Next(Next(s, Sched(Ack)), Sched(Remove)), Sched(Push))
  }

  /** A pass that nobody interrupts. Steps that are not enabled do nothing. */
  function Pass(s: State, fails: Faults, pick: Option<RunnerId>, now: int): State {
    ListSteps(DispatchSteps(AssignSteps(ChooseStep(LoadStep(s, fails), fails, pick), fails, now), fails))
  }

  /** What a state means for the caller of `assign`: tables and lists. */
  ghost predicate Leaves(s: State, t: State, db: Db, v: View) {
    t == s.(db := db, pending := v.pending, inflight := v.inflight, mail := v.mail, sched := Ready)
  }

  lemma AckLeaves(s: State)
    requires s.sched.Acking?
    ensures Leaves(s, ListSteps(s), s.db, Acked(ViewOf(s), s.sched.job))
  {
  }

  lemma RequeuedColumns(v: View, id: JobId)
    ensures Requeued(v, id) == View([id] + v.pending, RemoveFirst(v.inflight, id), v.mail)
  {
  }

  lemma RemoveSteps(s: State)
    requires s.sched.Removing?
    ensures ListSteps(s) ==
      s.(pending := [s.sched.job] + s.pending, inflight := RemoveFirst(s.inflight, s.sched.job), sched := Ready)
  {
    var t := Next(s, Sched(Ack));
    assert t == s;
    var u := Next(t, Sched(Remove));
    assert u == s.(inflight := RemoveFirst(s.inflight, s.sched.job), sched := Pushing(s.sched.job));
  }

  lemma RemoveLeaves(s: State)
    requires s.sched.Removing?
    ensures Leaves(s, ListSteps(s), s.db, Requeued(ViewOf(s), s.sched.job))
  {
    RequeuedColumns(ViewOf(s), s.sched.job);
    RemoveSteps(s);
  }

  lemma DispatchIdle(s: State, fails: Faults)
    requires s.sched.Acking? || s.sched.Removing?
    ensures DispatchSteps(s, fails) == s
  {
  }

  lemma AssignIdle(s: State, fails: Faults, now: int)
    requires s.sched.Acking? || s.sched.Removing?
    ensures AssignSteps(s, fails, now) == s
  {
  }

  /** The id is dropped iff its job cannot be read or is not QUEUED. */
  lemma PassDrops(s: State, fails: Faults, pick: Option<RunnerId>, now: int)
    requires s.sched.Loading? && (fails.load || !InStatus(s.db, s.sched.job, Queued))
    ensures Leaves(s, Pass(s, fails, pick, now), s.db, Acked(ViewOf(s), s.sched.job))
  {
    var t := LoadStep(s, fails);
    assert t == s.(sched := Acking(s.sched.job));
    assert ChooseStep(t, fails, pick) == t;
    AssignIdle(t, fails, now);
    DispatchIdle(t, fails);
    AckLeaves(t);
  }

  lemma AssignRefused(s: State, fails: Faults, now: int)
    requires s.sched.Reading? && InStatus(s.db, s.sched.job, Queued) && (fails.assign || !IsIdle(s.db, s.sched.runner))
    ensures AssignSteps(s, fails, now) == s.(sched := Removing(s.sched.job))
  {
    if !fails.assign {
      assert Next(s, Sched(ReadJob)) == s.(sched := Committing(s.sched.job, s.sched.runner, Queued));
    }
  }

  /** It is put back iff no runner is listed or chosen, or the assignment does not commit. */
  lemma PassPutsBack(s: State, fails: Faults, pick: Option<RunnerId>, now: int)
    requires s.sched.Loading? && !fails.load && InStatus(s.db, s.sched.job, Queued)
    requires fails.list || pick.None? || fails.assign || !IsIdle(s.db, pick.value)
    ensures Leaves(s, Pass(s, fails, pick, now), s.db, Requeued(ViewOf(s), s.sched.job))
  {
    var t := LoadStep(s, fails);
    assert t == s.(sched := Choosing(s.sched.job));
    var u := ChooseStep(t, fails, pick);
    var w := AssignSteps(u, fails, now);
    if fails.list || pick.None? {
      assert u == s.(sched := Removing(s.sched.job));
      AssignIdle(u, fails, now);
    } else {
      assert u == s.(sched := Reading(s.sched.job, pick.value));
      AssignRefused(u, fails, now);
    }
    assert w == s.(sched := Removing(s.sched.job));
    DispatchIdle(w, fails);
    RemoveLeaves(w);
  }

  lemma AssignCommits(s: State, fails: Faults, now: int)
    requires s.sched.Reading? && InStatus(s.db, s.sched.job, Queued) && IsIdle(s.db, s.sched.runner) && !fails.assign
    ensures AssignSteps(s, fails, now) ==
      s.(db := AssignAtomically(s.db, s.sched.job, s.sched.runner, now).0, sched := Dispatching(s.sched.job, s.sched.runner))
  {
    assert Next(s, Sched(ReadJob)) == s.(sched := Committing(s.sched.job, s.sched.runner, Queued));
  }

  lemma DispatchSends(s: State, fails: Faults)
    requires s.sched.Dispatching? && fails.dispatch.Sent?
    ensures DispatchSteps(s, fails) ==
      s.(mail := Dispatched(ViewOf(s), s.sched.runner, s.sched.job).mail, sched := Acking(s.sched.job))
  {
    assert BoxOf(ViewOf(s), s.sched.runner) == Box(s, s.sched.runner);
  }

  lemma UndoAlone(s: State, j: JobId)
    requires s.sched == Undoing(j, Call(j, Change.Requeue, AtRead)) && InStatus(s.db, j, Assigned)
    ensures
      Next(Next(Next(s, Sched(UndoStep)), Sched(UndoStep)), Sched(UndoStep)) ==
        s.(db := Atomically(s.db, j, Change.Requeue).0, sched := Removing(j))
  {
    var t := Next(s, Sched(UndoStep));
    assert t == s.(sched := Undoing(j, Call(j, Change.Requeue, AtWrite(Assigned, s.db.jobs[j].runnerId))));
    var u := Next(t, Sched(UndoStep));
    assert u.db == UpdateJob(s.db, j, Assigned, Change.Requeue);
  }

  lemma DispatchUndone(s: State, fails: Faults)
    requires s.sched.Dispatching? && !fails.dispatch.Sent? && InStatus(s.db, s.sched.job, Assigned)
    ensures DispatchSteps(s, fails) ==
      s.(db := if fails.undo then s.db else Atomically(s.db, s.sched.job, Change.Requeue).0,
         mail := if fails.dispatch.NotPushed? then s.mail else Dispatched(ViewOf(s), s.sched.runner, s.sched.job).mail,
         sched := Removing(s.sched.job))
  {
    assert BoxOf(ViewOf(s), s.sched.runner) == Box(s, s.sched.runner);
    var t := Next(s, Sched(DispatchFails(fails.dispatch.NotExpiring?)));
    if !fails.undo {
      UndoAlone(t, s.sched.job);
    }
  }

  /** Otherwise the job goes to the chosen runner and its mailbox, or is taken back and put
      back if Dispatch fails: the contract of Service.Scheduling.Assign. */
  lemma PassHands(s: State, fails: Faults, r: RunnerId, now: int)
    requires s.sched.Loading? && !fails.load && InStatus(s.db, s.sched.job, Queued)
    requires !fails.list && !fails.assign && IsIdle(s.db, r)
    ensures
      var t, id, taken := Pass(s, fails, Some(r), now), s.sched.job, AssignAtomically(s.db, s.sched.job, r, now).0;
      if fails.dispatch.Sent? then Leaves(s, t, taken, Acked(Dispatched(ViewOf(s), r, id), id))
      else Leaves(s, t, if fails.undo then taken else Atomically(taken, id, Change.Requeue).0,
                  Requeued(if fails.dispatch.NotPushed? then ViewOf(s) else Dispatched(ViewOf(s), r, id), id))
  {
    var id := s.sched.job;
    var t := LoadStep(s, fails);
    assert t == s.(sched := Choosing(id));
    var u := ChooseStep(t, fails, Some(r));
    assert u == s.(sched := Reading(id, r));
    AssignCommits(u, fails, now);
    var w := AssignSteps(u, fails, now);
    assert w == s.(db := AssignAtomically(s.db, id, r, now).0, sched := Dispatching(id, r));
    assert ViewOf(w) == ViewOf(s);
    if fails.dispatch.Sent? {
      DispatchSends(w, fails);
      AckLeaves(DispatchSteps(w, fails));
    } else {
      DispatchUndone(w, fails);
      RemoveLeaves(DispatchSteps(w, fails));
    }
  }

  // ---------- how an id leaves the scheduler ----------

  /** With or without interference, an id is dropped only if its job could not be read, was
      not QUEUED when read, or has been dispatched. */
  lemma DropsOnlyIf(s: State, a: SchedAction)
    requires SchedNext(s, a).sched.Acking? && SchedNext(s, a).sched != s.sched
    ensures SchedNext(s, a).sched.job == s.sched.job
    ensures
      || (s.sched.Loading? && (a == LoadFails || (a == Load && !InStatus(s.db, s.sched.job, Queued))))
      || (s.sched.Dispatching? && a == Dispatch)
  {
    AckingFrom(s, a);
  }

  lemma AckingFrom(s: State, a: SchedAction)
    requires SchedNext(s, a).sched.Acking?
    ensures a.Load? || a.LoadFails? || a.Dispatch? || SchedNext(s, a).sched == s.sched
  {
  }

  /** A failing Redis command changes no list, and the loop goes on. */
  lemma RedisFailsGoesOn(s: State)
    ensures
      var t := Next(s, Sched(RedisFails));
      && ViewOf(t) == ViewOf(s) && t.db == s.db
      && (s.sched.Acking? || s.sched.Removing? || s.sched.Pushing? || s.sched.Recovering? || s.sched.RecoverPushing? ==>
            t.sched == Ready)
      && (s.sched.Recovering? || s.sched.RecoverPushing? ==> t.reaper == Waiting)
  {
  }

  // ---------- the reaper ----------

  /** NextOrphan, the three statements of RequeueJob, and the push. */
  function OrphanSteps(s: State): State {
    var t := Next(s, Reaper(NextOrphan));
    Next(Next(Next(Next(t, Reaper(RequeueStep)), Reaper(RequeueStep)), Reaper(RequeueStep)), Reaper(EnqueueOrphan))
  }

  lemma RequeueAlone(s: State, j: JobId, todo: seq<JobId>)
    requires s.reaper == Requeueing(Call(j, Change.Requeue, AtRead), todo)
    ensures
      var (db, out) := Atomically(s.db, j, Change.Requeue);
      Next(Next(Next(s, Reaper(RequeueStep)), Reaper(RequeueStep)), Reaper(RequeueStep)) ==
        s.(db := db, reaper := if out == Ok then Enqueueing(j, todo) else Sweeping(todo))
  {
    var t := Next(s, Reaper(RequeueStep));
    if Atomically(s.db, j, Change.Requeue).1 == Ok {
      var job := s.db.jobs[j];
      assert t == s.(reaper := Requeueing(Call(j, Change.Requeue, AtWrite(job.status, job.runnerId)), todo));
      var u := Next(t, Reaper(RequeueStep));
      assert u.db == UpdateJob(s.db, j, job.status, Change.Requeue);
    } else {
      assert t == s.(reaper := Sweeping(todo));
    }
  }

  lemma OneOrphan(s: State)
    requires s.reaper.Sweeping? && s.reaper.todo != []
    ensures
      var id, rest := s.reaper.todo[0], s.reaper.todo[1..];
      OrphanSteps(s) == s.(db := Ownership.RequeueOne(s.db, id),
                           pending := if Accepts(s.db, id) then [id] + s.pending else s.pending,
                           reaper := Sweeping(rest))
  {
    var id, rest := s.reaper.todo[0], s.reaper.todo[1..];
    var t := Next(s, Reaper(NextOrphan));
    if id == "" {
      assert t == s.(reaper := Sweeping(rest));
    } else {
      assert t == s.(reaper := Requeueing(Call(id, Change.Requeue, AtRead), rest));
      RequeueAlone(t, id, rest);
    }
  }

  function SweepSteps(s: State, n: nat): State
    decreases n
  {
    if n == 0 then Next(s, Reaper(NextOrphan)) else SweepSteps(OrphanSteps(s), n - 1)
  }

  /** The statements of a tick, one by one, amount to the loop of Service and so to the pass
      on the tables and the pushes of the rescued ids. */
  lemma {:induction false} TickIsSweep(s: State)
    requires s.reaper.Sweeping?
    ensures
      var t, (db, pending) := SweepSteps(s, |s.reaper.todo|), Sweep(s.db, s.pending, s.reaper.todo);
      t == s.(db := db, pending := pending, reaper := Waiting)
    decreases |s.reaper.todo|
  {
    if s.reaper.todo != [] {
      OneOrphan(s);
      TickIsSweep(OrphanSteps(s));
    }
  }

  // ---------- requests ----------

  /** A request of runner r, left alone: forbidden iff r does not own the job, and otherwise
      what the store's method does. */
  lemma RequestAlone(db: Db, j: JobId, change: Change, r: RunnerId)
    ensures
      var (after, c) := AdvanceTimes(db, Call(j, change, AtCheck(r)), 4);
      && c.pc.Returned?
      && (!(j in db.jobs && db.jobs[j].runnerId == Some(r)) ==> after == db && c.pc.outcome == Forbidden)
      && (j in db.jobs && db.jobs[j].runnerId == Some(r) ==> (after, c.pc.outcome) == Atomically(db, j, change))
  {
    var (db1, c1) := Advance(db, Call(j, change, AtCheck(r)));
    assert AdvanceTimes(db, Call(j, change, AtCheck(r)), 4) == AdvanceTimes(db1, c1, 3);
    if Owns(db, r, j) {
      UninterruptedIsAtomic(db, j, change);
    } else {
      assert AdvanceTimes(db, c1, 3) == AdvanceTimes(db, c1, 2) == AdvanceTimes(db, c1, 1) == (db, c1);
    }
  }

  function CallSteps(s: State, c: nat, n: nat): State
    decreases n
  {
    if n == 0 then s else CallSteps(Next(s, Api(CallStep(c))), c, n - 1)
  }

  /** The steps of a handler execute its call on the tables. */
  lemma {:induction false} CallStepsAdvance(s: State, c: nat, n: nat)
    requires c in s.calls
    ensures
      var (db, call) := AdvanceTimes(s.db, s.calls[c], n);
      CallSteps(s, c, n) == s.(db := db, calls := s.calls[c := call])
    decreases n
  {
    if n == 0 {
      assert s.calls[c := s.calls[c]] == s.calls;
    } else {
      var t := Next(s, Api(CallStep(c)));
      CallStepsAdvance(t, c, n - 1);
      var call := AdvanceTimes(t.db, t.calls[c], n - 1).1;
      assert t.calls[c := call] == s.calls[c := call];
    }
  }

  /** A start or result request of runner r, from its arrival to its answer. */
  lemma RequestServed(s: State, c: nat, j: JobId, change: Change, r: RunnerId)
    requires c !in s.calls && change.Valid() && !change.Requeue? && !change.Cancel?
    ensures
      var t := CallSteps(Next(s, Api(Begin(c, j, change, Some(r)))), c, 4);
      && c in t.calls && t.calls[c].pc.Returned? && t == s.(db := t.db, calls := t.calls)
      && (if j in s.db.jobs && s.db.jobs[j].runnerId == Some(r)
          then (t.db, t.calls[c].pc.outcome) == Atomically(s.db, j, change)
          else (t.db, t.calls[c].pc.outcome) == (s.db, Forbidden))
  {
    var b := Next(s, Api(Begin(c, j, change, Some(r))));
    assert b == s.(calls := s.calls[c := Call(j, change, AtCheck(r))]);
    CallStepsAdvance(b, c, 4);
    RequestAlone(s.db, j, change, r);
  }

  /** A cancellation, from its arrival to its answer; nobody has to own the job. */
  lemma CancelServed(s: State, c: nat, j: JobId, now: int)
    requires c !in s.calls
    ensures
      var t := CallSteps(Next(s, Api(Begin(c, j, Cancel(now), None))), c, 3);
      && c in t.calls && t.calls[c].pc.Returned? && t == s.(db := t.db, calls := t.calls)
      && (t.db, t.calls[c].pc.outcome) == Atomically(s.db, j, Cancel(now))
  {
    var b := Next(s, Api(Begin(c, j, Cancel(now), None)));
    assert b == s.(calls := s.calls[c := Call(j, Cancel(now), AtRead)]);
    CallStepsAdvance(b, c, 3);
    UninterruptedIsAtomic(s.db, j, Cancel(now));
  }
}
