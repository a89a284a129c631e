/** The rescue of jobs from silent runners (internal/scheduler/service.go:125-157,
    internal/store/store.go:331-359). A reap finds a job only through the runner row that
    names it, and from then on only the reaper's memory does. */
module Rescue {
  import opened Models
  import opened Sql
  import opened Calls
  import opened Cluster
  import Fresh
  import Losses
  import NoLoss
  import Ownership
  import Tables

  // ---------- who will take the job back ----------

  predicate IsHeld(db: Db, j: JobId) {
    j in db.jobs && db.jobs[j].status.Held()
  }

  /** The reaper still has to requeue j. */
  predicate ReaperHas(pc: ReaperPc, j: JobId) {
    match pc
    case Sweeping(todo) => j in todo
    case Requeueing(call, todo) => (call.job == j && !call.pc.AtRelease?) || j in todo
    case Enqueueing(_, todo) => j in todo
    case _ => false
  }

  /** If its runner dies, j will be taken back: a runner row names it, so that a reap will
      find it, or the reaper has it already. */
  ghost predicate Attended(s: State, j: JobId) {
    Fresh.RunnersKnow(s.db, j) || ReaperHas(s.reaper, j)
  }

  // ---------- the steps that let go of a job ----------

  /** r is the only runner whose row names j. */
  ghost predicate NamedOnlyBy(db: Db, j: JobId, r: RunnerId) {
    forall q :: q in db.runners && db.runners[q].currentJob == Some(j) ==> q == r
  }

  /** A release of the last runner row that names j, for whichever job. */
  ghost predicate Frees(s: State, a: Action, j: JobId) {
    && StatementAt(s, a).Some? && StatementAt(s, a).value.Release?
    && NamedOnlyBy(s.db, j, StatementAt(s, a).value.r)
  }

  /** The reaper's RequeueJob fails before it has committed, or is refused because the
      status has changed since it was read. */
  predicate GivesUp(s: State, a: Action, j: JobId) {
    && s.reaper.Requeueing? && s.reaper.call.job == j && j !in s.reaper.todo
    && ((a == Reaper(RequeueFails) && !s.reaper.call.pc.AtRelease?)
        || (a == Reaper(RequeueStep) && s.reaper.call.pc.AtWrite? && !InStatus(s.db, j, s.reaper.call.pc.from)))
  }

  ghost predicate LetsGo(s: State, a: Action, j: JobId) {
    || ((a == Crash || GivesUp(s, a, j)) && !Fresh.RunnersKnow(s.db, j))
    || (Frees(s, a, j) && !ReaperHas(s.reaper, j))
  }

  // ---------- invariants ----------

  ghost predicate Sound(s: State) {
    Losses.Shape(s) && Tables.BusyIffHolding(s.db) && "" !in s.db.jobs
  }

  lemma InsertsAreNamed(s: State, a: Action)
    ensures var st := StatementAt(s, a); st.Some? && st.value.Insert? ==> st.value.id != ""
  {
  }

  lemma StatementNoEmptyId(db: Db, st: Tables.Statement)
    requires "" !in db.jobs && (st.Insert? ==> st.id != "")
    ensures "" !in Tables.Execute(db, st).jobs
  {
  }

  lemma NoEmptyId(s: State, a: Action)
    requires AllChecked(s) && "" !in s.db.jobs
    ensures "" !in Next(s, a).db.jobs
  {
    StepIsLegal(s, a);
    InsertsAreNamed(s, a);
    if StatementAt(s, a).Some? {
      StatementNoEmptyId(s.db, StatementAt(s, a).value);
    }
  }

  lemma {:induction false} NoEmptyIdHolds(ss: seq<State>, actions: seq<Action>, i: nat)
    requires IsRun(ss, actions) && i < |ss|
    ensures "" !in ss[i].db.jobs
  {
    if i > 0 {
      NoEmptyIdHolds(ss, actions, i - 1);
      AlwaysChecked(ss, actions, i - 1);
      assert ss[i] == Next(ss[i - 1], actions[i - 1]);
      NoEmptyId(ss[i - 1], actions[i - 1]);
    }
  }

  lemma SoundHolds(ss: seq<State>, actions: seq<Action>, i: nat)
    requires IsRun(ss, actions) && i < |ss|
    ensures Sound(ss[i])
  {
    Losses.ShapeHolds(ss, actions, i);
    TablesKept(ss, actions, i, i);
    NoEmptyIdHolds(ss, actions, i);
  }

  // ---------- one step ----------

  /** A statement other than a reap takes j's name out of the runner rows only by releasing
      the last one, and writes it only by assigning j. */
  lemma StatementNames(db: Db, st: Tables.Statement, j: JobId)
    requires Tables.Legal(st) && Tables.BusyIffHolding(db) && IsHeld(db, j) && !st.Reap?
    ensures Fresh.RunnersKnow(Tables.Execute(db, st), j) <==>
      Fresh.RunnersKnow(db, j) && !(st.Release? && NamedOnlyBy(db, j, st.r))
  {
    var after := Tables.Execute(db, st);
    if Fresh.RunnersKnow(after, j) {
      var r :| r in after.runners && after.runners[r].currentJob == Some(j);
      assert r in db.runners && db.runners[r].currentJob == Some(j);
    }
    if r :| r in db.runners && db.runners[r].currentJob == Some(j) && !(st.Release? && st.r == r) {
      assert r in after.runners && after.runners[r].currentJob == Some(j);
    }
  }

  lemma StepNames(s: State, a: Action, j: JobId)
    requires Sound(s) && IsHeld(s.db, j) && !(a.Reaper? && a.reaper.Reap?)
    ensures Fresh.RunnersKnow(Next(s, a).db, j) <==> Fresh.RunnersKnow(s.db, j) && !Frees(s, a, j)
  {
    StepIsLegal(s, a);
    var st := StatementAt(s, a);
    if st.Some? {
      assert !st.value.Reap?;
      StatementNames(s.db, st.value, j);
    }
  }

  lemma RequeueRemembers(s: State, j: JobId)
    requires s.reaper.Requeueing? && NoLoss.RequeuersKnown(s) && IsHeld(s.db, j)
    requires IsHeld(RequeueNext(s, s.reaper.call, s.reaper.todo).db, j)
    ensures ReaperHas(RequeueNext(s, s.reaper.call, s.reaper.todo).reaper, j) <==>
      ReaperHas(s.reaper, j) && !GivesUp(s, Reaper(RequeueStep), j)
  {
  }

  lemma ReaperRemembers(s: State, a: ReaperAction, j: JobId)
    requires Sound(s) && IsHeld(s.db, j) && !a.Reap?
    requires IsHeld(Next(s, Reaper(a)).db, j)
    ensures ReaperHas(Next(s, Reaper(a)).reaper, j) <==> ReaperHas(s.reaper, j) && !GivesUp(s, Reaper(a), j)
  {
    if a.RequeueStep? && s.reaper.Requeueing? {
      RequeueRemembers(s, j);
    } else if a.NextOrphan? && s.reaper.Sweeping? && s.reaper.todo != [] {
      assert s.reaper.todo == [s.reaper.todo[0]] + s.reaper.todo[1..];
    }
  }

  lemma SchedLeavesReaper(s: State, a: SchedAction, j: JobId)
    requires NoLoss.ReaperFits(s)
    ensures ReaperHas(SchedNext(s, a).reaper, j) == ReaperHas(s.reaper, j)
  {
    if !a.RecoverStep? && !a.RedisFails? {
      SchedFrameReaper(s, a);
    }
  }

  lemma OthersLeaveReaper(s: State, a: Action, j: JobId)
    requires Sound(s) && !a.Reaper? && a != Crash
    ensures ReaperHas(Next(s, a).reaper, j) == ReaperHas(s.reaper, j)
  {
    if a.Sched? {
      SchedLeavesReaper(s, a.sched, j);
    }
  }

  /** A reap hands every job it takes a name away from to the reaper. */
  lemma ReapHandsOver(s: State, cutoff: int, order: seq<RunnerId>, j: JobId)
    requires Sound(s) && IsHeld(s.db, j)
    ensures Attended(Next(s, Reaper(Reap(cutoff, order))), j) == Attended(s, j)
  {
    var t := Next(s, Reaper(Reap(cutoff, order)));
    if t != s {
      if r :| r in s.db.runners && s.db.runners[r].currentJob == Some(j) {
        if r in StaleRunners(s.db, cutoff) {
          var i :| 0 <= i < |order| && order[i] == r;
          assert Orphans(s.db, order)[i] == j;
        } else {
          assert t.db.runners[r].currentJob == Some(j);
        }
      }
      if j in Orphans(s.db, order) {
        Fresh.OrphansSpread(s.db, order, j);
      }
      if r :| r in t.db.runners && t.db.runners[r].currentJob == Some(j) {
        assert s.db.runners[r].currentJob == Some(j);
      }
    }
  }

  /** While j is held, one step keeps it attended exactly when it does not let go of it, and
      no step attends to it again. */
  lemma StepAttendsExactly(s: State, a: Action, j: JobId)
    requires Sound(s) && IsHeld(s.db, j) && IsHeld(Next(s, a).db, j)
    ensures Attended(Next(s, a), j) <==> Attended(s, j) && !LetsGo(s, a, j)
  {
    if a.Reaper? && a.reaper.Reap? {
      ReapHandsOver(s, a.reaper.cutoff, a.reaper.order, j);
    } else {
      StepNames(s, a, j);
      if a.Reaper? {
        ReaperRemembers(s, a.reaper, j);
      } else if a != Crash {
        OthersLeaveReaper(s, a, j);
      }
    }
  }

  // ---------- every run ----------

  ghost predicate HeldBetween(ss: seq<State>, i: nat, m: nat, j: JobId)
    requires i <= m < |ss|
  {
    forall n :: i <= n <= m ==> IsHeld(ss[n].db, j)
  }

  /** Step n keeps a held job attended iff it does not let go of it. */
  ghost predicate AttendsFrom(ss: seq<State>, actions: seq<Action>, n: nat, j: JobId)
    requires n < |actions| < |ss|
  {
    Attended(ss[n + 1], j) <==> Attended(ss[n], j) && !LetsGo(ss[n], actions[n], j)
  }

  lemma AttendsAt(ss: seq<State>, actions: seq<Action>, n: nat, j: JobId)
    requires IsRun(ss, actions) && n < |actions| && IsHeld(ss[n].db, j) && IsHeld(ss[n + 1].db, j)
    ensures AttendsFrom(ss, actions, n, j)
  {
    SoundHolds(ss, actions, n);
    assert ss[n + 1] == Next(ss[n], actions[n]);
    StepAttendsExactly(ss[n], actions[n], j);
  }

  lemma {:induction false} AttendedBefore(ss: seq<State>, actions: seq<Action>, i: nat, m: nat, j: JobId)
    requires i <= m < |ss| == |actions| + 1 && Attended(ss[m], j)
    requires forall n :: i <= n < m ==> AttendsFrom(ss, actions, n, j)
    ensures Attended(ss[i], j)
    decreases m
  {
    if i < m {
      assert AttendsFrom(ss, actions, m - 1, j);
      AttendedBefore(ss, actions, i, m - 1, j);
    }
  }

  /** The step that lets go of j. */
  lemma {:induction false} LastAttended(ss: seq<State>, actions: seq<Action>, i: nat, m: nat, j: JobId) returns (n: nat)
    requires i <= m < |ss| == |actions| + 1 && Attended(ss[i], j) && !Attended(ss[m], j)
    requires forall n :: i <= n < m ==> AttendsFrom(ss, actions, n, j)
    ensures i <= n < m && LetsGo(ss[n], actions[n], j)
    decreases m
  {
    n := m - 1;
    if Attended(ss[n], j) {
      assert AttendsFrom(ss, actions, n, j);
    } else {
      n := LastAttended(ss, actions, i, n, j);
    }
  }

  lemma NeverLetGoExactly(ss: seq<State>, actions: seq<Action>, i: nat, m: nat, j: JobId)
    requires i <= m < |ss| == |actions| + 1 && Attended(ss[i], j)
    requires forall n :: i <= n < m ==> AttendsFrom(ss, actions, n, j)
    ensures Attended(ss[m], j) <==> NeverLetGo(ss, actions, i, m, j)
  {
    if Attended(ss[m], j) {
      forall n | i <= n < m ensures !LetsGo(ss[n], actions[n], j) {
        AttendedBefore(ss, actions, n + 1, m, j);
        assert AttendsFrom(ss, actions, n, j);
      }
    } else {
      var n := LastAttended(ss, actions, i, m, j);
    }
  }

  ghost predicate NeverLetGo(ss: seq<State>, actions: seq<Action>, i: nat, m: nat, j: JobId)
    requires i <= m < |ss| == |actions| + 1
  {
    forall n :: i <= n < m ==> !LetsGo(ss[n], actions[n], j)
  }

  /** In every run, all crashes and faults included: a job that is held and attended stays
      so exactly until a crash while only the reaper has it, a failing or refused requeue of
      it, or a release of the last runner row that names it. */
  lemma AttendedExactly(ss: seq<State>, actions: seq<Action>, i: nat, m: nat, j: JobId)
    requires IsRun(ss, actions) && i <= m < |ss| && HeldBetween(ss, i, m, j) && Attended(ss[i], j)
    ensures Attended(ss[m], j) <==> NeverLetGo(ss, actions, i, m, j)
  {
    forall n | i <= n < m ensures AttendsFrom(ss, actions, n, j) {
      AttendsAt(ss, actions, n, j);
    }
    NeverLetGoExactly(ss, actions, i, m, j);
  }

  /** Every assignment starts out attended. */
  lemma CommitAttends(s: State, now: int)
    requires s.sched.Committing? && Next(s, Sched(Commit(now))).sched.Dispatching?
    ensures
      var t := Next(s, Sched(Commit(now)));
      IsHeld(t.db, s.sched.job) && Attended(t, s.sched.job)
  {
    Ownership.CommitServes(s, now);
    var t := Next(s, Sched(Commit(now)));
    assert t.db.runners[s.sched.runner].currentJob == Some(s.sched.job);
  }

  // ---------- a job that was let go ----------

  /** Somebody else's request about j, or the scheduler's undo of its dispatch, commits. */
  predicate MovedByOthers(s: State, a: Action, j: JobId) {
    && !a.Reaper? && StatementAt(s, a).Some? && StatementAt(s, a).value.Move?
    && StatementAt(s, a).value.id == j && InStatus(s.db, j, StatementAt(s, a).value.from)
  }

  ghost predicate SameHold(before: Db, after: Db, j: JobId) {
    && IsHeld(before, j) && IsHeld(after, j)
    && before.jobs[j].status == after.jobs[j].status && before.jobs[j].runnerId == after.jobs[j].runnerId
  }

  lemma StatementHolds(db: Db, st: Tables.Statement, j: JobId)
    requires Tables.Legal(st) && IsHeld(db, j)
    ensures SameHold(db, Tables.Execute(db, st), j) || (st.Move? && st.id == j && InStatus(db, j, st.from))
  {
  }

  /** The reaper writes only to jobs it has. */
  lemma ReaperMoves(s: State, a: ReaperAction, j: JobId)
    requires Sound(s) && !ReaperHas(s.reaper, j)
    ensures var st := StatementAt(s, Reaper(a)); !(st.Some? && st.value.Move? && st.value.id == j)
  {
  }

  lemma NeglectedStep(s: State, a: Action, j: JobId)
    requires Sound(s) && IsHeld(s.db, j) && !Attended(s, j)
    ensures (SameHold(s.db, Next(s, a).db, j) && !Attended(Next(s, a), j)) || MovedByOthers(s, a, j)
  {
    StepIsLegal(s, a);
    var st := StatementAt(s, a);
    if st.Some? {
      StatementHolds(s.db, st.value, j);
    }
    if a.Reaper? {
      ReaperMoves(s, a.reaper, j);
    }
    if IsHeld(Next(s, a).db, j) {
      StepAttendsExactly(s, a, j);
    }
  }

  ghost predicate MovedBetween(ss: seq<State>, actions: seq<Action>, i: nat, m: nat, j: JobId)
    requires i <= m < |ss| == |actions| + 1
  {
    exists n :: i <= n < m && MovedByOthers(ss[n], actions[n], j)
  }

  ghost predicate NeglectedFrom(ss: seq<State>, actions: seq<Action>, n: nat, j: JobId)
    requires n < |actions| < |ss|
  {
    IsHeld(ss[n].db, j) && !Attended(ss[n], j) ==>
      (SameHold(ss[n].db, ss[n + 1].db, j) && !Attended(ss[n + 1], j)) || MovedByOthers(ss[n], actions[n], j)
  }

  lemma NeglectedAt(ss: seq<State>, actions: seq<Action>, n: nat, j: JobId)
    requires IsRun(ss, actions) && n < |actions|
    ensures NeglectedFrom(ss, actions, n, j)
  {
    if IsHeld(ss[n].db, j) && !Attended(ss[n], j) {
      SoundHolds(ss, actions, n);
      NeglectedStep(ss[n], actions[n], j);
      assert ss[n + 1] == Next(ss[n], actions[n]);
    }
  }

  lemma {:induction false} NeglectedUntil(ss: seq<State>, actions: seq<Action>, i: nat, m: nat, j: JobId)
    requires i <= m < |ss| == |actions| + 1 && IsHeld(ss[i].db, j) && !Attended(ss[i], j)
    requires forall n :: i <= n < m ==> NeglectedFrom(ss, actions, n, j)
    ensures (SameHold(ss[i].db, ss[m].db, j) && !Attended(ss[m], j)) || MovedBetween(ss, actions, i, m, j)
    decreases m
  {
    if i < m {
      NeglectedUntil(ss, actions, i, m - 1, j);
      assert NeglectedFrom(ss, actions, m - 1, j);
    }
  }

  /** Whatever happens later, restarts and reaps included, a job that was let go stays
      where it is and out of the reaper's sight until a request about it is served. */
  lemma NeglectedForGood(ss: seq<State>, actions: seq<Action>, i: nat, m: nat, j: JobId)
    requires IsRun(ss, actions) && i <= m < |ss| && IsHeld(ss[i].db, j) && !Attended(ss[i], j)
    ensures (SameHold(ss[i].db, ss[m].db, j) && !Attended(ss[m], j)) || MovedBetween(ss, actions, i, m, j)
  {
    forall n | i <= n < m ensures NeglectedFrom(ss, actions, n, j) {
      NeglectedAt(ss, actions, n, j);
    }
    NeglectedUntil(ss, actions, i, m, j);
  }
}
