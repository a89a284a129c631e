/** No ASSIGNED job is in limbo: it is on its way to the runner it is assigned to
    (internal/scheduler/service.go:98-117, internal/queue/redis.go:81-99). */
module NoLimbo {
  import opened Models
  import opened Sql
  import opened Calls
  import opened Lists
  import opened Cluster

  predicate InMailbox(s: State, j: JobId, r: RunnerId) {
    j in Box(s, r)
  }

  /** The agent has received j and its start request has not been answered. */
  predicate HeldByAgent(s: State, j: JobId, r: RunnerId) {
    var pc := AgentOf(s, r);
    (pc.Fetched? || pc.Starting?) && pc.job == j
  }

  /** The scheduler still has to dispatch j, or to take the failed dispatch back. */
  predicate HeldByScheduler(s: State, j: JobId, r: RunnerId) {
    || s.sched == Dispatching(j, r)
    || (UndoPending(s) && s.sched.job == j)
  }

  predicate OnItsWay(s: State, j: JobId, r: RunnerId) {
    InMailbox(s, j, r) || HeldByAgent(s, j, r) || HeldByScheduler(s, j, r)
  }

  ghost predicate NothingInLimbo(s: State) {
    forall j :: InStatus(s.db, j, Assigned) ==>
      s.db.jobs[j].runnerId.Some? && OnItsWay(s, j, s.db.jobs[j].runnerId.value)
  }

  // ---------- the inductive invariant ----------

  ghost predicate StartShape(s: State) {
    forall r :: r in s.agents && s.agents[r].Starting? ==>
      var c := s.agents[r].call;
      c.job == s.agents[r].job && c.change.Start? && (c.pc == AtCheck(r) || c.pc.AtRead? || c.pc.AtWrite?)
  }

  /** While an undo is pending nobody else can assign the job again. */
  ghost predicate UndoShape(s: State) {
    s.sched.Undoing? ==>
      && s.sched.call.job == s.sched.job && s.sched.call.change.Requeue?
      && (InStatus(s.db, s.sched.job, Assigned) && s.sched.call.pc.AtWrite? ==> s.sched.call.pc.from == Assigned)
      && (s.sched.call.pc.AtRelease? ==> !InStatus(s.db, s.sched.job, Assigned))
  }

  ghost predicate Inv(s: State) {
    AllChecked(s) && StartShape(s) && UndoShape(s) && NothingInLimbo(s)
  }

  /** The undo of a failed dispatch has not committed yet. */
  predicate UndoPending(s: State) {
    s.sched.Undoing? && (s.sched.call.pc.AtRead? || s.sched.call.pc.AtWrite?)
  }

  /** The scheduler does not crash between the assignment transaction and the mailbox push
      or the undo, the undo does not fail before it has committed, neither the delivery of
      a popped entry nor the start request fails, and no mailbox expires. */
  ghost predicate Benign(s: State, a: Action) {
    && (a == Crash ==> !s.sched.Dispatching? && !UndoPending(s))
    && (a == Sched(UndoFails) ==> !UndoPending(s))
    && !(a.Agent? && (a.agent.PollFails? || a.agent.StartFails? || a.agent.Expire?))
  }

  // ---------- preservation ----------

  /** A transition never assigns, and leaves an assigned row with its runner. */
  lemma AdvanceAssigned(db: Db, c: Call, j: JobId)
    requires Checked(c)
    ensures InStatus(Advance(db, c).0, j, Assigned) ==>
      InStatus(db, j, Assigned) && Advance(db, c).0.jobs[j].runnerId == db.jobs[j].runnerId
  {
  }

  /** A step that moves nothing and assigns nothing keeps every job on its way. */
  lemma NothingMoves(s: State, t: State)
    requires Inv(s) && AllChecked(t)
    requires t == s.(db := t.db, pending := t.pending, webhooks := t.webhooks, calls := t.calls, reaper := t.reaper)
    requires forall j :: InStatus(t.db, j, Assigned) ==>
      InStatus(s.db, j, Assigned) && t.db.jobs[j].runnerId == s.db.jobs[j].runnerId
    ensures Inv(t)
  {
    forall j, r ensures OnItsWay(s, j, r) == OnItsWay(t, j, r) {
    }
  }

  lemma ApiKeeps(s: State, a: ApiAction)
    requires Inv(s)
    ensures Inv(Next(s, Api(a)))
  {
    var t := Next(s, Api(a));
    ApiStepIsLegal(s, a);
    assert t == s.(db := t.db, pending := t.pending, webhooks := t.webhooks, calls := t.calls);
    forall j | InStatus(t.db, j, Assigned)
      ensures InStatus(s.db, j, Assigned) && t.db.jobs[j].runnerId == s.db.jobs[j].runnerId
    {
      if a.CallStep? && a.c in s.calls {
        AdvanceAssigned(s.db, s.calls[a.c], j);
      }
    }
    NothingMoves(s, t);
  }

  lemma PollKeeps(s: State, r: RunnerId)
    requires Inv(s)
    ensures Inv(Next(s, Agent(r, Poll)))
  {
    var t, box := Next(s, Agent(r, Poll)), Box(s, r);
    AgentStepIsLegal(s, r, Poll);
    if t != s {
      assert box == box[..|box| - 1] + [box[|box| - 1]];
      forall j, q | OnItsWay(s, j, q) ensures OnItsWay(t, j, q) {
      }
    }
  }

  /** The start request of the owner of an ASSIGNED job is not refused. */
  lemma StartKeepsOwn(s: State, r: RunnerId, j: JobId)
    requires StartShape(s) && AgentOf(s, r).Starting? && AgentOf(s, r).job == j && Checked(AgentOf(s, r).call)
    requires InStatus(s.db, j, Assigned) && s.db.jobs[j].runnerId == Some(r)
    requires InStatus(Next(s, Agent(r, StartStep)).db, j, Assigned)
    ensures HeldByAgent(Next(s, Agent(r, StartStep)), j, r)
  {
  }

  lemma StartStepOnItsWay(s: State, r: RunnerId, j: JobId)
    requires NothingInLimbo(s) && StartShape(s) && AgentOf(s, r).Starting? && Checked(AgentOf(s, r).call)
    requires InStatus(Next(s, Agent(r, StartStep)).db, j, Assigned)
    ensures
      var t := Next(s, Agent(r, StartStep));
      t.db.jobs[j].runnerId.Some? && OnItsWay(t, j, t.db.jobs[j].runnerId.value)
  {
    var t, c := Next(s, Agent(r, StartStep)), AgentOf(s, r).call;
    AdvanceAssigned(s.db, c, j);
    var q := s.db.jobs[j].runnerId.value;
    assert OnItsWay(s, j, q);
    if HeldByAgent(s, j, q) && q == r {
      StartKeepsOwn(s, r, j);
    } else {
      assert OnItsWay(t, j, q);
    }
  }

  lemma StartStepKeeps(s: State, r: RunnerId)
    requires Inv(s)
    ensures Inv(Next(s, Agent(r, StartStep)))
  {
    AgentStepIsLegal(s, r, StartStep);
    if AgentOf(s, r).Starting? {
      var t := Next(s, Agent(r, StartStep));
      assert t == s.(db := t.db, agents := t.agents);
      forall j | InStatus(t.db, j, Assigned)
        ensures t.db.jobs[j].runnerId.Some? && OnItsWay(t, j, t.db.jobs[j].runnerId.value)
        ensures InStatus(s.db, j, Assigned)
      {
        StartStepOnItsWay(s, r, j);
        AdvanceAssigned(s.db, AgentOf(s, r).call, j);
      }
    }
  }

  lemma AgentKeeps(s: State, r: RunnerId, a: AgentAction)
    requires Inv(s) && Benign(s, Agent(r, a))
    ensures Inv(Next(s, Agent(r, a)))
  {
    if a.Poll? {
      PollKeeps(s, r);
    } else if a.StartStep? {
      StartStepKeeps(s, r);
    } else {
      var t := Next(s, Agent(r, a));
      AgentStepIsLegal(s, r, a);
      forall j, q | OnItsWay(s, j, q) ensures OnItsWay(t, j, q) {
      }
    }
  }

  lemma WayKept(s: State, t: State, j: JobId, r: RunnerId)
    requires t == s.(db := t.db, sched := t.sched) && s.sched.Committing? && OnItsWay(s, j, r)
    ensures OnItsWay(t, j, r)
  {
  }

  lemma CommitOnItsWay(s: State, now: int, j: JobId)
    requires NothingInLimbo(s) && s.sched.Committing?
    requires InStatus(Next(s, Sched(Commit(now))).db, j, Assigned)
    ensures
      var t := Next(s, Sched(Commit(now)));
      t.db.jobs[j].runnerId.Some? && OnItsWay(t, j, t.db.jobs[j].runnerId.value)
  {
    var t := CommitNext(s, s.sched.job, s.sched.runner, s.sched.from, now);
    assert t == s.(db := t.db, sched := t.sched);
    if t.db == s.db || j != s.sched.job {
      assert t.db.jobs[j] == s.db.jobs[j];
      assert InStatus(s.db, j, Assigned);
      WayKept(s, t, j, s.db.jobs[j].runnerId.value);
    } else {
      assert HeldByScheduler(t, j, s.sched.runner);
    }
  }

  lemma CommitKeeps(s: State, now: int)
    requires Inv(s) && s.sched.Committing?
    ensures Inv(Next(s, Sched(Commit(now))))
  {
    SchedStepIsLegal(s, Commit(now));
    var t := Next(s, Sched(Commit(now)));
    assert t.agents == s.agents && !t.sched.Undoing?;
    forall j | InStatus(t.db, j, Assigned)
      ensures t.db.jobs[j].runnerId.Some? && OnItsWay(t, j, t.db.jobs[j].runnerId.value)
    {
      CommitOnItsWay(s, now, j);
    }
  }

  lemma UndoKeeps(s: State)
    requires Inv(s) && s.sched.Undoing?
    ensures Inv(Next(s, Sched(UndoStep)))
  {
    var t, c := Next(s, Sched(UndoStep)), s.sched.call;
    SchedStepIsLegal(s, UndoStep);
    assert t == s.(db := t.db, sched := t.sched);
    forall j | InStatus(t.db, j, Assigned)
      ensures InStatus(s.db, j, Assigned) && t.db.jobs[j].runnerId == s.db.jobs[j].runnerId
      ensures OnItsWay(t, j, s.db.jobs[j].runnerId.value)
    {
      AdvanceAssigned(s.db, c, j);
      assert OnItsWay(s, j, s.db.jobs[j].runnerId.value);
    }
  }

  lemma DispatchKeeps(s: State, a: SchedAction)
    requires Inv(s) && s.sched.Dispatching? && (a.Dispatch? || a.DispatchFails?)
    ensures Inv(Next(s, Sched(a)))
  {
    var t := Next(s, Sched(a));
    SchedStepIsLegal(s, a);
    assert t == s.(mail := t.mail, sched := t.sched);
    forall j, r | OnItsWay(s, j, r) ensures OnItsWay(t, j, r) {
    }
  }

  lemma UndoFailsKeeps(s: State)
    requires Inv(s) && s.sched.Undoing? && !UndoPending(s)
    ensures Inv(Next(s, Sched(UndoFails)))
  {
    var t := Next(s, Sched(UndoFails));
    SchedStepIsLegal(s, UndoFails);
    assert t == s.(sched := t.sched);
    forall j, r | OnItsWay(s, j, r) ensures OnItsWay(t, j, r) {
    }
  }

  lemma SchedKeeps(s: State, a: SchedAction)
    requires Inv(s) && Benign(s, Sched(a))
    ensures Inv(Next(s, Sched(a)))
  {
    var t := Next(s, Sched(a));
    if s.sched.Committing? && a.Commit? {
      CommitKeeps(s, a.now);
    } else if s.sched.Undoing? && a.UndoStep? {
      UndoKeeps(s);
    } else if s.sched.Undoing? && a.UndoFails? {
      UndoFailsKeeps(s);
    } else if s.sched.Dispatching? && (a.Dispatch? || a.DispatchFails?) {
      DispatchKeeps(s, a);
    } else if s.sched.Dispatching? || s.sched.Undoing? {
      assert t == s;
    } else {
      QuietKeeps(s, a);
    }
  }

  lemma QuietKeeps(s: State, a: SchedAction)
    requires Inv(s) && !(s.sched.Committing? && a.Commit?) && !s.sched.Undoing? && !s.sched.Dispatching?
    ensures Inv(Next(s, Sched(a)))
  {
    SchedStepIsLegal(s, a);
    SchedFrame(s, a);
    QuietStep(s, a);
    QuietPc(s, a);
    var t := SchedNext(s, a);
    forall j, r | OnItsWay(s, j, r) ensures OnItsWay(t, j, r) {
    }
  }

  lemma QuietStep(s: State, a: SchedAction)
    requires !(s.sched.Committing? && a.Commit?) && !s.sched.Undoing? && !s.sched.Dispatching?
    ensures SchedNext(s, a).db == s.db && SchedNext(s, a).mail == s.mail
  {
  }

  lemma QuietPc(s: State, a: SchedAction)
    requires !(s.sched.Committing? && a.Commit?) && !s.sched.Undoing? && !s.sched.Dispatching?
    ensures !SchedNext(s, a).sched.Undoing? && !SchedNext(s, a).sched.Dispatching?
  {
  }

  lemma ReaperAssigned(s: State, a: ReaperAction, j: JobId)
    requires Inv(s) && InStatus(ReaperNext(s, a).db, j, Assigned)
    ensures InStatus(s.db, j, Assigned) && ReaperNext(s, a).db.jobs[j].runnerId == s.db.jobs[j].runnerId
  {
    if a.RequeueStep? && s.reaper.Requeueing? {
      AdvanceAssigned(s.db, s.reaper.call, j);
    }
  }

  lemma ReaperFrame(s: State, a: ReaperAction)
    ensures var t := ReaperNext(s, a); t == s.(db := t.db, reaper := t.reaper, pending := t.pending)
  {
  }

  lemma ReaperKeeps(s: State, a: ReaperAction)
    requires Inv(s)
    ensures Inv(Next(s, Reaper(a)))
  {
    var t := ReaperNext(s, a);
    ReaperStepIsLegal(s, a);
    ReaperFrame(s, a);
    forall j | InStatus(t.db, j, Assigned)
      ensures InStatus(s.db, j, Assigned) && t.db.jobs[j].runnerId == s.db.jobs[j].runnerId
    {
      ReaperAssigned(s, a, j);
    }
    NothingMoves(s, t);
  }

  lemma CrashKeeps(s: State)
    requires Inv(s) && Benign(s, Crash)
    ensures Inv(Next(s, Crash))
  {
    var t := Next(s, Crash);
    forall j, r | OnItsWay(s, j, r) ensures OnItsWay(t, j, r) {
    }
  }

  lemma StepKeeps(s: State, a: Action)
    requires Inv(s) && Benign(s, a)
    ensures Inv(Next(s, a))
  {
    match a
    case Api(api) => ApiKeeps(s, api);
    case Agent(r, agent) => AgentKeeps(s, r, agent);
    case Sched(sched) => SchedKeeps(s, sched);
    case Reaper(reaper) => ReaperKeeps(s, reaper);
    case Crash => CrashKeeps(s);
  }

  lemma InvNext(ss: seq<State>, actions: seq<Action>, n: nat)
    requires IsRun(ss, actions) && n < |actions| && Inv(ss[n]) && Benign(ss[n], actions[n])
    ensures Inv(ss[n + 1])
  {
    StepKeeps(ss[n], actions[n]);
    assert ss[n + 1] == Next(ss[n], actions[n]);
  }

  lemma {:induction false} InvHolds(ss: seq<State>, actions: seq<Action>, i: nat)
    requires IsRun(ss, actions) && i < |ss|
    requires forall k {:trigger actions[k]} :: 0 <= k < i ==> Benign(ss[k], actions[k])
    ensures Inv(ss[i])
  {
    if i > 0 {
      InvHolds(ss, actions, i - 1);
      InvNext(ss, actions, i - 1);
    }
  }

  /** In every interleaving at SQL granularity, stale mailbox entries, reaping, failed
      dispatches and failed queue operations included, a job ASSIGNED to r is in r's
      mailbox, still with the scheduler, or received by r's agent and not yet started. */
  lemma NoAssignedJobInLimbo(ss: seq<State>, actions: seq<Action>, i: nat)
    requires IsRun(ss, actions) && i < |ss|
    requires forall k {:trigger actions[k]} :: 0 <= k < i ==> Benign(ss[k], actions[k])
    ensures NothingInLimbo(ss[i])
  {
    InvHolds(ss, actions, i);
  }

  // ---------- the excluded faults ----------

  /** An entry that is popped and not delivered strands its job exactly when the job is
      ASSIGNED to that runner, no second entry follows, and the scheduler does not still
      hold it. */
  lemma PollFailureStrandsExactly(s: State, r: RunnerId)
    requires Inv(s) && AgentOf(s, r).Polling? && Box(s, r) != []
    ensures NothingInLimbo(Next(s, Agent(r, PollFails))) <==>
      var box := Box(s, r);
      var j := box[|box| - 1];
      InStatus(s.db, j, Assigned) && s.db.jobs[j].runnerId == Some(r) ==> j in box[..|box| - 1] || HeldByScheduler(s, j, r)
  {
    var t, box := Next(s, Agent(r, PollFails)), Box(s, r);
    var j := box[|box| - 1];
    assert box == box[..|box| - 1] + [j];
    assert t == s.(mail := s.mail[r := box[..|box| - 1]]);
    forall k, q | k != j || q != r ensures OnItsWay(s, k, q) == OnItsWay(t, k, q) {
    }
    assert OnItsWay(t, j, r) <==> j in box[..|box| - 1] || HeldByScheduler(s, j, r);
  }

  /** A mailbox that expires strands exactly the jobs ASSIGNED to its runner that were on
      their way nowhere else. */
  lemma ExpiryStrandsExactly(s: State, r: RunnerId)
    requires Inv(s)
    ensures NothingInLimbo(Next(s, Agent(r, Expire))) <==>
      forall j :: j in Box(s, r) && InStatus(s.db, j, Assigned) && s.db.jobs[j].runnerId == Some(r) ==>
        HeldByAgent(s, j, r) || HeldByScheduler(s, j, r)
  {
    var t := Next(s, Agent(r, Expire));
    assert t == s.(mail := s.mail[r := []]);
    forall j, q ensures OnItsWay(t, j, q) <==> if q == r then HeldByAgent(s, j, q) || HeldByScheduler(s, j, q) else OnItsWay(s, j, q) {
    }
    forall j | InStatus(s.db, j, Assigned) && s.db.jobs[j].runnerId == Some(r)
      ensures OnItsWay(t, j, r) <==> (j in Box(s, r) ==> HeldByAgent(s, j, r) || HeldByScheduler(s, j, r))
    {
      assert OnItsWay(s, j, r);
    }
    if NothingInLimbo(t) {
      assert forall j :: InStatus(s.db, j, Assigned) ==> InStatus(t.db, j, Assigned);
    }
  }

  /** A start request that fails, a transient error of the ownership check included, strands
      its job exactly when the job is still ASSIGNED to that runner and has no further entry. */
  lemma StartFailureStrandsExactly(s: State, r: RunnerId)
    requires Inv(s) && AgentOf(s, r).Starting?
    ensures NothingInLimbo(Next(s, Agent(r, StartFails))) <==>
      var j := AgentOf(s, r).job;
      InStatus(s.db, j, Assigned) && s.db.jobs[j].runnerId == Some(r) ==> InMailbox(s, j, r) || HeldByScheduler(s, j, r)
  {
    var t, j := Next(s, Agent(r, StartFails)), AgentOf(s, r).job;
    assert t == s.(agents := s.agents[r := Polling]);
    forall k, q | k != j || q != r ensures OnItsWay(s, k, q) == OnItsWay(t, k, q) {
    }
    assert OnItsWay(t, j, r) <==> InMailbox(s, j, r) || HeldByScheduler(s, j, r);
  }

  /** A failing undo strands its job exactly when the job is still ASSIGNED and reached
      neither the mailbox nor the agent of its runner. */
  lemma UndoFailureStrandsExactly(s: State)
    requires Inv(s) && UndoPending(s)
    ensures NothingInLimbo(Next(s, Sched(UndoFails))) <==>
      var j := s.sched.job;
      InStatus(s.db, j, Assigned) ==>
        InMailbox(s, j, s.db.jobs[j].runnerId.value) || HeldByAgent(s, j, s.db.jobs[j].runnerId.value)
  {
    var t := Next(s, Sched(UndoFails));
    forall j, r ensures OnItsWay(t, j, r) == (InMailbox(s, j, r) || HeldByAgent(s, j, r)) {
    }
    if NothingInLimbo(t) && InStatus(s.db, s.sched.job, Assigned) {
      assert InStatus(t.db, s.sched.job, Assigned);
    }
  }

  /** A crash strands a job exactly when the scheduler still holds an ASSIGNED job that
      reached neither the mailbox nor the agent of its runner. */
  lemma CrashStrandsExactly(s: State)
    requires Inv(s)
    ensures NothingInLimbo(Next(s, Crash)) <==>
      forall j :: InStatus(s.db, j, Assigned) && HeldByScheduler(s, j, s.db.jobs[j].runnerId.value) ==>
        InMailbox(s, j, s.db.jobs[j].runnerId.value) || HeldByAgent(s, j, s.db.jobs[j].runnerId.value)
  {
    var t := Next(s, Crash);
    forall j, r ensures OnItsWay(t, j, r) == (InMailbox(s, j, r) || HeldByAgent(s, j, r)) {
    }
    if NothingInLimbo(t) {
      forall j | InStatus(s.db, j, Assigned)
        ensures InMailbox(s, j, s.db.jobs[j].runnerId.value) || HeldByAgent(s, j, s.db.jobs[j].runnerId.value)
      {
        assert InStatus(t.db, j, Assigned);
      }
    }
  }
}
