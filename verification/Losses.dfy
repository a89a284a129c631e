/** Where the hypotheses of NoLoss are needed: each excluded fault with the exact condition
    under which it loses a job, and the proof that a lost job is never picked up again. Races
    has concrete runs that lose one. */
module Losses {
  import opened Models
  import opened Sql
  import opened Calls
  import opened Lists
  import opened Cluster
  import Tables
  import opened NoLoss
  import Fresh

  // ---------- exact conditions ----------

  /** Point i of a run in which no excluded fault has happened so far. */
  ghost predicate Reached(ss: seq<State>, actions: seq<Action>, i: nat) {
    && IsRun(ss, actions) && i < |ss|
    && forall k {:trigger actions[k]} :: 0 <= k < i ==> Benign(ss[k], actions[k])
  }

  lemma ReachedInv(ss: seq<State>, actions: seq<Action>, i: nat)
    requires Reached(ss, actions, i)
    ensures Inv(ss[i]) && Fresh.Inv(ss[i])
  {
    InvHolds(ss, actions, i);
    Fresh.OwedIdsAreFresh(ss, actions, i);
  }

  /** What scheduler and reaper know, no webhook owes. */
  lemma KnownNotOwed(s: State, j: JobId)
    requires Fresh.Inv(s) && (SchedulerOwes(s, j) || ReaperOwes(s, j))
    ensures !WebhookOwes(s, j)
  {
    assert Fresh.Known(s, j);
  }

  /** A crash loses a job exactly when it falls between the two halves of a push of a
      QUEUED job that neither list holds. */
  lemma CrashLosesExactly(ss: seq<State>, actions: seq<Action>, i: nat)
    requires Reached(ss, actions, i)
    ensures NothingLost(Next(ss[i], Crash)) <==>
      forall j :: InStatus(ss[i].db, j, Queued) && (SchedulerOwes(ss[i], j) || ReaperOwes(ss[i], j)) ==>
        j in ss[i].pending || j in ss[i].inflight
  {
    ReachedInv(ss, actions, i);
    var s, t := ss[i], Next(ss[i], Crash);
    assert forall j :: WebhookOwes(s, j) == WebhookOwes(t, j);
    assert forall j :: Covered(t, j) <==> j in s.pending || j in s.inflight || WebhookOwes(s, j);
    forall j | SchedulerOwes(s, j) || ReaperOwes(s, j) ensures !WebhookOwes(s, j) {
      KnownNotOwed(s, j);
    }
  }

  // ---------- a failing GetJob ----------

  /** The state with the scheduler still about to requeue the id that it will drop. */
  function Masked(s: State): State {
    if s.sched.Acking? then s.(sched := Removing(s.sched.job)) else s
  }

  lemma MaskedInv(s: State)
    requires Inv(s)
    ensures Inv(Masked(s))
  {
    if s.sched.Acking? {
      MovingOnKeeps(s, Masked(s));
    }
  }

  lemma MaskedLoadFails(s: State)
    requires Inv(s)
    ensures Inv(Masked(Next(s, Sched(LoadFails))))
  {
    if s.sched.Loading? {
      MovingOnKeeps(s, s.(sched := Removing(s.sched.job)));
    } else {
      MaskedInv(s);
    }
  }

  /** Nobody else looks at what the scheduler is doing. */
  lemma HandlersIgnoreSched(s: State, a: ApiAction, pc: SchedPc)
    ensures ApiNext(s.(sched := pc), a) == ApiNext(s, a).(sched := pc)
  {
  }

  lemma AgentsIgnoreSched(s: State, r: RunnerId, a: AgentAction, pc: SchedPc)
    ensures AgentNext(s.(sched := pc), r, a) == AgentNext(s, r, a).(sched := pc)
  {
    var u := s.(sched := pc);
    assert AgentOf(u, r) == AgentOf(s, r) && Box(u, r) == Box(s, r);
  }

  lemma RequeueIgnoresSched(s: State, call: Call, todo: seq<JobId>, pc: SchedPc)
    ensures RequeueNext(s.(sched := pc), call, todo) == RequeueNext(s, call, todo).(sched := pc)
    ensures RequeueNext(s, call, todo).sched == s.sched
  {
  }

  lemma ReaperIgnoresSched(s: State, a: ReaperAction, pc: SchedPc)
    ensures ReaperNext(s.(sched := pc), a) == ReaperNext(s, a).(sched := pc) && ReaperNext(s, a).sched == s.sched
  {
    if a.RequeueStep? && s.reaper.Requeueing? {
      RequeueIgnoresSched(s, s.reaper.call, s.reaper.todo, pc);
    }
  }

  lemma OthersIgnoreSched(s: State, a: Action, pc: SchedPc)
    requires a.Api? || a.Agent? || a.Reaper?
    ensures Next(s.(sched := pc), a) == Next(s, a).(sched := pc)
    ensures Next(s, a).sched == s.sched
  {
    match a
    case Api(api) =>
      HandlersIgnoreSched(s, api, pc);
      HandlersKeepSched(s, api);
    case Agent(r, agent) =>
      AgentsIgnoreSched(s, r, agent, pc);
      AgentsKeepSched(s, r, agent);
    case Reaper(reaper) => ReaperIgnoresSched(s, reaper, pc);
  }

  lemma MaskedStep(s: State, a: Action)
    requires Inv(Masked(s)) && Benign(s, a) && a != Sched(Ack)
    ensures Inv(Masked(Next(s, a)))
  {
    var m := Masked(s);
    if !s.sched.Acking? {
      StepKeeps(s, a);
      MaskedInv(Next(s, a));
    } else if a.Sched? {
      MaskedSched(s, a.sched);
    } else {
      StepKeeps(m, a);
      if a != Crash {
        OthersIgnoreSched(s, a, m.sched);
      }
    }
  }

  lemma MaskedSched(s: State, a: SchedAction)
    requires s.sched.Acking? && Inv(Masked(s)) && !a.Ack?
    ensures Inv(Masked(Next(s, Sched(a))))
  {
    if a.RedisFails? {
      RedisFailsKeeps(Masked(s));
      assert Next(s, Sched(a)) == Next(Masked(s), Sched(a));
    } else {
      assert Next(s, Sched(a)) == s;
    }
  }

  /** From a failing GetJob at h on, nothing else has gone wrong and nothing has been acked. */
  ghost predicate ReachedAck(ss: seq<State>, actions: seq<Action>, h: nat, i: nat) {
    && Reached(ss, actions, h) && h < i < |ss| && actions[h] == Sched(LoadFails)
    && forall k {:trigger actions[k]} :: h < k < i ==> Benign(ss[k], actions[k]) && actions[k] != Sched(Ack)
  }

  lemma {:induction false} MaskedHolds(ss: seq<State>, actions: seq<Action>, h: nat, i: nat)
    requires ReachedAck(ss, actions, h, i)
    ensures Inv(Masked(ss[i]))
    decreases i
  {
    assert ss[i] == Next(ss[i - 1], actions[i - 1]);
    if i == h + 1 {
      InvHolds(ss, actions, h);
      MaskedLoadFails(ss[h]);
    } else {
      MaskedHolds(ss, actions, h, i - 1);
      MaskedStep(ss[i - 1], actions[i - 1]);
    }
  }

  lemma AckLosesExactly(s: State)
    requires Inv(Masked(s)) && Fresh.Inv(s) && s.sched.Acking?
    ensures NothingLost(Next(s, Sched(Ack))) <==>
      var j := s.sched.job;
      InStatus(s.db, j, Queued) ==> j in s.pending || j in RemoveFirst(s.inflight, j) || ReaperOwes(s, j)
  {
    var j, u := s.sched.job, Next(s, Sched(Ack));
    assert Fresh.Known(s, j);
    assert s.inflight == [j] + s.inflight[1..];
    assert u == s.(inflight := s.inflight[1..], sched := Ready);
    assert forall k :: WebhookOwes(s, k) == WebhookOwes(u, k);
    forall k | k != j && InStatus(s.db, k, Queued) ensures Covered(u, k) {
      assert Covered(Masked(s), k);
      assert WebhookOwes(s, k) == WebhookOwes(Masked(s), k);
    }
  }

  /** `assign` drops the id on any GetJob error. Wherever the acknowledgement comes, it loses
      the job exactly when the job is QUEUED then, neither list has another entry of it,
      and the reaper is not about to push it. */
  lemma LoadFailureLosesExactly(ss: seq<State>, actions: seq<Action>, h: nat, i: nat)
    requires ReachedAck(ss, actions, h, i) && ss[i].sched.Acking?
    ensures NothingLost(Next(ss[i], Sched(Ack))) <==>
      var j := ss[i].sched.job;
      InStatus(ss[i].db, j, Queued) ==> j in ss[i].pending || j in RemoveFirst(ss[i].inflight, j) || ReaperOwes(ss[i], j)
  {
    MaskedHolds(ss, actions, h, i);
    Fresh.OwedIdsAreFresh(ss, actions, i);
    AckLosesExactly(ss[i]);
  }

  // ---------- failing pushes ----------

  /** A failing LPUSH inside Requeue or Recover loses the job exactly when it is QUEUED,
      neither list holds it, and the reaper is not about to push it. */
  lemma PushFailureLosesExactly(ss: seq<State>, actions: seq<Action>, i: nat)
    requires Reached(ss, actions, i) && (ss[i].sched.Pushing? || ss[i].sched.RecoverPushing?)
    ensures NothingLost(Next(ss[i], Sched(RedisFails))) <==>
      var j := ss[i].sched.job;
      InStatus(ss[i].db, j, Queued) ==> j in ss[i].pending || j in ss[i].inflight || ReaperOwes(ss[i], j)
  {
    ReachedInv(ss, actions, i);
    var s, t := ss[i], Next(ss[i], Sched(RedisFails));
    KnownNotOwed(s, s.sched.job);
    assert t == s.(sched := Ready, reaper := t.reaper);
    assert forall j :: WebhookOwes(s, j) == WebhookOwes(t, j);
    assert forall j :: ReaperOwes(s, j) == ReaperOwes(t, j);
    assert forall j :: j != s.sched.job ==> Covered(s, j) == Covered(t, j);
  }

  /** The reaper gives up on an orphan after its RequeueJob has committed: the statement
      that releases the runner failed, or the push did. That loses the job exactly when it
      is still QUEUED, neither list holds it, and the scheduler does not owe it a push. */
  lemma OrphanFailureLosesExactly(ss: seq<State>, actions: seq<Action>, i: nat, j: JobId, a: ReaperAction)
    requires Reached(ss, actions, i) && ReaperOwes(ss[i], j)
    requires a == if ss[i].reaper.Enqueueing? then EnqueueOrphanFails else RequeueFails
    ensures NothingLost(Next(ss[i], Reaper(a))) <==>
      (InStatus(ss[i].db, j, Queued) ==> j in ss[i].pending || j in ss[i].inflight || SchedulerOwes(ss[i], j))
  {
    ReachedInv(ss, actions, i);
    var s, t := ss[i], Next(ss[i], Reaper(a));
    KnownNotOwed(s, j);
    assert t == s.(reaper := t.reaper) && t.reaper.Sweeping?;
    assert forall k :: WebhookOwes(s, k) == WebhookOwes(t, k);
    assert forall k :: k != j ==> Covered(s, k) == Covered(t, k);
  }

  /** After a failed Enqueue the webhook tries QUEUED -> FAILED, which the table refuses:
      the compensation never changes the row of a QUEUED job. */
  lemma CompensationRefused(s: State, w: nat, c: nat, now: int)
    requires w in s.webhooks && c !in s.calls && InStatus(s.db, s.webhooks[w], Queued)
    ensures
      var u := Next(Next(s, Api(EnqueueFails(w, c, now))), Api(CallStep(c)));
      u.db == s.db && u.calls[c].pc == Returned(Invalid) && w !in u.webhooks
  {
  }

  /** A failed Enqueue loses the job exactly when its row is still QUEUED: nobody else can
      know the id yet. */
  lemma EnqueueFailureLosesExactly(ss: seq<State>, actions: seq<Action>, i: nat, w: nat, c: nat, now: int)
    requires Reached(ss, actions, i) && w in ss[i].webhooks && c !in ss[i].calls
    ensures NothingLost(Next(ss[i], Api(EnqueueFails(w, c, now)))) <==> !InStatus(ss[i].db, ss[i].webhooks[w], Queued)
  {
    ReachedInv(ss, actions, i);
    var s, t, job := ss[i], Next(ss[i], Api(EnqueueFails(w, c, now))), ss[i].webhooks[w];
    assert t == s.(webhooks := s.webhooks - {w}, calls := t.calls);
    assert !Fresh.Known(s, job);
    assert !Covered(t, job);
    forall j | j != job && Covered(s, j) ensures Covered(t, j) {
      if v :| v in s.webhooks && s.webhooks[v] == j {
        assert v in t.webhooks && t.webhooks[v] == j;
      }
    }
  }

  // ---------- a lost job stays lost ----------

  ghost predicate Lost(s: State, j: JobId) {
    InStatus(s.db, j, Queued) && !Covered(s, j)
  }

  ghost predicate Shape(s: State) {
    AllChecked(s) && InflightFits(s) && ReaperFits(s) && RequeuersKnown(s)
  }

  /** A call that is under way cannot take a QUEUED job anywhere but to CANCELLED. */
  lemma AdvanceFromQueued(db: Db, c: Call, j: JobId)
    requires Checked(c) && InStatus(db, j, Queued)
    ensures InStatus(Advance(db, c).0, j, Queued) || InStatus(Advance(db, c).0, j, Cancelled)
    ensures c.change.Requeue? && c.job == j && !Committed(c) ==> !Committed(Advance(db, c).1)
  {
  }

  lemma ApiKeepsLost(s: State, a: ApiAction, j: JobId)
    requires Shape(s) && Lost(s, j)
    ensures Lost(Next(s, Api(a)), j) || InStatus(Next(s, Api(a)).db, j, Cancelled)
  {
    var t := Next(s, Api(a));
    if a.CallStep? && a.c in s.calls {
      AdvanceFromQueued(s.db, s.calls[a.c], j);
    }
    assert WebhookOwes(t, j) ==> WebhookOwes(s, j);
  }

  lemma AgentKeepsLost(s: State, r: RunnerId, a: AgentAction, j: JobId)
    requires Shape(s) && Lost(s, j)
    ensures Lost(Next(s, Agent(r, a)), j) || InStatus(Next(s, Agent(r, a)).db, j, Cancelled)
  {
    var t := Next(s, Agent(r, a));
    if AgentOf(s, r).Starting? {
      AdvanceFromQueued(s.db, AgentOf(s, r).call, j);
    }
    assert t == s.(db := t.db, mail := t.mail, agents := t.agents);
    assert WebhookOwes(t, j) ==> WebhookOwes(s, j);
  }

  lemma SchedShape(s: State, a: SchedAction)
    requires Shape(s)
    ensures InflightFits(Next(s, Sched(a))) && ReaperFits(Next(s, Sched(a))) && RequeuersKnown(Next(s, Sched(a)))
  {
    SchedFrame(s, a);
    SchedInflight(s, a);
    var t := SchedNext(s, a);
    if t.sched.Undoing? {
      SchedUndo(s, a);
    }
    if !a.RecoverStep? && !a.RedisFails? {
      SchedFrameReaper(s, a);
      if NotServing(t.sched) {
        SchedPhase(s, a);
      }
    }
  }

  lemma SchedInflight(s: State, a: SchedAction)
    requires InflightFits(s)
    ensures InflightFits(SchedNext(s, a))
  {
    if a.RecoverStep? && s.sched.Recovering? && s.sched.todo != [] {
      assert s.inflight == [s.sched.todo[0]] + s.sched.todo[1..];
    }
  }

  predicate NotServing(pc: SchedPc) {
    pc.Down? || pc.Recovering? || pc.RecoverPushing?
  }

  lemma SchedPhase(s: State, a: SchedAction)
    requires !a.RecoverStep? && NotServing(SchedNext(s, a).sched)
    ensures NotServing(s.sched)
  {
  }

  lemma SchedUndo(s: State, a: SchedAction)
    requires RequeuersKnown(s) && SchedNext(s, a).sched.Undoing?
    ensures var t := SchedNext(s, a).sched; t.call.change.Requeue? && t.call.job == t.job
  {
    UndoingFrom(s, a);
  }

  lemma RecoverPending(s: State, j: JobId)
    requires InflightFits(s) && j !in s.pending && j !in s.inflight && !SchedulerOwes(s, j)
    ensures var t := RecoverNext(s); j !in t.pending && j !in t.inflight && !SchedulerOwes(t, j)
  {
    if s.sched.Recovering? && s.sched.todo != [] {
      assert s.inflight == [s.sched.todo[0]] + s.sched.todo[1..];
    }
  }

  lemma SchedPending(s: State, a: SchedAction, j: JobId)
    requires InflightFits(s) && j !in s.pending && j !in s.inflight && !SchedulerOwes(s, j)
    ensures var t := SchedNext(s, a); j !in t.pending && j !in t.inflight && !SchedulerOwes(t, j)
  {
    if a.RecoverStep? {
      RecoverPending(s, j);
    }
  }

  lemma SchedLeavesQueued(s: State, a: SchedAction, j: JobId)
    requires Shape(s) && InStatus(s.db, j, Queued) && j !in s.inflight
    ensures InStatus(SchedNext(s, a).db, j, Queued) || InStatus(SchedNext(s, a).db, j, Cancelled)
  {
    if a.UndoStep? {
      if s.sched.Undoing? {
        AdvanceFromQueued(s.db, s.sched.call, j);
      }
    } else if !a.Commit? {
      SchedFrameDb(s, a);
    }
  }

  lemma SchedLeavesReaper(s: State, a: SchedAction, j: JobId)
    requires !ReaperOwes(s, j)
    ensures !ReaperOwes(SchedNext(s, a), j)
  {
    if !a.RecoverStep? && !a.RedisFails? {
      SchedFrameReaper(s, a);
    }
  }

  /** The scheduler never holds a lost job: its entry would be in `inflight`. */
  lemma SchedKeepsLost(s: State, a: SchedAction, j: JobId)
    requires Shape(s) && Lost(s, j)
    ensures Lost(Next(s, Sched(a)), j) || InStatus(Next(s, Sched(a)).db, j, Cancelled)
  {
    SchedFrame(s, a);
    SchedPending(s, a, j);
    SchedLeavesQueued(s, a, j);
    SchedLeavesReaper(s, a, j);
    var t := SchedNext(s, a);
    assert WebhookOwes(t, j) ==> WebhookOwes(s, j);
  }

  lemma RequeueKeepsLost(s: State, j: JobId)
    requires Shape(s) && Lost(s, j) && s.reaper.Requeueing?
    ensures Lost(Next(s, Reaper(RequeueStep)), j) || InStatus(Next(s, Reaper(RequeueStep)).db, j, Cancelled)
  {
    var t := RequeueNext(s, s.reaper.call, s.reaper.todo);
    AdvanceFromQueued(s.db, s.reaper.call, j);
    assert t == s.(db := t.db, reaper := t.reaper);
    assert WebhookOwes(t, j) ==> WebhookOwes(s, j);
  }

  lemma ReaperKeepsLost(s: State, a: ReaperAction, j: JobId)
    requires Shape(s) && Lost(s, j)
    ensures Lost(Next(s, Reaper(a)), j) || InStatus(Next(s, Reaper(a)).db, j, Cancelled)
  {
    if a.RequeueStep? {
      if s.reaper.Requeueing? {
        RequeueKeepsLost(s, j);
      }
    } else {
      var t := Next(s, Reaper(a));
      assert t == s.(db := t.db, reaper := t.reaper, pending := t.pending) && t.db.jobs == s.db.jobs;
      assert WebhookOwes(t, j) ==> WebhookOwes(s, j);
    }
  }

  lemma ApiShape(s: State, a: ApiAction)
    requires Shape(s)
    ensures InflightFits(Next(s, Api(a))) && ReaperFits(Next(s, Api(a))) && RequeuersKnown(Next(s, Api(a)))
  {
    var t := Next(s, Api(a));
    assert t == s.(db := t.db, pending := t.pending, webhooks := t.webhooks, calls := t.calls);
    CallsShape(s, a);
  }

  lemma CallsShape(s: State, a: ApiAction)
    requires Shape(s)
    ensures forall c :: c in ApiNext(s, a).calls ==>
      !ApiNext(s, a).calls[c].change.Requeue? && ApiNext(s, a).calls[c].change.Valid()
  {
  }

  lemma AgentShape(s: State, r: RunnerId, a: AgentAction)
    requires Shape(s)
    ensures var t := Next(s, Agent(r, a)); InflightFits(t) && ReaperFits(t) && RequeuersKnown(t)
  {
  }

  lemma ReaperShape(s: State, a: ReaperAction)
    requires Shape(s)
    ensures var t := Next(s, Reaper(a)); InflightFits(t) && ReaperFits(t) && RequeuersKnown(t)
  {
    var t := Next(s, Reaper(a));
    assert t == s.(db := t.db, reaper := t.reaper, pending := t.pending);
  }

  lemma ShapeStep(s: State, a: Action)
    requires Shape(s)
    ensures Shape(Next(s, a))
  {
    StepIsLegal(s, a);
    match a
    case Api(api) => ApiShape(s, api);
    case Agent(r, agent) => AgentShape(s, r, agent);
    case Sched(sched) => SchedShape(s, sched);
    case Reaper(reaper) => ReaperShape(s, reaper);
    case Crash =>
  }

  lemma {:induction false} ShapeHolds(ss: seq<State>, actions: seq<Action>, i: nat)
    requires IsRun(ss, actions) && i < |ss|
    ensures Shape(ss[i])
  {
    if i > 0 {
      ShapeHolds(ss, actions, i - 1);
      assert ss[i] == Next(ss[i - 1], actions[i - 1]);
      ShapeStep(ss[i - 1], actions[i - 1]);
    }
  }

  lemma StepKeepsLost(s: State, a: Action, j: JobId)
    requires Shape(s) && Lost(s, j)
    ensures Lost(Next(s, a), j) || InStatus(Next(s, a).db, j, Cancelled)
  {
    match a
    case Api(api) => ApiKeepsLost(s, api, j);
    case Agent(r, agent) => AgentKeepsLost(s, r, agent, j);
    case Sched(sched) => SchedKeepsLost(s, sched, j);
    case Reaper(reaper) => ReaperKeepsLost(s, reaper, j);
    case Crash =>
      assert WebhookOwes(Next(s, Crash), j) ==> WebhookOwes(s, j);
  }

  lemma CancelledStays(s: State, a: Action, j: JobId)
    requires AllChecked(s) && InStatus(s.db, j, Cancelled)
    ensures InStatus(Next(s, a).db, j, Cancelled)
  {
    StepIsLegal(s, a);
    var st := StatementAt(s, a);
    assert st.Some? ==> Tables.Legal(st.value) && Next(s, a).db == Tables.Execute(s.db, st.value);
    Tables.StepEvolves(s.db, Next(s, a).db);
  }

  ghost predicate Unreachable(s: State, j: JobId) {
    Lost(s, j) || InStatus(s.db, j, Cancelled)
  }

  lemma UnreachableStep(s: State, a: Action, j: JobId)
    requires Shape(s) && Unreachable(s, j)
    ensures Unreachable(Next(s, a), j)
  {
    if Lost(s, j) {
      StepKeepsLost(s, a, j);
    } else {
      CancelledStays(s, a, j);
    }
  }

  lemma UnreachableAt(ss: seq<State>, actions: seq<Action>, m: nat, j: JobId)
    requires IsRun(ss, actions) && m + 1 < |ss| && Unreachable(ss[m], j)
    ensures Unreachable(ss[m + 1], j)
  {
    ShapeHolds(ss, actions, m);
    UnreachableStep(ss[m], actions[m], j);
  }

  lemma {:induction false} UnreachableForGood(ss: seq<State>, actions: seq<Action>, i: nat, k: nat, j: JobId)
    requires IsRun(ss, actions) && i <= k < |ss| && Unreachable(ss[i], j)
    ensures Unreachable(ss[k], j)
    decreases k
  {
    if i < k {
      UnreachableForGood(ss, actions, i, k - 1, j);
      UnreachableAt(ss, actions, k - 1, j);
    }
  }

  /** Whatever happens later, restarts and Recover included, a lost job stays QUEUED and
      out of every process's reach until somebody cancels it. */
  lemma LostForGood(ss: seq<State>, actions: seq<Action>, i: nat, k: nat, j: JobId)
    requires IsRun(ss, actions) && i <= k < |ss|
    requires Lost(ss[i], j)
    ensures Lost(ss[k], j) || InStatus(ss[k].db, j, Cancelled)
  {
    UnreachableForGood(ss, actions, i, k, j);
  }
}
