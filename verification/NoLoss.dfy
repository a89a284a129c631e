/** No QUEUED job is lost (internal/scheduler/service.go:28-157, internal/queue/redis.go:39-76,
    internal/api/webhook.go:62-81). */
module NoLoss {
  import opened Models
  import opened Sql
  import opened Calls
  import opened Lists
  import opened Cluster

  ghost predicate WebhookOwes(s: State, j: JobId) {
    exists w :: w in s.webhooks && s.webhooks[w] == j
  }

  ghost predicate ReaperOwes(s: State, j: JobId) {
    || (s.reaper.Requeueing? && s.reaper.call.pc.AtRelease? && s.reaper.call.job == j)
    || (s.reaper.Enqueueing? && s.reaper.job == j)
  }

  ghost predicate SchedulerOwes(s: State, j: JobId) {
    (s.sched.Pushing? || s.sched.RecoverPushing?) && s.sched.job == j
  }

  /** Some trace of j survives whatever the scheduler does with its in-flight entry. */
  ghost predicate CoveredElsewhere(s: State, j: JobId) {
    j in s.pending || WebhookOwes(s, j) || ReaperOwes(s, j)
  }

  /** j is in a queue list, or a named process still has to push it. */
  ghost predicate Covered(s: State, j: JobId) {
    CoveredElsewhere(s, j) || j in s.inflight || SchedulerOwes(s, j)
  }

  ghost predicate NothingLost(s: State) {
    forall j :: InStatus(s.db, j, Queued) ==> Covered(s, j)
  }

  // ---------- the inductive invariant ----------

  /** With one scheduler the id it works on is the newest in-flight entry. The older ones
      are left over from failed commands and wait for the next Recover. */
  ghost predicate InflightFits(s: State) {
    match s.sched
    case Down => true
    case Recovering(todo) => s.inflight == todo
    case RecoverPushing(_, todo) => s.inflight == todo
    case Ready => true
    case Pushing(_) => true
    case _ => s.inflight != [] && s.inflight[0] == s.sched.job
  }

  /** The reaper is started after recovery, and dies with the process. */
  ghost predicate ReaperFits(s: State) {
    s.sched.Down? || s.sched.Recovering? || s.sched.RecoverPushing? ==> s.reaper.Off?
  }

  /** Only the reaper and the undo path of the scheduler requeue jobs. */
  ghost predicate RequeuersKnown(s: State) {
    && (forall c :: c in s.calls ==> !s.calls[c].change.Requeue? && s.calls[c].change.Valid())
    && (forall r :: r in s.agents && s.agents[r].Starting? ==> s.agents[r].call.change.Start?)
    && (s.sched.Undoing? ==> s.sched.call.change.Requeue? && s.sched.call.job == s.sched.job)
    && (s.reaper.Requeueing? ==> s.reaper.call.change.Requeue? && !s.reaper.call.pc.Returned? && !s.reaper.call.pc.AtCheck?)
  }

  /** From here the scheduler will drop its entry without pushing it back. */
  ghost predicate WillDrop(s: State, j: JobId) {
    (s.sched.Dispatching? || s.sched.Acking?) && s.sched.job == j
  }

  ghost predicate Inv(s: State) {
    && InflightFits(s)
    && ReaperFits(s)
    && RequeuersKnown(s)
    && NothingLost(s)
    && forall j :: InStatus(s.db, j, Queued) && WillDrop(s, j) ==> CoveredElsewhere(s, j)
  }

  // ---------- hypotheses ----------

  /** A crash of the scheduler process does not fall into the LREM/LPUSH gap of Requeue,
      nor between the reaper's RequeueJob and its Enqueue. */
  ghost predicate CrashOutsideGaps(s: State) {
    !s.sched.Pushing? && !s.sched.RecoverPushing? && !s.reaper.Enqueueing?
    && !(s.reaper.Requeueing? && s.reaper.call.pc.AtRelease?)
  }

  /** Every LPUSH on `pending`, the scheduler's GetJob and the last statement of the reaper's
      RequeueJob succeed, and crashes avoid the gaps. Dispatch may fail in either of its two
      ways, and so may AssignJob, Ack, Recover and any other statement of RequeueJob. */
  ghost predicate Benign(s: State, a: Action) {
    && !(a.Api? && a.api.EnqueueFails?)
    && a != Sched(LoadFails)
    && a != Reaper(EnqueueOrphanFails)
    && (a == Sched(RedisFails) ==> !s.sched.Pushing? && !s.sched.RecoverPushing?)
    && (a == Reaper(RequeueFails) ==> !(s.reaper.Requeueing? && s.reaper.call.pc.AtRelease?))
    && (a == Crash ==> CrashOutsideGaps(s))
  }

  // ---------- preservation ----------

  lemma AdvanceQueues(db: Db, c: Call, j: JobId)
    requires c.change.Valid()
    ensures InStatus(Advance(db, c).0, j, Queued) && !InStatus(db, j, Queued) ==>
      c.change.Requeue? && c.job == j && c.pc.AtWrite? && Committed(Advance(db, c).1)
  {
  }

  lemma CallStepKeeps(s: State, c: nat)
    requires Inv(s) && c in s.calls
    ensures Inv(Next(s, Api(CallStep(c))))
  {
    var t := Next(s, Api(CallStep(c)));
    assert t == s.(db := t.db, calls := t.calls);
    forall j | InStatus(t.db, j, Queued) ensures InStatus(s.db, j, Queued) {
      AdvanceQueues(s.db, s.calls[c], j);
    }
    assert forall j :: CoveredElsewhere(s, j) == CoveredElsewhere(t, j);
  }

  lemma WebhookKeeps(s: State, a: ApiAction, j: JobId)
    requires Inv(s) && !a.EnqueueFails? && !a.CallStep?
    requires InStatus(Next(s, Api(a)).db, j, Queued)
    ensures CoveredElsewhere(s, j) ==> CoveredElsewhere(Next(s, Api(a)), j)
    ensures InStatus(s.db, j, Queued) || CoveredElsewhere(Next(s, Api(a)), j)
  {
    var t := Next(s, Api(a));
    if a.Create? && t != s {
      assert t.webhooks[a.w] == a.job;
    }
    if w :| w in s.webhooks && s.webhooks[w] == j {
      assert (a.Enqueue? && a.w == w) || (w in t.webhooks && t.webhooks[w] == j);
    }
  }

  lemma ApiKeeps(s: State, a: ApiAction)
    requires Inv(s) && !a.EnqueueFails?
    ensures Inv(Next(s, Api(a)))
  {
    if a.CallStep? {
      if a.c in s.calls {
        CallStepKeeps(s, a.c);
      }
    } else {
      var t := Next(s, Api(a));
      assert t == s.(db := t.db, pending := t.pending, webhooks := t.webhooks, calls := t.calls);
      forall j | InStatus(t.db, j, Queued)
        ensures CoveredElsewhere(s, j) ==> CoveredElsewhere(t, j)
        ensures InStatus(s.db, j, Queued) || CoveredElsewhere(t, j)
      {
        WebhookKeeps(s, a, j);
      }
    }
  }

  lemma AgentKeeps(s: State, r: RunnerId, a: AgentAction)
    requires Inv(s)
    ensures Inv(Next(s, Agent(r, a)))
  {
    var t := Next(s, Agent(r, a));
    assert t == s.(db := t.db, mail := t.mail, agents := t.agents);
    forall j | InStatus(t.db, j, Queued) ensures InStatus(s.db, j, Queued) {
      if a.StartStep? && AgentOf(s, r).Starting? {
        AdvanceQueues(s.db, AgentOf(s, r).call, j);
      }
    }
    assert forall j :: CoveredElsewhere(s, j) ==> CoveredElsewhere(t, j);
  }

  lemma RecoverRemoveKeeps(s: State)
    requires Inv(s) && s.sched.Recovering? && s.sched.todo != []
    ensures Inv(RecoverNext(s))
  {
    var t, todo := RecoverNext(s), s.sched.todo;
    assert s.inflight == [todo[0]] + todo[1..];
    assert t == s.(inflight := todo[1..], sched := RecoverPushing(todo[0], todo[1..]));
    forall j | Covered(s, j) ensures Covered(t, j) {
      assert WebhookOwes(s, j) == WebhookOwes(t, j);
    }
  }

  lemma RecoverPushKeeps(s: State)
    requires Inv(s) && s.sched.RecoverPushing?
    ensures Inv(RecoverNext(s))
  {
    var t := RecoverNext(s);
    assert t == s.(pending := [s.sched.job] + s.pending, sched := Recovering(s.sched.todo));
    forall j | Covered(s, j) ensures Covered(t, j) {
      assert WebhookOwes(s, j) == WebhookOwes(t, j);
    }
  }

  lemma RecoveredKeeps(s: State)
    requires Inv(s) && s.sched.Recovering? && s.sched.todo == []
    ensures Inv(RecoverNext(s))
  {
    var t := RecoverNext(s);
    assert t == s.(sched := Ready, reaper := Waiting);
    forall j | Covered(s, j) ensures Covered(t, j) {
      assert WebhookOwes(s, j) == WebhookOwes(t, j);
    }
  }

  lemma RecoveryKeeps(s: State)
    requires Inv(s)
    ensures Inv(Next(s, Sched(RecoverStep)))
  {
    if s.sched.RecoverPushing? {
      RecoverPushKeeps(s);
    } else if s.sched.Recovering? {
      if s.sched.todo != [] {
        RecoverRemoveKeeps(s);
      } else {
        RecoveredKeeps(s);
      }
    }
  }

  lemma DequeueKeeps(s: State)
    requires Inv(s)
    ensures Inv(Next(s, Sched(Dequeue)))
  {
    if s.sched.Ready? && s.pending != [] {
      var n := |s.pending| - 1;
      var t, job := DequeueNext(s), s.pending[n];
      assert s.pending == s.pending[..n] + [job];
      assert t == s.(pending := s.pending[..n], inflight := [job] + s.inflight, sched := Loading(job));
      forall j | InStatus(s.db, j, Queued) ensures Covered(t, j) {
        assert Covered(s, j);
        assert WebhookOwes(s, j) == WebhookOwes(t, j);
      }
    }
  }

  lemma UndoKeeps(s: State)
    requires Inv(s)
    ensures Inv(Next(s, Sched(UndoStep)))
  {
    if s.sched.Undoing? {
      var t := Next(s, Sched(UndoStep));
      assert t.webhooks == s.webhooks && t.pending == s.pending && t.inflight == s.inflight;
      forall j | InStatus(t.db, j, Queued) ensures Covered(t, j) {
        AdvanceQueues(s.db, s.sched.call, j);
      }
    }
  }

  lemma MovingOnKeeps(s: State, t: State)
    requires Inv(s) && t == s.(sched := t.sched)
    requires !s.sched.Pushing? && !s.sched.RecoverPushing?
    requires InflightFits(t) && ReaperFits(t) && !t.sched.Undoing?
    requires forall j :: InStatus(s.db, j, Queued) && WillDrop(t, j) ==> CoveredElsewhere(s, j)
    ensures Inv(t)
  {
    assert forall j :: CoveredElsewhere(s, j) == CoveredElsewhere(t, j);
  }

  lemma CommitKeeps(s: State, now: int)
    requires Inv(s) && s.sched.Committing?
    ensures Inv(Next(s, Sched(Commit(now))))
  {
    var t := Next(s, Sched(Commit(now)));
    if t.sched.Removing? {
      MovingOnKeeps(s, t);
    } else {
      assert t == s.(db := t.db, sched := t.sched);
      forall j | InStatus(t.db, j, Queued) ensures InStatus(s.db, j, Queued) && j != s.sched.job {
      }
      forall j | Covered(s, j) ensures Covered(t, j) {
        assert CoveredElsewhere(s, j) ==> CoveredElsewhere(t, j);
      }
    }
  }

  lemma DispatchKeeps(s: State, a: SchedAction)
    requires Inv(s) && s.sched.Dispatching? && (a.Dispatch? || a.DispatchFails?)
    ensures Inv(Next(s, Sched(a)))
  {
    var t := Next(s, Sched(a));
    assert t == s.(mail := t.mail, sched := t.sched);
    assert forall j :: CoveredElsewhere(s, j) == CoveredElsewhere(t, j);
  }

  /** LREM of an entry that is covered elsewhere, or owed a push from now on. */
  lemma RemoveKeeps(s: State, a: SchedAction)
    requires Inv(s) && ((s.sched.Acking? && a.Ack?) || (s.sched.Removing? && a.Remove?))
    ensures Inv(Next(s, Sched(a)))
  {
    var t, job := Next(s, Sched(a)), s.sched.job;
    assert s.inflight == [job] + s.inflight[1..];
    assert t == s.(inflight := s.inflight[1..], sched := t.sched);
    assert forall j :: CoveredElsewhere(s, j) == CoveredElsewhere(t, j);
    assert forall j :: j in s.inflight ==> j == job || j in t.inflight;
    assert a.Ack? && InStatus(s.db, job, Queued) ==> WillDrop(s, job);
  }

  lemma PushKeeps(s: State)
    requires Inv(s) && s.sched.Pushing?
    ensures Inv(Next(s, Sched(Push)))
  {
    var t := Next(s, Sched(Push));
    assert t == s.(pending := [s.sched.job] + s.pending, sched := Ready);
    assert forall j :: Covered(s, j) ==> Covered(t, j);
  }

  lemma RedisFailsKeeps(s: State)
    requires Inv(s) && !s.sched.Pushing? && !s.sched.RecoverPushing?
    ensures Inv(Next(s, Sched(RedisFails)))
  {
    var t := RedisFailsNext(s);
    assert t == s.(sched := t.sched, reaper := t.reaper);
    forall j | Covered(s, j) ensures Covered(t, j) {
      assert WebhookOwes(s, j) == WebhookOwes(t, j);
    }
  }

  /** The steps that only move the program counter. */
  lemma MovingKeeps(s: State, a: SchedAction)
    requires Inv(s)
    requires a.Boot? || a.Load? || a.Choose? || a.ReadJob? || a.AssignFails? || a.UndoFails?
    ensures Inv(Next(s, Sched(a)))
  {
    var t := Next(s, Sched(a));
    if t != s {
      assert t == s.(sched := t.sched);
      MovingOnKeeps(s, t);
    }
  }

  lemma SchedKeeps(s: State, a: SchedAction)
    requires Inv(s) && Benign(s, Sched(a))
    ensures Inv(Next(s, Sched(a)))
  {
    match a
    case RecoverStep => RecoveryKeeps(s);
    case Dequeue => DequeueKeeps(s);
    case Commit(now) => if s.sched.Committing? { CommitKeeps(s, now); }
    case Dispatch => if s.sched.Dispatching? { DispatchKeeps(s, a); }
    case DispatchFails(_) => if s.sched.Dispatching? { DispatchKeeps(s, a); }
    case UndoStep => UndoKeeps(s);
    case Ack => if s.sched.Acking? { RemoveKeeps(s, a); }
    case Remove => if s.sched.Removing? { RemoveKeeps(s, a); }
    case Push => if s.sched.Pushing? { PushKeeps(s); }
    case RedisFails => RedisFailsKeeps(s);
    case _ => MovingKeeps(s, a);
  }

  lemma RequeueStepKeeps(s: State)
    requires Inv(s)
    ensures Inv(Next(s, Reaper(RequeueStep)))
  {
    var t := Next(s, Reaper(RequeueStep));
    if s.reaper.Requeueing? {
      assert t == s.(db := t.db, reaper := t.reaper);
      forall j | InStatus(t.db, j, Queued)
        ensures CoveredElsewhere(s, j) ==> CoveredElsewhere(t, j)
        ensures InStatus(s.db, j, Queued) || CoveredElsewhere(t, j)
      {
        AdvanceQueues(s.db, s.reaper.call, j);
      }
    }
  }

  lemma ReapKeeps(s: State, cutoff: int, order: seq<RunnerId>)
    requires Inv(s)
    ensures Inv(Next(s, Reaper(Reap(cutoff, order))))
  {
    var t := Next(s, Reaper(Reap(cutoff, order)));
    if t != s {
      assert t == s.(db := t.db, reaper := t.reaper) && t.db.jobs == s.db.jobs;
      forall j | InStatus(t.db, j, Queued)
        ensures InStatus(s.db, j, Queued) && CoveredElsewhere(s, j) == CoveredElsewhere(t, j) && Covered(t, j)
      {
        assert InStatus(s.db, j, Queued) && Covered(s, j);
        assert WebhookOwes(s, j) == WebhookOwes(t, j);
      }
    }
  }

  lemma ReaperKeeps(s: State, a: ReaperAction)
    requires Inv(s) && Benign(s, Reaper(a))
    ensures Inv(Next(s, Reaper(a)))
  {
    if a.RequeueStep? {
      RequeueStepKeeps(s);
    } else if a.Reap? {
      ReapKeeps(s, a.cutoff, a.order);
    } else {
      var t := Next(s, Reaper(a));
      assert t == s.(reaper := t.reaper, pending := t.pending);
      forall j | InStatus(t.db, j, Queued)
        ensures InStatus(s.db, j, Queued) && (CoveredElsewhere(s, j) ==> CoveredElsewhere(t, j))
      {
        assert InStatus(s.db, j, Queued);
        assert WebhookOwes(s, j) == WebhookOwes(t, j);
      }
    }
  }

  lemma StepKeeps(s: State, a: Action)
    requires Inv(s) && Benign(s, a)
    ensures Inv(Next(s, a))
  {
    match a
    case Api(api) => ApiKeeps(s, api);
    case Agent(r, agent) => AgentKeeps(s, r, agent);
    case Sched(sched) => SchedKeeps(s, sched);
    case Reaper(reaper) => ReaperKeeps(s, reaper);
    case Crash =>
  }

  lemma {:induction false} InvHolds(ss: seq<State>, actions: seq<Action>, i: nat)
    requires IsRun(ss, actions) && i < |ss|
    requires forall k {:trigger actions[k]} :: 0 <= k < i ==> Benign(ss[k], actions[k])
    ensures Inv(ss[i])
  {
    if i > 0 {
      InvHolds(ss, actions, i - 1);
      assert ss[i] == Next(ss[i - 1], actions[i - 1]);
      StepKeeps(ss[i - 1], actions[i - 1]);
    }
  }

  /** In every interleaving of webhooks, handlers, agents, scheduler and reaper, with any
      number of scheduler crashes and restarts outside the two gaps, every QUEUED job is
      in `pending`, in `inflight`, or owed a push by a named process. */
  lemma NoQueuedJobLost(ss: seq<State>, actions: seq<Action>, i: nat)
    requires IsRun(ss, actions) && i < |ss|
    requires forall k {:trigger actions[k]} :: 0 <= k < i ==> Benign(ss[k], actions[k])
    ensures NothingLost(ss[i])
  {
    InvHolds(ss, actions, i);
  }
}
