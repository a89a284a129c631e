/** The id of a job whose webhook has yet to push it is known to nobody else
    (internal/api/webhook.go:47-81): it is a fresh UUID. */
module Fresh {
  import opened Models
  import opened Sql
  import opened Calls
  import opened Lists
  import opened Cluster
  import Tables

  // ---------- who knows an id ----------

  predicate SchedulerKnows(pc: SchedPc, j: JobId) {
    match pc
    case Down => false
    case Ready => false
    case Recovering(todo) => j in todo
    case RecoverPushing(job, todo) => j == job || j in todo
    case _ => j == pc.job
  }

  predicate ReaperKnows(pc: ReaperPc, j: JobId) {
    match pc
    case Sweeping(todo) => j in todo
    case Requeueing(call, todo) => j == call.job || j in todo
    case Enqueueing(job, todo) => j == job || j in todo
    case _ => false
  }

  ghost predicate RunnersKnow(db: Db, j: JobId) {
    exists r :: r in db.runners && db.runners[r].currentJob == Some(j)
  }

  /** The empty id stands for a runner that held nothing. */
  ghost predicate Known(s: State, j: JobId) {
    || j == "" || j in s.pending || j in s.inflight
    || SchedulerKnows(s.sched, j) || ReaperKnows(s.reaper, j) || RunnersKnow(s.db, j)
  }

  ghost predicate OwedIsUnknown(s: State) {
    forall w :: w in s.webhooks ==> s.webhooks[w] in s.db.jobs && !Known(s, s.webhooks[w])
  }

  ghost predicate OwedOnce(s: State) {
    forall v, w :: v in s.webhooks && w in s.webhooks && s.webhooks[v] == s.webhooks[w] ==> v == w
  }

  ghost predicate KnownExist(s: State) {
    forall j :: Known(s, j) ==> j == "" || j in s.db.jobs
  }

  ghost predicate Inv(s: State) {
    AllChecked(s) && OwedIsUnknown(s) && OwedOnce(s) && KnownExist(s)
  }

  // ---------- steps spread no id but the one a webhook pushes ----------

  /** Only an assignment makes a runner row name a job. */
  lemma StatementSpreads(db: Db, st: Tables.Statement, j: JobId)
    requires RunnersKnow(Tables.Execute(db, st), j)
    ensures RunnersKnow(db, j) || (st.Assign? && st.id == j)
  {
    var after := Tables.Execute(db, st);
    var r :| r in after.runners && after.runners[r].currentJob == Some(j);
  }

  lemma RunnersSpread(s: State, a: Action, j: JobId)
    requires AllChecked(s) && RunnersKnow(Next(s, a).db, j)
    ensures Known(s, j)
  {
    StepIsLegal(s, a);
    var st := StatementAt(s, a);
    if st.Some? {
      StatementSpreads(s.db, st.value, j);
    }
  }

  lemma {:induction false} RemoveFirstSpreads(ids: seq<JobId>, x: JobId, j: JobId)
    requires j in RemoveFirst(ids, x)
    ensures j in ids
  {
    if ids[0] != x && j != ids[0] {
      RemoveFirstSpreads(ids[1..], x, j);
    }
  }

  lemma RecoverySpreads(s: State, j: JobId)
    requires SchedulerKnows(RecoverNext(s).sched, j)
    ensures SchedulerKnows(s.sched, j)
  {
  }

  lemma SchedulerSpreads(s: State, a: SchedAction, j: JobId)
    requires SchedulerKnows(SchedNext(s, a).sched, j)
    ensures j in s.pending || j in s.inflight || SchedulerKnows(s.sched, j)
  {
    if a.RecoverStep? {
      RecoverySpreads(s, j);
    }
  }

  lemma RecoveryListsSpread(s: State, j: JobId)
    requires j in RecoverNext(s).pending || j in RecoverNext(s).inflight
    ensures j in s.pending || j in s.inflight || SchedulerKnows(s.sched, j)
  {
    if s.sched.Recovering? && s.sched.todo != [] && j in RemoveFirst(s.inflight, s.sched.todo[0]) {
      RemoveFirstSpreads(s.inflight, s.sched.todo[0], j);
    }
  }

  lemma SchedulerListsSpread(s: State, a: SchedAction, j: JobId)
    requires j in SchedNext(s, a).pending || j in SchedNext(s, a).inflight
    ensures j in s.pending || j in s.inflight || SchedulerKnows(s.sched, j)
  {
    if a.RecoverStep? {
      RecoveryListsSpread(s, j);
    } else if (a.Ack? || a.Remove?) && SchedNext(s, a) != s && j !in SchedNext(s, a).pending {
      RemoveFirstSpreads(s.inflight, s.sched.job, j);
    }
  }

  lemma SchedSpreads(s: State, a: SchedAction, j: JobId)
    requires AllChecked(s) && Known(Next(s, Sched(a)), j)
    ensures Known(s, j)
  {
    var t := SchedNext(s, a);
    if RunnersKnow(t.db, j) {
      RunnersSpread(s, Sched(a), j);
    } else if SchedulerKnows(t.sched, j) {
      SchedulerSpreads(s, a, j);
    } else if j in t.pending || j in t.inflight {
      SchedulerListsSpread(s, a, j);
    } else if !a.RecoverStep? && !a.RedisFails? {
      SchedFrameReaper(s, a);
    }
  }

  lemma OrphansSpread(db: Db, order: seq<RunnerId>, j: JobId)
    requires j in Orphans(db, order)
    ensures j == "" || RunnersKnow(db, j)
  {
    var i :| 0 <= i < |order| && Orphans(db, order)[i] == j;
    if order[i] in db.runners && db.runners[order[i]].currentJob == Some(j) {
      assert RunnersKnow(db, j);
    }
  }

  lemma ReaperSpreads(s: State, a: ReaperAction, j: JobId)
    requires AllChecked(s) && Known(Next(s, Reaper(a)), j)
    ensures Known(s, j)
  {
    var t := ReaperNext(s, a);
    assert t == s.(db := t.db, reaper := t.reaper, pending := t.pending);
    if RunnersKnow(t.db, j) {
      RunnersSpread(s, Reaper(a), j);
    } else if a.Reap? && t != s && j in Orphans(s.db, a.order) {
      OrphansSpread(s.db, a.order, j);
    } else if a.RequeueStep? && s.reaper.Requeueing? {
      assert Advance(s.db, s.reaper.call).1.job == s.reaper.call.job;
    }
  }

  lemma ApiSpreads(s: State, a: ApiAction, j: JobId)
    requires AllChecked(s) && Known(Next(s, Api(a)), j)
    ensures Known(s, j) || (a.Enqueue? && a.w in s.webhooks && s.webhooks[a.w] == j)
  {
    var t := ApiNext(s, a);
    assert t == s.(db := t.db, pending := t.pending, webhooks := t.webhooks, calls := t.calls);
    if RunnersKnow(t.db, j) {
      RunnersSpread(s, Api(a), j);
    }
  }

  lemma StepSpreads(s: State, a: Action, j: JobId)
    requires AllChecked(s) && Known(Next(s, a), j)
    ensures Known(s, j) || (a.Api? && a.api.Enqueue? && a.api.w in s.webhooks && s.webhooks[a.api.w] == j)
  {
    match a
    case Api(api) => ApiSpreads(s, api, j);
    case Agent(r, agent) =>
      var t := AgentNext(s, r, agent);
      assert t == s.(db := t.db, mail := t.mail, agents := t.agents);
      if RunnersKnow(t.db, j) {
        RunnersSpread(s, a, j);
      }
    case Sched(sched) => SchedSpreads(s, sched, j);
    case Reaper(reaper) => ReaperSpreads(s, reaper, j);
    case Crash =>
  }

  // ---------- the invariant ----------

  lemma RowsStay(s: State, a: Action)
    requires AllChecked(s)
    ensures s.db.jobs.Keys <= Next(s, a).db.jobs.Keys
  {
    StepIsLegal(s, a);
    var st := StatementAt(s, a);
    if st.Some? {
      Tables.StatementEvolves(s.db, st.value);
    }
  }

  lemma WebhooksKept(s: State, a: Action)
    requires !a.Api?
    ensures Next(s, a).webhooks == s.webhooks
  {
    if a.Sched? {
      SchedFrame(s, a.sched);
    }
  }

  /** What a webhook owes after a step it owed before, unless it has just created it. */
  lemma OwedBefore(s: State, a: Action, w: nat)
    requires w in Next(s, a).webhooks
    ensures (w in s.webhooks && Next(s, a).webhooks[w] == s.webhooks[w]) ||
      (a.Api? && a.api.Create? && a.api.w == w && Next(s, a).webhooks[w] == a.api.job
       && a.api.job !in s.db.jobs && a.api.job in Next(s, a).db.jobs && a.api.job != "")
    ensures a.Api? && a.api.Enqueue? ==> w != a.api.w
  {
    if !a.Api? {
      WebhooksKept(s, a);
    }
  }

  lemma StepKeeps(s: State, a: Action)
    requires Inv(s)
    ensures Inv(Next(s, a))
  {
    StepIsLegal(s, a);
    RowsStay(s, a);
    var t := Next(s, a);
    forall j | Known(t, j) ensures j == "" || j in t.db.jobs {
      StepSpreads(s, a, j);
    }
    forall w | w in t.webhooks ensures t.webhooks[w] in t.db.jobs && !Known(t, t.webhooks[w]) {
      OwedBefore(s, a, w);
      if Known(t, t.webhooks[w]) {
        StepSpreads(s, a, t.webhooks[w]);
      }
    }
    forall v, w | v in t.webhooks && w in t.webhooks && t.webhooks[v] == t.webhooks[w] ensures v == w {
      OwedBefore(s, a, v);
      OwedBefore(s, a, w);
    }
  }

  /** In every run, crashes and faults included: an id that a webhook still has to push is
      in no list, known to neither scheduler nor reaper nor any runner row, and owed by
      that webhook alone. */
  lemma {:induction false} OwedIdsAreFresh(ss: seq<State>, actions: seq<Action>, i: nat)
    requires IsRun(ss, actions) && i < |ss|
    ensures Inv(ss[i])
  {
    if i > 0 {
      OwedIdsAreFresh(ss, actions, i - 1);
      assert ss[i] == Next(ss[i - 1], actions[i - 1]);
      StepKeeps(ss[i - 1], actions[i - 1]);
    }
  }
}
