/** A held job that nobody is working on stays where it is until it is cancelled or the reaper
    takes it back (internal/scheduler/service.go:71-76, internal/api/jobs.go:77-183,
    internal/api/middleware.go:121-128). */
module Stuck {
  import opened Models
  import opened Sql
  import opened Calls
  import opened Cluster
  import NoLimbo
  import NoLoss
  import Ownership
  import Rescue

  // ---------- nobody is working on the job ----------

  /** A call that cannot move a job held by r, unless it cancels it. */
  predicate Harmless(c: Call, r: RunnerId) {
    c.change.Cancel? || c.pc.Returned? || c.pc.AtRelease? || (c.pc.AtCheck? && c.pc.runner != r)
  }

  ghost predicate CallsHarmless(s: State, j: JobId, r: RunnerId) {
    forall c :: c in s.calls && s.calls[c].job == j ==> Harmless(s.calls[c], r)
  }

  /** Agents of other runners may still hold an old delivery of j; r's own has none. */
  predicate AgentHarmless(pc: AgentPc, q: RunnerId, j: JobId, r: RunnerId) {
    && (pc.Fetched? && pc.job == j ==> q != r)
    && (pc.Starting? && pc.call.job == j ==> q != r && pc.call.pc == AtCheck(q))
  }

  ghost predicate AgentsHarmless(s: State, j: JobId, r: RunnerId) {
    forall q :: q in s.agents ==> AgentHarmless(s.agents[q], q, j, r)
  }

  predicate SchedulerHarmless(s: State, j: JobId) {
    && !(s.sched.Dispatching? && s.sched.job == j)
    && (s.sched.Undoing? && s.sched.call.job == j ==> s.sched.call.pc.AtRelease? || s.sched.call.pc.Returned?)
  }

  /** r holds j, and neither its agent, its mailbox, the scheduler nor any request under
      way is going to start, finish or requeue it. */
  ghost predicate Quiet(s: State, j: JobId, r: RunnerId) {
    && Ownership.HeldBy(s.db, j, r)
    && !NoLoss.WebhookOwes(s, j)
    && CallsHarmless(s, j, r)
    && AgentsHarmless(s, j, r)
    && j !in Box(s, r)
    && SchedulerHarmless(s, j)
  }

  /** r itself sends a request about j. */
  predicate Asks(a: Action, j: JobId, r: RunnerId) {
    a.Api? && a.api.Begin? && a.api.job == j && a.api.asRunner == Some(r)
  }

  /** A cancellation of j, or the reaper's requeue of it, commits. */
  predicate Escapes(s: State, a: Action, j: JobId) {
    || (a.Api? && a.api.CallStep? && a.api.c in s.calls && s.calls[a.api.c].change.Cancel? && Commits(s.db, s.calls[a.api.c], j))
    || (a == Reaper(RequeueStep) && s.reaper.Requeueing? && Commits(s.db, s.reaper.call, j))
  }

  predicate Commits(db: Db, c: Call, j: JobId) {
    c.job == j && c.pc.AtWrite? && InStatus(db, j, c.pc.from)
  }

  // ---------- one step ----------

  /** Only a call about j that is past its checks moves j. */
  lemma AdvanceHolds(db: Db, c: Call, j: JobId)
    requires Rescue.IsHeld(db, j) && !Commits(db, c, j)
    ensures Rescue.SameHold(db, Advance(db, c).0, j)
  {
  }

  lemma AdvanceHarmless(db: Db, c: Call, j: JobId, r: RunnerId)
    requires Ownership.HeldBy(db, j, r) && c.job == j && Harmless(c, r)
    ensures Harmless(Advance(db, c).1, r) && (Commits(db, c, j) ==> c.change.Cancel?)
  {
  }

  ghost predicate StepIsQuiet(s: State, a: Action, j: JobId, r: RunnerId) {
    (Quiet(Next(s, a), j, r) && Rescue.SameHold(s.db, Next(s, a).db, j)) || Escapes(s, a, j)
  }

  lemma CallStepIsQuiet(s: State, c: nat, j: JobId, r: RunnerId)
    requires Quiet(s, j, r)
    ensures StepIsQuiet(s, Api(CallStep(c)), j, r)
  {
    if c in s.calls && !Escapes(s, Api(CallStep(c)), j) {
      var t := Next(s, Api(CallStep(c)));
      if s.calls[c].job == j {
        AdvanceHarmless(s.db, s.calls[c], j, r);
      }
      AdvanceHolds(s.db, s.calls[c], j);
      assert t == s.(db := t.db, calls := t.calls);
      assert Box(t, r) == Box(s, r);
    }
  }

  lemma ApiCalls(s: State, a: ApiAction, j: JobId, r: RunnerId)
    requires Quiet(s, j, r) && !a.CallStep? && !Asks(Api(a), j, r)
    ensures CallsHarmless(ApiNext(s, a), j, r) && !NoLoss.WebhookOwes(ApiNext(s, a), j)
  {
    var t := ApiNext(s, a);
    forall w | w in t.webhooks ensures t.webhooks[w] != j {
      assert w in s.webhooks ==> s.webhooks[w] != j;
    }
  }

  lemma ApiHolds(s: State, a: ApiAction, j: JobId)
    requires Rescue.IsHeld(s.db, j) && !a.CallStep?
    ensures Rescue.SameHold(s.db, ApiNext(s, a).db, j)
  {
  }

  lemma ApiIsQuiet(s: State, a: ApiAction, j: JobId, r: RunnerId)
    requires Quiet(s, j, r) && !a.CallStep? && !Asks(Api(a), j, r)
    ensures StepIsQuiet(s, Api(a), j, r)
  {
    var t := ApiNext(s, a);
    assert t == s.(db := t.db, pending := t.pending, webhooks := t.webhooks, calls := t.calls);
    assert Box(t, r) == Box(s, r);
    ApiCalls(s, a, j, r);
    ApiHolds(s, a, j);
  }

  lemma StartStepIsQuiet(s: State, q: RunnerId, j: JobId, r: RunnerId)
    requires Quiet(s, j, r)
    ensures StepIsQuiet(s, Agent(q, StartStep), j, r)
  {
    var t := AgentNext(s, q, StartStep);
    assert t == s.(db := t.db, agents := t.agents);
    assert Box(t, r) == Box(s, r);
    if AgentOf(s, q).Starting? {
      assert q in s.agents && AgentHarmless(s.agents[q], q, j, r);
      AdvanceHolds(s.db, AgentOf(s, q).call, j);
    }
  }

  lemma AgentIsQuiet(s: State, q: RunnerId, a: AgentAction, j: JobId, r: RunnerId)
    requires Quiet(s, j, r) && !a.StartStep?
    ensures StepIsQuiet(s, Agent(q, a), j, r)
  {
    var t := AgentNext(s, q, a);
    assert t == s.(mail := t.mail, agents := t.agents);
    var box := Box(s, q);
    if box != [] {
      assert box == box[..|box| - 1] + [box[|box| - 1]];
    }
  }

  lemma SchedDb(s: State, a: SchedAction, j: JobId, r: RunnerId)
    requires AllChecked(s) && Quiet(s, j, r)
    ensures Rescue.SameHold(s.db, SchedNext(s, a).db, j)
  {
    if a.UndoStep? {
      if s.sched.Undoing? {
        AdvanceHolds(s.db, s.sched.call, j);
      }
    } else if !a.Commit? {
      SchedFrameDb(s, a);
    }
  }

  lemma SchedBox(s: State, a: SchedAction, j: JobId, r: RunnerId)
    requires Quiet(s, j, r)
    ensures j !in Box(SchedNext(s, a), r)
  {
  }

  lemma DispatchingFrom(s: State, a: SchedAction)
    requires SchedNext(s, a).sched.Dispatching?
    ensures (a.Commit? && s.sched.Committing?) || SchedNext(s, a).sched == s.sched
  {
  }

  lemma UndoPc(s: State, a: SchedAction, j: JobId)
    requires SchedulerHarmless(s, j) && SchedNext(s, a).sched.Undoing?
    ensures SchedulerHarmless(SchedNext(s, a), j)
  {
    UndoingFrom(s, a);
  }

  lemma SchedPc(s: State, a: SchedAction, j: JobId)
    requires AllChecked(s) && Rescue.IsHeld(s.db, j) && SchedulerHarmless(s, j)
    ensures SchedulerHarmless(SchedNext(s, a), j)
  {
    if SchedNext(s, a).sched.Undoing? {
      UndoPc(s, a, j);
    } else if SchedNext(s, a).sched.Dispatching? {
      DispatchingFrom(s, a);
    }
  }

  lemma SchedIsQuiet(s: State, a: SchedAction, j: JobId, r: RunnerId)
    requires AllChecked(s) && Quiet(s, j, r)
    ensures StepIsQuiet(s, Sched(a), j, r)
  {
    SchedFrame(s, a);
    SchedDb(s, a, j, r);
    SchedBox(s, a, j, r);
    SchedPc(s, a, j);
    var t := SchedNext(s, a);
    assert NoLoss.WebhookOwes(t, j) == NoLoss.WebhookOwes(s, j);
  }

  lemma ReaperIsQuiet(s: State, a: ReaperAction, j: JobId, r: RunnerId)
    requires Quiet(s, j, r)
    ensures StepIsQuiet(s, Reaper(a), j, r)
  {
    var t := ReaperNext(s, a);
    NoLimbo.ReaperFrame(s, a);
    assert Box(t, r) == Box(s, r);
    assert NoLoss.WebhookOwes(t, j) == NoLoss.WebhookOwes(s, j);
    if a.RequeueStep? && s.reaper.Requeueing? && !Escapes(s, Reaper(a), j) {
      AdvanceHolds(s.db, s.reaper.call, j);
    }
  }

  lemma QuietStep(s: State, a: Action, j: JobId, r: RunnerId)
    requires AllChecked(s) && Quiet(s, j, r) && !Asks(a, j, r)
    ensures StepIsQuiet(s, a, j, r)
  {
    match a
    case Api(api) =>
      if api.CallStep? {
        CallStepIsQuiet(s, api.c, j, r);
      } else {
        ApiIsQuiet(s, api, j, r);
      }
    case Agent(q, agent) =>
      if agent.StartStep? {
        StartStepIsQuiet(s, q, j, r);
      } else {
        AgentIsQuiet(s, q, agent, j, r);
      }
    case Sched(sched) => SchedIsQuiet(s, sched, j, r);
    case Reaper(reaper) => ReaperIsQuiet(s, reaper, j, r);
    case Crash =>
      assert Box(Next(s, a), r) == Box(s, r);
  }

  // ---------- every continuation ----------

  ghost predicate EscapedBetween(ss: seq<State>, actions: seq<Action>, i: nat, m: nat, j: JobId)
    requires i <= m < |ss| == |actions| + 1
  {
    exists n :: i <= n < m && Escapes(ss[n], actions[n], j)
  }

  ghost predicate NeverAsks(actions: seq<Action>, i: nat, m: nat, j: JobId, r: RunnerId)
    requires i <= m <= |actions|
  {
    forall n :: i <= n < m ==> !Asks(actions[n], j, r)
  }

  /** Step n keeps the job quiet, or an escape commits. */
  ghost predicate QuietFrom(ss: seq<State>, actions: seq<Action>, n: nat, j: JobId, r: RunnerId)
    requires n < |actions| < |ss|
  {
    Quiet(ss[n], j, r) ==>
      (Quiet(ss[n + 1], j, r) && Rescue.SameHold(ss[n].db, ss[n + 1].db, j)) || Escapes(ss[n], actions[n], j)
  }

  lemma QuietAt(ss: seq<State>, actions: seq<Action>, n: nat, j: JobId, r: RunnerId)
    requires IsRun(ss, actions) && n < |actions| && !Asks(actions[n], j, r)
    ensures QuietFrom(ss, actions, n, j, r)
  {
    if Quiet(ss[n], j, r) {
      AlwaysChecked(ss, actions, n);
      QuietStep(ss[n], actions[n], j, r);
      assert ss[n + 1] == Next(ss[n], actions[n]);
    }
  }

  lemma {:induction false} QuietUntil(ss: seq<State>, actions: seq<Action>, i: nat, m: nat, j: JobId, r: RunnerId)
    requires i <= m < |ss| == |actions| + 1 && Quiet(ss[i], j, r)
    requires forall n :: i <= n < m ==> QuietFrom(ss, actions, n, j, r)
    ensures (Quiet(ss[m], j, r) && Rescue.SameHold(ss[i].db, ss[m].db, j)) || EscapedBetween(ss, actions, i, m, j)
    decreases m
  {
    if i < m {
      QuietUntil(ss, actions, i, m - 1, j, r);
      assert QuietFrom(ss, actions, m - 1, j, r);
    }
  }

  /** In every continuation, restarts, faults and requests of other runners included, such a
      job keeps its status and its runner, and nobody starts to work on it, until a
      cancellation or the reaper's requeue commits, or r itself asks about it. */
  lemma QuietForGood(ss: seq<State>, actions: seq<Action>, i: nat, m: nat, j: JobId, r: RunnerId)
    requires IsRun(ss, actions) && i <= m < |ss| && Quiet(ss[i], j, r) && NeverAsks(actions, i, m, j, r)
    ensures (Quiet(ss[m], j, r) && Rescue.SameHold(ss[i].db, ss[m].db, j)) || EscapedBetween(ss, actions, i, m, j)
  {
    forall n | i <= n < m ensures QuietFrom(ss, actions, n, j, r) {
      QuietAt(ss, actions, n, j, r);
    }
    QuietUntil(ss, actions, i, m, j, r);
  }
}
