/** Obeying a lost lease is safe: whatever the runner still sends for the job is refused
    (internal/api/runners.go:126-132, internal/api/jobs.go:77-183, internal/api/middleware.go:121-128). */
module Lease {
  import opened Models
  import opened Sql
  import opened Calls
  import opened Cluster
  import opened Tables
  import NoLimbo

  /** The request has been refused, or can only be refused by its next statement. */
  predicate Doomed(db: Db, c: Call) {
    || (c.pc.Returned? && c.pc.outcome != Ok)
    || (c.pc.AtRead? && c.job in db.jobs && db.jobs[c.job].status.Terminal())
  }

  /** The ownership check of a request that arrives after the lease was lost. */
  lemma CheckDooms(db: Db, c: Call)
    requires c.pc.AtCheck? && LeaseLost(db, c.pc.runner, c.job)
    ensures Doomed(db, Advance(db, c).1) && Advance(db, c).0 == db
  {
  }

  /** No interference can save a doomed request, and it never writes. */
  lemma DoomedStays(before: Db, after: Db, c: Call)
    requires Evolves(before, after) && Doomed(before, c)
    ensures Doomed(after, c)
    ensures Doomed(after, Advance(before, c).1) && Advance(before, c).0 == before
  {
  }

  lemma StepEvolvesDb(s: State, a: Action)
    requires AllChecked(s)
    ensures Evolves(s.db, Next(s, a).db)
  {
    StepIsLegal(s, a);
    var st := StatementAt(s, a);
    assert st.Some? ==> Legal(st.value) && Next(s, a).db == Execute(s.db, st.value);
    StepEvolves(s.db, Next(s, a).db);
  }

  /** One step leaves a handler's call alone, advances it, or ends it. */
  lemma CallFollows(s: State, a: Action, c: nat)
    requires c in s.calls && a != Api(End(c))
    ensures c in Next(s, a).calls
    ensures Next(s, a).calls[c] == if a == Api(CallStep(c)) then Advance(s.db, s.calls[c]).1 else s.calls[c]
  {
    if a.Sched? {
      SchedFrame(s, a.sched);
    }
  }

  /** A call is there until it has returned. */
  lemma CallStays(s: State, a: Action, c: nat)
    requires c in s.calls && !s.calls[c].pc.Returned?
    ensures c in Next(s, a).calls
    ensures Next(s, a).calls[c] == if a == Api(CallStep(c)) then Advance(s.db, s.calls[c]).1 else s.calls[c]
  {
    if a.Sched? {
      SchedFrame(s, a.sched);
    }
  }

  lemma CheckedStep(s: State, c: nat)
    requires AllChecked(s) && c in s.calls && s.calls[c].pc.AtCheck?
    requires LeaseLost(s.db, s.calls[c].pc.runner, s.calls[c].job)
    ensures var t := Next(s, Api(CallStep(c)));
      c in t.calls && Doomed(t.db, t.calls[c]) && Advance(t.db, t.calls[c]).0 == t.db
  {
    CheckDooms(s.db, s.calls[c]);
  }

  lemma DoomedStep(s: State, a: Action, c: nat)
    requires AllChecked(s) && c in s.calls && Doomed(s.db, s.calls[c]) && a != Api(End(c))
    ensures var t := Next(s, a);
      c in t.calls && Doomed(t.db, t.calls[c]) && Advance(t.db, t.calls[c]).0 == t.db
  {
    CallFollows(s, a, c);
    StepEvolvesDb(s, a);
    DoomedStays(s.db, Next(s, a).db, s.calls[c]);
  }

  /** The request has been or can only be refused, and its next statement writes nothing. */
  ghost predicate RefusedAt(s: State, c: nat) {
    c in s.calls && Doomed(s.db, s.calls[c]) && Advance(s.db, s.calls[c]).0 == s.db
  }

  lemma RefusedNext(ss: seq<State>, actions: seq<Action>, n: nat, c: nat)
    requires IsRun(ss, actions) && n < |actions| && RefusedAt(ss[n], c) && actions[n] != Api(End(c))
    ensures RefusedAt(ss[n + 1], c)
  {
    AlwaysChecked(ss, actions, n);
    DoomedStep(ss[n], actions[n], c);
    assert ss[n + 1] == Next(ss[n], actions[n]);
  }

  lemma RefusedFirst(ss: seq<State>, actions: seq<Action>, n: nat, c: nat)
    requires IsRun(ss, actions) && n < |actions|
    requires actions[n] == Api(CallStep(c)) && c in ss[n].calls && ss[n].calls[c].pc.AtCheck?
    requires LeaseLost(ss[n].db, ss[n].calls[c].pc.runner, ss[n].calls[c].job)
    ensures RefusedAt(ss[n + 1], c)
  {
    AlwaysChecked(ss, actions, n);
    CheckedStep(ss[n], c);
    assert ss[n + 1] == Next(ss[n], actions[n]);
  }

  lemma {:induction false} RefusedUntil(ss: seq<State>, actions: seq<Action>, i: nat, k: nat, c: nat)
    requires IsRun(ss, actions) && i <= k < |ss| && RefusedAt(ss[i], c)
    requires forall m {:trigger actions[m]} :: i <= m < k ==> actions[m] != Api(End(c))
    ensures RefusedAt(ss[k], c)
    decreases k
  {
    if i < k {
      RefusedUntil(ss, actions, i, k - 1, c);
      RefusedNext(ss, actions, k - 1, c);
    }
  }

  /** A start or result request of runner r whose ownership check runs while r's lease on
      the job is lost is refused, and writes nothing, in every continuation, even if the
      job is assigned to r again while the request is being served. */
  lemma RequestRefused(ss: seq<State>, actions: seq<Action>, i: nat, k: nat, c: nat)
    requires IsRun(ss, actions) && i < k < |ss|
    requires actions[i] == Api(CallStep(c)) && c in ss[i].calls && ss[i].calls[c].pc.AtCheck?
    requires LeaseLost(ss[i].db, ss[i].calls[c].pc.runner, ss[i].calls[c].job)
    requires forall m :: i < m < k ==> actions[m] != Api(End(c))
    ensures c in ss[k].calls && Doomed(ss[k].db, ss[k].calls[c])
    ensures Advance(ss[k].db, ss[k].calls[c]).0 == ss[k].db
  {
    RefusedFirst(ss, actions, i, c);
    RefusedUntil(ss, actions, i + 1, k, c);
  }

  /** The agent's own start request is one that can only be refused. */
  predicate StartDoomed(s: State, r: RunnerId) {
    var pc := AgentOf(s, r);
    pc.Polling? || (pc.Starting? && pc.call.job == pc.job && Doomed(s.db, pc.call))
  }

  /** Only its own steps move an agent. */
  lemma AgentFollows(s: State, a: Action, r: RunnerId)
    requires !(a.Agent? && a.r == r)
    ensures AgentOf(Next(s, a), r) == AgentOf(s, r)
  {
    if a.Sched? {
      SchedFrame(s, a.sched);
    }
  }

  lemma DoomedAgentStep(s: State, a: AgentAction, r: RunnerId)
    requires AllChecked(s) && StartDoomed(s, r) && !a.Poll?
    ensures StartDoomed(Next(s, Agent(r, a)), r)
  {
    if a.StartStep? && AgentOf(s, r).Starting? {
      DoomedStays(s.db, s.db, AgentOf(s, r).call);
    }
  }

  lemma StartDoomedStep(s: State, a: Action, r: RunnerId)
    requires AllChecked(s) && StartDoomed(s, r) && a != Agent(r, Poll)
    ensures StartDoomed(Next(s, a), r)
  {
    if a.Agent? && a.r == r {
      DoomedAgentStep(s, a.agent, r);
    } else {
      AgentFollows(s, a, r);
      StepEvolvesDb(s, a);
      if AgentOf(s, r).Starting? {
        DoomedStays(s.db, Next(s, a).db, AgentOf(s, r).call);
      }
    }
  }

  /** An agent's request is for the job it received and carries its own identity. */
  lemma AgentKeepsShape(s: State, r: RunnerId, a: AgentAction)
    requires NoLimbo.StartShape(s)
    ensures NoLimbo.StartShape(Next(s, Agent(r, a)))
  {
  }

  lemma StartShapeStep(s: State, a: Action)
    requires NoLimbo.StartShape(s)
    ensures NoLimbo.StartShape(Next(s, a))
  {
    if a.Agent? {
      AgentKeepsShape(s, a.r, a.agent);
    } else {
      var t := Next(s, a);
      forall r | r in t.agents && t.agents[r].Starting? ensures r in s.agents && s.agents[r] == t.agents[r] {
        AgentFollows(s, a, r);
      }
    }
  }

  lemma {:induction false} StartShapeHolds(ss: seq<State>, actions: seq<Action>, i: nat)
    requires IsRun(ss, actions) && i < |ss|
    ensures NoLimbo.StartShape(ss[i])
  {
    if i > 0 {
      StartShapeHolds(ss, actions, i - 1);
      StartShapeStep(ss[i - 1], actions[i - 1]);
    }
  }

  /** An agent that was handed a job it no longer owns never gets to execute it: it stays
      refused until it polls again. */
  lemma {:induction false} AgentRefused(ss: seq<State>, actions: seq<Action>, i: nat, k: nat, r: RunnerId)
    requires IsRun(ss, actions) && i < k < |ss|
    requires actions[i] == Agent(r, StartStep) && AgentOf(ss[i], r).Starting? && AgentOf(ss[i], r).call.pc.AtCheck?
    requires LeaseLost(ss[i].db, r, AgentOf(ss[i], r).job)
    requires forall m :: i < m < k ==> actions[m] != Agent(r, Poll)
    ensures StartDoomed(ss[k], r) && !AgentOf(ss[k], r).Executing?
    decreases k
  {
    if i + 1 == k {
      StartShapeHolds(ss, actions, i);
      CheckDooms(ss[i].db, AgentOf(ss[i], r).call);
    } else {
      AgentRefused(ss, actions, i, k - 1, r);
      AlwaysChecked(ss, actions, k - 1);
      StartDoomedStep(ss[k - 1], actions[k - 1], r);
    }
  }
}
