/** Obeying a cancel reply is safe: the whole system together with the two threads of the
    agent of one runner r (internal/runner/agent.go:131-168, internal/api/runners.go:97-132). */
module Obey {
  import opened Models
  import opened Calls
  import Agent
  import Cluster
  import Lease
  import Races
  import Rescue
  import Stuck
  import Tables
  import Sql

  /** `verdict` is the answer to the heartbeat under way, once the handler has read the job. */
  datatype State = State(system: Cluster.State, agent: Agent.State, verdict: Option<bool>)

  const INIT := State(Cluster.INIT, Agent.INIT, None)

  datatype Action =
    | System(step: Cluster.Action)
    | Thread(move: Agent.Action)
    | Serve                          // the handler reads the job named by the heartbeat
    | ServeFails                     // any error of that read counts as a lost lease

  function Next(r: RunnerId, s: State, a: Action): State {
    match a
    case System(step) => s.(system := Cluster.Next(s.system, step))
    case Serve => if s.agent.beat.Requesting? then s.(verdict := Some(Verdict(r, s))) else s
    case ServeFails =>
      if s.agent.beat.Requesting? then s.(verdict := Some(s.agent.beat.target.Some?)) else s
    case Thread(Capture) =>
      if s.agent.beat.Sleeping? then s.(agent := Agent.Next(s.agent, Agent.Capture), verdict := None) else s
    case Thread(Answer(reply)) =>
      // A reply may get lost; otherwise it carries the verdict.
      if reply.Lost? || s.verdict == Some(reply.Revoke?)
      then s.(agent := Agent.Next(s.agent, Agent.Answer(reply)), verdict := None) else s
    case Thread(step) => s.(agent := Agent.Next(s.agent, step))
  }

  /** leaseLost on the row of the job that the heartbeat names, if it names one. */
  predicate Verdict(r: RunnerId, s: State) {
    && s.agent.beat.Requesting? && s.agent.beat.target.Some?
    && var k := s.agent.beat.target.value;
    k < |s.agent.deliveries| && Tables.LeaseLost(s.system.db, r, s.agent.deliveries[k].job)
  }

  ghost predicate IsRun(r: RunnerId, ss: seq<State>, actions: seq<Action>) {
    && |ss| == |actions| + 1
    && ss[0] == INIT
    && forall i {:trigger actions[i]} :: 0 <= i < |actions| ==> ss[i + 1] == Next(r, ss[i], actions[i])
  }

  // ---------- a mark needs a lost lease ----------

  /** A heartbeat that names delivery k is answered with cancel: its lease is lost, or the
      job could not be read. */
  predicate ToldToStop(r: RunnerId, s: State, a: Action, k: nat) {
    s.agent.beat == Agent.Requesting(Some(k)) && ((a == Serve && Verdict(r, s)) || a == ServeFails)
  }

  ghost predicate WasTold(r: RunnerId, ss: seq<State>, actions: seq<Action>, n: nat, k: nat)
    requires |ss| == |actions| + 1 && n < |ss|
  {
    exists i :: 0 <= i < n && ToldToStop(r, ss[i], actions[i], k)
  }

  /** Deliveries keep their job and their number. */
  ghost predicate Kept(s: Agent.State, t: Agent.State) {
    |s.deliveries| <= |t.deliveries| && forall k :: 0 <= k < |s.deliveries| ==> s.deliveries[k].job == t.deliveries[k].job
  }

  lemma ThreadKeeps(s: Agent.State, a: Agent.Action)
    ensures Kept(s, Agent.Next(s, a))
  {
  }

  lemma StepKeeps(r: RunnerId, s: State, a: Action)
    requires Agent.Inv(s.agent)
    ensures Agent.Inv(Next(r, s, a).agent) && Kept(s.agent, Next(r, s, a).agent)
  {
    if a.Thread? {
      Agent.StepKeeps(s.agent, a.move);
      ThreadKeeps(s.agent, a.move);
    }
  }

  lemma {:induction false} AgentHolds(r: RunnerId, ss: seq<State>, actions: seq<Action>, i: nat, n: nat)
    requires IsRun(r, ss, actions) && i <= n < |ss|
    ensures Agent.Inv(ss[n].agent) && Kept(ss[i].agent, ss[n].agent)
    decreases n
  {
    if i < n {
      AgentHolds(r, ss, actions, i, n - 1);
      StepKeeps(r, ss[n - 1], actions[n - 1]);
      assert ss[n] == Next(r, ss[n - 1], actions[n - 1]);
    } else if n > 0 {
      AgentHolds(r, ss, actions, n - 1, n - 1);
      StepKeeps(r, ss[n - 1], actions[n - 1]);
      assert ss[n] == Next(r, ss[n - 1], actions[n - 1]);
    }
  }

  /** A verdict lasts as long as the heartbeat it answers. */
  lemma {:induction false} VerdictIsFresh(r: RunnerId, ss: seq<State>, actions: seq<Action>, n: nat)
    requires IsRun(r, ss, actions) && n < |ss|
    ensures ss[n].verdict.Some? ==> ss[n].agent.beat.Requesting?
  {
    if n > 0 {
      VerdictIsFresh(r, ss, actions, n - 1);
      assert ss[n] == Next(r, ss[n - 1], actions[n - 1]);
    }
  }

  /** The cancel reply for delivery k is on its way or has arrived. */
  predicate Revoked(s: State, k: nat) {
    k in s.agent.revoked || (s.verdict == Some(true) && s.agent.beat == Agent.Requesting(Some(k)))
  }

  lemma RevokedStep(r: RunnerId, s: State, a: Action, k: nat)
    requires Revoked(Next(r, s, a), k)
    ensures Revoked(s, k) || ToldToStop(r, s, a, k)
  {
  }

  lemma {:induction false} RevokedWasTold(r: RunnerId, ss: seq<State>, actions: seq<Action>, n: nat, k: nat)
    requires IsRun(r, ss, actions) && n < |ss| && Revoked(ss[n], k)
    ensures WasTold(r, ss, actions, n, k)
  {
    if n > 0 {
      assert ss[n] == Next(r, ss[n - 1], actions[n - 1]);
      RevokedStep(r, ss[n - 1], actions[n - 1], k);
      if Revoked(ss[n - 1], k) {
        RevokedWasTold(r, ss, actions, n - 1, k);
      }
    }
  }

  /** A delivery is marked only if a heartbeat that named it was served while r had lost
      the lease on its job, or while the job could not be read. */
  lemma MarkedOnlyIfLost(r: RunnerId, ss: seq<State>, actions: seq<Action>, n: nat, k: nat) returns (i: nat)
    requires IsRun(r, ss, actions) && n < |ss| && Agent.Marked(ss[n].agent, k)
    ensures i < n && ToldToStop(r, ss[i], actions[i], k)
    ensures actions[i] == ServeFails || Tables.LeaseLost(ss[i].system.db, r, ss[n].agent.deliveries[k].job)
  {
    AgentHolds(r, ss, actions, n, n);
    assert k in ss[n].agent.revoked;
    RevokedWasTold(r, ss, actions, n, k);
    i :| 0 <= i < n && ToldToStop(r, ss[i], actions[i], k);
    AgentHolds(r, ss, actions, i, n);
  }

  /** A heartbeat whose reply arrives marks the delivery it names exactly when the lease is
      lost or the job cannot be read. */
  lemma HeartbeatMarksExactly(r: RunnerId, s: State, serve: Action, k: nat)
    requires s.agent.beat == Agent.Requesting(Some(k)) && k < |s.agent.deliveries| && !Agent.Marked(s.agent, k)
    requires serve == Serve || serve == ServeFails
    ensures
      var told := Next(r, s, serve);
      var answered := Next(r, told, Thread(Agent.Answer(if told.verdict == Some(true) then Agent.Revoke else Agent.Keep)));
      Agent.Marked(Next(r, answered, Thread(Agent.Beat)).agent, k) <==>
        serve == ServeFails || Tables.LeaseLost(s.system.db, r, s.agent.deliveries[k].job)
  {
    var told := Next(r, s, serve);
    var answered := Next(r, told, Thread(Agent.Answer(if told.verdict == Some(true) then Agent.Revoke else Agent.Keep)));
    if told.verdict == Some(true) {
      assert answered.agent.beat == Agent.Marking(k);
    } else {
      assert answered.agent.beat == Agent.Sleeping;
    }
  }

  // ---------- a cancellation gets through ----------

  lemma CancelledStays(r: RunnerId, ss: seq<State>, actions: seq<Action>, i: nat, n: nat, j: JobId)
    requires IsRun(r, ss, actions) && i <= n < |ss| && Sql.InStatus(ss[i].system.db, j, Cancelled)
    ensures Sql.InStatus(ss[n].system.db, j, Cancelled)
  {
    SystemRuns(r, ss, actions);
    Cluster.FinishedStaysFinished(SystemStates(ss), SystemActions(actions), i, n, j);
  }

  /** The heartbeat for delivery k of job j is under way, and its answer is cancel. */
  predicate Told(s: State, k: nat, j: JobId) {
    && s.agent.beat == Agent.Requesting(Some(k)) && s.verdict == Some(true)
    && k < |s.agent.deliveries| && s.agent.deliveries[k].job == j
  }

  lemma ToldStays(r: RunnerId, s: State, a: Action, k: nat, j: JobId)
    requires Told(s, k, j) && Sql.InStatus(s.system.db, j, Cancelled) && !(a.Thread? && a.move.Answer?)
    ensures Told(Next(r, s, a), k, j)
  {
    if a.Thread? {
      ThreadKeeps(s.agent, a.move);
    }
  }

  lemma {:induction false} ToldUntil(r: RunnerId, ss: seq<State>, actions: seq<Action>, i: nat, n: nat, m: nat, k: nat, j: JobId)
    requires IsRun(r, ss, actions) && i <= n < m < |ss| && Sql.InStatus(ss[i].system.db, j, Cancelled)
    requires actions[n] == Serve && ss[n].agent.beat == Agent.Requesting(Some(k))
    requires k < |ss[n].agent.deliveries| && ss[n].agent.deliveries[k].job == j
    requires forall h {:trigger actions[h]} :: n < h < m ==> !(actions[h].Thread? && actions[h].move.Answer?)
    ensures Told(ss[m], k, j)
    decreases m
  {
    CancelledStays(r, ss, actions, i, m - 1, j);
    assert ss[m] == Next(r, ss[m - 1], actions[m - 1]);
    if n + 1 < m {
      ToldUntil(r, ss, actions, i, n, m - 1, k, j);
      ToldStays(r, ss[m - 1], actions[m - 1], k, j);
    }
  }

  lemma MarkingStays(r: RunnerId, s: State, a: Action, k: nat)
    requires s.agent.beat == Agent.Marking(k) && k < |s.agent.deliveries|
    ensures if a == Thread(Agent.Beat) then Agent.Marked(Next(r, s, a).agent, k)
            else Next(r, s, a).agent.beat == Agent.Marking(k) && k < |Next(r, s, a).agent.deliveries|
  {
  }

  lemma {:induction false} MarkingUntil(r: RunnerId, ss: seq<State>, actions: seq<Action>, m: nat, q: nat, k: nat)
    requires IsRun(r, ss, actions) && m <= q < |ss| && ss[m].agent.beat == Agent.Marking(k) && k < |ss[m].agent.deliveries|
    requires forall h {:trigger actions[h]} :: m <= h < q ==> actions[h] != Thread(Agent.Beat)
    ensures ss[q].agent.beat == Agent.Marking(k) && k < |ss[q].agent.deliveries|
    decreases q
  {
    if m < q {
      MarkingUntil(r, ss, actions, m, q - 1, k);
      assert ss[q] == Next(r, ss[q - 1], actions[q - 1]);
      MarkingStays(r, ss[q - 1], actions[q - 1], k);
    }
  }

  /** After a cancellation of j has committed, at i, every heartbeat that names a delivery of j
      and is served, at n, marks it: the next reply that carries the verdict, at m, is cancel,
      and the statement after it, at q, sets the mark. */
  lemma CancelReachesAgent(r: RunnerId, ss: seq<State>, actions: seq<Action>, i: nat, n: nat, m: nat, q: nat, k: nat, j: JobId,
                           reply: Agent.Reply)
    requires IsRun(r, ss, actions) && i <= n < m < q < |actions| && Sql.InStatus(ss[i].system.db, j, Cancelled)
    requires actions[n] == Serve && ss[n].agent.beat == Agent.Requesting(Some(k))
    requires k < |ss[n].agent.deliveries| && ss[n].agent.deliveries[k].job == j
    requires forall h {:trigger actions[h]} :: n < h < m ==> !(actions[h].Thread? && actions[h].move.Answer?)
    requires actions[m] == Thread(Agent.Answer(reply)) && !reply.Lost? && ss[m].verdict == Some(reply.Revoke?)
    requires forall h {:trigger actions[h]} :: m < h < q ==> actions[h] != Thread(Agent.Beat)
    requires actions[q] == Thread(Agent.Beat)
    ensures reply == Agent.Revoke && Agent.Marked(ss[q + 1].agent, k)
  {
    ToldUntil(r, ss, actions, i, n, m, k, j);
    assert ss[m + 1] == Next(r, ss[m], actions[m]);
    MarkingUntil(r, ss, actions, m + 1, q, k);
    assert ss[q + 1] == Next(r, ss[q], actions[q]);
    MarkingStays(r, ss[q], actions[q], k);
  }

  // ---------- and what it still sends is refused ----------

  /** An action that never does anything: no handler requeues. */
  const STUTTER := Cluster.Api(Cluster.Begin(0, "", Sql.Change.Requeue, None))

  function SystemStates(ss: seq<State>): seq<Cluster.State> {
    seq(|ss|, i requires 0 <= i < |ss| => ss[i].system)
  }

  function SystemActions(actions: seq<Action>): seq<Cluster.Action> {
    seq(|actions|, i requires 0 <= i < |actions| => if actions[i].System? then actions[i].step else STUTTER)
  }

  lemma SystemStep(r: RunnerId, s: State, a: Action)
    ensures Next(r, s, a).system == Cluster.Next(s.system, if a.System? then a.step else STUTTER)
  {
  }

  lemma SystemRuns(r: RunnerId, ss: seq<State>, actions: seq<Action>)
    requires IsRun(r, ss, actions)
    ensures Cluster.IsRun(SystemStates(ss), SystemActions(actions))
  {
    forall i | 0 <= i < |actions|
      ensures SystemStates(ss)[i + 1] == Cluster.Next(SystemStates(ss)[i], SystemActions(actions)[i])
    {
      SystemStep(r, ss[i], actions[i]);
      assert ss[i + 1] == Next(r, ss[i], actions[i]);
    }
  }

  /** AssignJob(j, r) did not commit between the two points. */
  ghost predicate NotAssignedAgain(ss: seq<State>, i: nat, n: nat, j: JobId, r: RunnerId)
    requires i <= n < |ss|
  {
    Tables.NeverReassigned(Cluster.History(SystemStates(ss)), i, n, j, r)
  }

  /** A result or start request of r for the job of a marked delivery is refused and writes
      nothing, in every continuation, if the job could be read when the heartbeat was
      served and was not assigned to r again before the request's ownership check. */
  lemma MarkedIsRefused(r: RunnerId, ss: seq<State>, actions: seq<Action>, m: nat, k: nat, n: nat, q: nat, c: nat)
    returns (i: nat)
    requires IsRun(r, ss, actions) && m <= n < q < |ss| && Agent.Marked(ss[m].agent, k)
    requires actions[n] == System(Cluster.Api(Cluster.CallStep(c))) && c in ss[n].system.calls
    requires ss[n].system.calls[c].pc == AtCheck(r) && ss[n].system.calls[c].job == ss[m].agent.deliveries[k].job
    requires forall h :: n < h < q ==> actions[h] != System(Cluster.Api(Cluster.End(c)))
    ensures i < m && ToldToStop(r, ss[i], actions[i], k)
    ensures actions[i] == Serve && NotAssignedAgain(ss, i, n, ss[m].agent.deliveries[k].job, r) ==>
      && c in ss[q].system.calls && Lease.Doomed(ss[q].system.db, ss[q].system.calls[c])
      && Advance(ss[q].system.db, ss[q].system.calls[c]).0 == ss[q].system.db
  {
    i := MarkedOnlyIfLost(r, ss, actions, m, k);
    SystemRuns(r, ss, actions);
    var states, steps := SystemStates(ss), SystemActions(actions);
    Cluster.RunsAreHistories(states, steps);
    if actions[i] == Serve && NotAssignedAgain(ss, i, n, ss[m].agent.deliveries[k].job, r) {
      Tables.LostLeaseStaysLost(Cluster.History(states), i, n, r, ss[m].agent.deliveries[k].job);
      Lease.RequestRefused(states, steps, n, q, c);
    }
  }

  // ---------- a lease that was not lost ----------

  lemma Extend(r: RunnerId, ss: seq<State>, actions: seq<Action>, a: Action) returns (ss': seq<State>, actions': seq<Action>)
    requires IsRun(r, ss, actions)
    ensures ss' == ss + [Next(r, ss[|ss| - 1], a)] && actions' == actions + [a]
    ensures IsRun(r, ss', actions') && ss'[|ss'| - 1] == Next(r, ss[|ss| - 1], a)
  {
    ss', actions' := ss + [Next(r, ss[|ss| - 1], a)], actions + [a];
  }

  /** Every run of the system is one in which the agent has not begun. */
  lemma Lifted(r: RunnerId, states: seq<Cluster.State>, steps: seq<Cluster.Action>)
    returns (ss: seq<State>, actions: seq<Action>)
    requires Cluster.IsRun(states, steps)
    ensures IsRun(r, ss, actions) && ss[|ss| - 1] == State(states[|states| - 1], Agent.INIT, None)
  {
    ss := seq(|states|, i requires 0 <= i < |states| => State(states[i], Agent.INIT, None));
    actions := seq(|steps|, i requires 0 <= i < |steps| => System(steps[i]));
    forall i | 0 <= i < |actions| ensures ss[i + 1] == Next(r, ss[i], actions[i]) {
      assert states[i + 1] == Cluster.Next(states[i], steps[i]);
    }
  }

  /** r executes j, and a heartbeat is answered while the job cannot be read. */
  lemma ToldRun() returns (ss: seq<State>, actions: seq<Action>)
    ensures IsRun("r", ss, actions)
    ensures Running("r", ss[|ss| - 1], "j") && Stuck.Quiet(ss[|ss| - 1].system, "j", "r")
    ensures ss[|ss| - 1].agent == Agent.State(
      [Agent.Delivery("j", true, false)], Some(0), Agent.CheckingOut(0), Agent.Cancelling(0), {0}, {0}, [], {})
  {
    var states, steps := Races.StartedRun();
    ss, actions := Lifted("r", states, steps);
    var system := states[|states| - 1];
    ss, actions := Extend("r", ss, actions, Thread(Agent.Deliver("j")));
    ss, actions := Extend("r", ss, actions, Thread(Agent.Exec(true)));
    ss, actions := Extend("r", ss, actions, Thread(Agent.Exec(true)));
    ss, actions := Extend("r", ss, actions, Thread(Agent.Capture));
    ss, actions := Extend("r", ss, actions, ServeFails);
    assert ss[|ss| - 1] == State(system, Agent.State([Agent.Delivery("j", false, false)], Some(0), Agent.CheckingOut(0),
      Agent.Requesting(Some(0)), {0}, {}, [], {}), Some(true));
    ss, actions := Extend("r", ss, actions, Thread(Agent.Answer(Agent.Revoke)));
    ss, actions := Extend("r", ss, actions, Thread(Agent.Beat));
  }

  /** The tables say that r is executing j. */
  predicate Running(r: RunnerId, s: State, j: JobId) {
    && j in s.system.db.jobs && s.system.db.jobs[j].status == Models.Running && !Tables.LeaseLost(s.system.db, r, j)
    && r in s.system.db.runners && s.system.db.runners[r].status == Busy && s.system.db.runners[r].currentJob == Some(j)
  }

  /** The agent obeys: it drops a job it still owns and reports nothing, so the job stays
      RUNNING on a runner that is polling for work. */
  lemma WrongfulCancelRun() returns (ss: seq<State>, actions: seq<Action>)
    ensures IsRun("r", ss, actions)
    ensures Running("r", ss[|ss| - 1], "j")
    ensures ss[|ss| - 1].agent.exec == Agent.Polling && Agent.Marked(ss[|ss| - 1].agent, 0) && ss[|ss| - 1].agent.posted == []
    ensures Stuck.Quiet(ss[|ss| - 1].system, "j", "r")
  {
    ss, actions := ToldRun();
    ss, actions := Extend("r", ss, actions, Thread(Agent.Beat));
    ss, actions := Extend("r", ss, actions, Thread(Agent.Exec(false)));
    ss, actions := Extend("r", ss, actions, Thread(Agent.Exec(true)));
    ss, actions := Extend("r", ss, actions, Thread(Agent.Exec(true)));
  }

  // ---------- and nobody picks it up ----------

  predicate WorksOn(s: Agent.State, j: JobId) {
    !s.exec.Polling? && s.exec.k < |s.deliveries| && s.deliveries[s.exec.k].job == j
  }

  lemma IdleStep(r: RunnerId, s: State, a: Action, j: JobId)
    requires !WorksOn(s.agent, j) && Agent.Inv(s.agent) && a != Thread(Agent.Deliver(j))
    ensures !WorksOn(Next(r, s, a).agent, j)
  {
  }

  /** Between points i and m job j is not delivered to r again, and r sends requests about
      it only while its agent executes a delivery of it. */
  ghost predicate LeftAlone(r: RunnerId, ss: seq<State>, actions: seq<Action>, i: nat, m: nat, j: JobId)
    requires i <= m < |ss| == |actions| + 1
  {
    forall n {:trigger actions[n]} :: i <= n < m ==>
      && actions[n] != Thread(Agent.Deliver(j))
      && (actions[n].System? && Stuck.Asks(actions[n].step, j, r) ==> WorksOn(ss[n].agent, j))
  }

  lemma {:induction false} StaysIdle(r: RunnerId, ss: seq<State>, actions: seq<Action>, i: nat, m: nat, j: JobId)
    requires IsRun(r, ss, actions) && i <= m < |ss| && !WorksOn(ss[i].agent, j) && LeftAlone(r, ss, actions, i, m, j)
    ensures !WorksOn(ss[m].agent, j)
    decreases m
  {
    if i < m {
      StaysIdle(r, ss, actions, i, m - 1, j);
      AgentHolds(r, ss, actions, m - 1, m - 1);
      IdleStep(r, ss[m - 1], actions[m - 1], j);
    }
  }

  lemma NobodyAsks(r: RunnerId, ss: seq<State>, actions: seq<Action>, i: nat, m: nat, j: JobId)
    requires IsRun(r, ss, actions) && i <= m < |ss| && !WorksOn(ss[i].agent, j) && LeftAlone(r, ss, actions, i, m, j)
    ensures Stuck.NeverAsks(SystemActions(actions), i, m, j, r)
  {
    forall n | i <= n < m ensures !Stuck.Asks(SystemActions(actions)[n], j, r) {
      StaysIdle(r, ss, actions, i, n, j);
    }
  }

  ghost predicate EscapedBetween(ss: seq<State>, actions: seq<Action>, i: nat, m: nat, j: JobId)
    requires i <= m < |ss| == |actions| + 1
  {
    exists n :: i <= n < m && actions[n].System? && Stuck.Escapes(ss[n].system, actions[n].step, j)
  }

  /** A job that the agent has dropped, rightly or not, stays where it is in every
      continuation until it is cancelled or the reaper takes it back. */
  lemma DroppedForGood(r: RunnerId, ss: seq<State>, actions: seq<Action>, i: nat, m: nat, j: JobId)
    requires IsRun(r, ss, actions) && i <= m < |ss|
    requires Stuck.Quiet(ss[i].system, j, r) && !WorksOn(ss[i].agent, j) && LeftAlone(r, ss, actions, i, m, j)
    ensures (Stuck.Quiet(ss[m].system, j, r) && Rescue.SameHold(ss[i].system.db, ss[m].system.db, j))
      || EscapedBetween(ss, actions, i, m, j)
  {
    SystemRuns(r, ss, actions);
    NobodyAsks(r, ss, actions, i, m, j);
    var states, steps := SystemStates(ss), SystemActions(actions);
    Stuck.QuietForGood(states, steps, i, m, j, r);
    if Stuck.EscapedBetween(states, steps, i, m, j) {
      var n :| i <= n < m && Stuck.Escapes(states[n], steps[n], j);
      assert actions[n].System? && Stuck.Escapes(ss[n].system, actions[n].step, j);
    }
  }
}
