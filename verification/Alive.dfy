/** The heartbeat loop of one runner r together with the whole system: what Liveness says of
    the loop holds of the table that the reaper looks at (internal/runner/agent.go:131-158,
    internal/store/store.go:286-299, 336-345). */
module Alive {
  import opened Models
  import opened Sql
  import Cluster
  import Liveness
  import Tables

  datatype State = State(system: Cluster.State, loop: Liveness.State)

  /** Everything but r's own heartbeats, and the loop that sends them. */
  datatype Action = System(step: Cluster.Action) | Loop(move: Liveness.Action)

  predicate IsHeartbeatOf(a: Cluster.Action, r: RunnerId) {
    a.Api? && a.api.Heartbeat? && a.api.r == r
  }

  /** A committed heartbeat is one step of both. */
  function Next(r: RunnerId, timeout: nat, latency: nat, s: State, a: Action): State {
    match a
    case System(step) => if IsHeartbeatOf(step, r) then s else s.(system := Cluster.Next(s.system, step))
    case Loop(move) =>
      State(if move.Commit? && Liveness.Enabled(s.loop, move)
            then Cluster.Next(s.system, Cluster.Api(Cluster.Heartbeat(r, s.loop.now))) else s.system,
            Liveness.Next(timeout, latency, s.loop, move))
  }

  /** r has just been registered, at some point of the life of the system. */
  ghost predicate Init(r: RunnerId, latency: nat, s: State) {
    && Cluster.AllChecked(s.system) && Liveness.Init(latency, s.loop)
    && r in s.system.db.runners && s.system.db.runners[r].status != Offline
    && s.system.db.runners[r].lastHeartbeat == s.loop.now
  }

  lemma RegistrationStarts(s: Cluster.State, r: RunnerId, labels: seq<string>, latency: nat, loop: Liveness.State)
    requires Cluster.AllChecked(s) && r !in s.db.runners && Liveness.Init(latency, loop)
    ensures Init(r, latency, State(Cluster.Next(s, Cluster.Api(Cluster.Register(r, labels, loop.now))), loop))
  {
    Cluster.StepIsLegal(s, Cluster.Api(Cluster.Register(r, labels, loop.now)));
  }

  ghost predicate IsRun(r: RunnerId, timeout: nat, latency: nat, ss: seq<State>, actions: seq<Action>) {
    && |ss| == |actions| + 1
    && Init(r, latency, ss[0])
    && forall i {:trigger actions[i]} :: 0 <= i < |actions| ==> ss[i + 1] == Next(r, timeout, latency, ss[i], actions[i])
  }

  // ---------- the row and the loop agree ----------

  ghost predicate Agrees(r: RunnerId, s: State) {
    && Cluster.AllChecked(s.system) && r in s.system.db.runners
    && s.system.db.runners[r].lastHeartbeat == s.loop.lastHeartbeat
  }

  /** No other statement writes last_heartbeat. */
  lemma StatementKeepsBeat(db: Db, st: Tables.Statement, r: RunnerId)
    requires r in db.runners && !(st.Heartbeat? && st.r == r)
    ensures var after := Tables.Execute(db, st); r in after.runners && after.runners[r].lastHeartbeat == db.runners[r].lastHeartbeat
  {
  }

  lemma SystemKeepsBeat(s: Cluster.State, a: Cluster.Action, r: RunnerId)
    requires Cluster.AllChecked(s) && r in s.db.runners && !IsHeartbeatOf(a, r)
    ensures var t := Cluster.Next(s, a);
      Cluster.AllChecked(t) && r in t.db.runners && t.db.runners[r].lastHeartbeat == s.db.runners[r].lastHeartbeat
  {
    Cluster.StepIsLegal(s, a);
    var st := Cluster.StatementAt(s, a);
    if st.Some? {
      HeartbeatsAreActions(s, a, r);
      StatementKeepsBeat(s.db, st.value, r);
    }
  }

  lemma HeartbeatsAreActions(s: Cluster.State, a: Cluster.Action, r: RunnerId)
    requires !IsHeartbeatOf(a, r)
    ensures var st := Cluster.StatementAt(s, a); !(st.Some? && st.value.Heartbeat? && st.value.r == r)
  {
  }

  lemma StepAgrees(r: RunnerId, timeout: nat, latency: nat, s: State, a: Action)
    requires Agrees(r, s)
    ensures Agrees(r, Next(r, timeout, latency, s, a))
  {
    match a
    case System(step) =>
      if !IsHeartbeatOf(step, r) {
        SystemKeepsBeat(s.system, step, r);
      }
    case Loop(move) =>
      Cluster.StepIsLegal(s.system, Cluster.Api(Cluster.Heartbeat(r, s.loop.now)));
  }

  lemma {:induction false} AlwaysAgrees(r: RunnerId, timeout: nat, latency: nat, ss: seq<State>, actions: seq<Action>, i: nat)
    requires IsRun(r, timeout, latency, ss, actions) && i < |ss|
    ensures Agrees(r, ss[i])
  {
    if i > 0 {
      AlwaysAgrees(r, timeout, latency, ss, actions, i - 1);
      assert ss[i] == Next(r, timeout, latency, ss[i - 1], actions[i - 1]);
      StepAgrees(r, timeout, latency, ss[i - 1], actions[i - 1]);
    }
  }

  // ---------- so the reaper never picks it ----------

  lemma {:induction false} LoopKept(r: RunnerId, timeout: nat, latency: nat, ss: seq<State>, actions: seq<Action>, i: nat)
    requires IsRun(r, timeout, latency, ss, actions) && i < |ss|
    ensures Liveness.Inv(timeout, latency, ss[i].loop) && Liveness.CallsBounded(latency, ss[i].loop)
  {
    if i > 0 {
      LoopKept(r, timeout, latency, ss, actions, i - 1);
      assert ss[i] == Next(r, timeout, latency, ss[i - 1], actions[i - 1]);
      if actions[i - 1].Loop? {
        Liveness.StepKeeps(timeout, latency, ss[i - 1].loop, actions[i - 1].move);
      }
    }
  }

  /** In every run of the whole system in which r's heartbeats come from a loop whose calls
      take at most `latency` and never fail twice in a row, r is not stale at any point, if
      the gap fits the timeout in whole seconds. */
  lemma NeverStale(r: RunnerId, timeout: nat, latency: nat, ss: seq<State>, actions: seq<Action>, i: nat)
    requires IsRun(r, timeout, latency, ss, actions) && i < |ss|
    requires Liveness.Gap(timeout, latency) <= Liveness.WholeSeconds(timeout)
    ensures r !in StaleRunners(ss[i].system.db, ss[i].loop.now - Liveness.WholeSeconds(timeout))
  {
    AlwaysAgrees(r, timeout, latency, ss, actions, i);
    LoopKept(r, timeout, latency, ss, actions, i);
  }

  /** The reaper computes its cutoff from the present time and the timeout in whole seconds. */
  ghost predicate ReapsByClock(timeout: nat, ss: seq<State>, actions: seq<Action>)
    requires |ss| == |actions| + 1
  {
    forall i {:trigger actions[i]} :: 0 <= i < |actions| && actions[i].System? && actions[i].step.Reaper? && actions[i].step.reaper.Reap? ==>
      actions[i].step.reaper.cutoff == ss[i].loop.now - Liveness.WholeSeconds(timeout)
  }

  lemma StatementKeepsOnline(db: Db, st: Tables.Statement, r: RunnerId)
    requires r in db.runners && db.runners[r].status != Offline && !(st.Reap? && r in StaleRunners(db, st.cutoff))
    ensures var after := Tables.Execute(db, st); r in after.runners && after.runners[r].status != Offline
  {
  }

  lemma ReapsAreActions(s: Cluster.State, a: Cluster.Action)
    ensures var st := Cluster.StatementAt(s, a);
      st.Some? && st.value.Reap? ==> a.Reaper? && a.reaper.Reap? && st.value.cutoff == a.reaper.cutoff
  {
  }

  lemma SystemKeepsOnline(s: Cluster.State, a: Cluster.Action, r: RunnerId)
    requires Cluster.AllChecked(s) && r in s.db.runners && s.db.runners[r].status != Offline
    requires a.Reaper? && a.reaper.Reap? ==> r !in StaleRunners(s.db, a.reaper.cutoff)
    ensures var t := Cluster.Next(s, a); r in t.db.runners && t.db.runners[r].status != Offline
  {
    Cluster.StepIsLegal(s, a);
    ReapsAreActions(s, a);
    if Cluster.StatementAt(s, a).Some? {
      StatementKeepsOnline(s.db, Cluster.StatementAt(s, a).value, r);
    }
  }

  /** Such a runner is never marked OFFLINE. */
  lemma {:induction false} NeverOffline(r: RunnerId, timeout: nat, latency: nat, ss: seq<State>, actions: seq<Action>, i: nat)
    requires IsRun(r, timeout, latency, ss, actions) && i < |ss| && ReapsByClock(timeout, ss, actions)
    requires Liveness.Gap(timeout, latency) <= Liveness.WholeSeconds(timeout)
    ensures r in ss[i].system.db.runners && ss[i].system.db.runners[r].status != Offline
  {
    if i > 0 {
      NeverOffline(r, timeout, latency, ss, actions, i - 1);
      NeverStale(r, timeout, latency, ss, actions, i - 1);
      AlwaysAgrees(r, timeout, latency, ss, actions, i - 1);
      assert ss[i] == Next(r, timeout, latency, ss[i - 1], actions[i - 1]);
      if actions[i - 1].System? {
        SystemKeepsOnline(ss[i - 1].system, actions[i - 1].step, r);
      } else {
        SystemKeepsOnline(ss[i - 1].system, Cluster.Api(Cluster.Heartbeat(r, ss[i - 1].loop.now)), r);
      }
    }
  }
}
