/** Heartbeat timing against the reaper's timeout (internal/runner/agent.go:131-158,
    internal/store/store.go:286-299, 336-345). Times are in nanoseconds. */
module Liveness {
  import opened Models
  import opened Sql

  const SECOND := 1_000_000_000

  /** The interval between heartbeats: a third of the timeout, and shorter with a job. */
  function Interval(timeout: nat, hasJob: bool): nat {
    if hasJob && timeout / 3 > 5 * SECOND then 5 * SECOND else timeout / 3
  }

  /** The reaper passes the timeout to SQL in whole seconds. */
  function WholeSeconds(timeout: nat): nat {
    timeout / SECOND * SECOND
  }

  /** Rounded down to whole seconds, by less than one. */
  lemma WholeSecondsRoundsDown(timeout: nat)
    ensures WholeSeconds(timeout) <= timeout < WholeSeconds(timeout) + SECOND
    ensures WholeSeconds(timeout) % SECOND == 0
  {
  }

  /** With a job the loop sleeps a third of the timeout or five seconds, whichever is shorter,
      so a cancellation is picked up that soon; without one, a third of the timeout. */
  lemma IntervalIsShorter(timeout: nat)
    ensures 3 * Interval(timeout, false) <= timeout < 3 * Interval(timeout, false) + 3
    ensures Interval(timeout, true) <= Interval(timeout, false) && Interval(timeout, true) <= 5 * SECOND
    ensures Interval(timeout, true) == Interval(timeout, false) || Interval(timeout, true) == 5 * SECOND
  {
  }

  /** The heartbeat loop: asleep, or in a call that ends by `deadline`. */
  datatype Pc = Asleep(until: int) | Calling(deadline: int, committed: bool)

  datatype State = State(now: int, lastHeartbeat: int, pc: Pc, failed: bool)

  datatype Action = Pass(d: nat) | Wake | Commit | Return(ok: bool, hasJob: bool)

  /** Registration has just written the row; its reply takes at most the latency bound. */
  predicate Init(latency: nat, s: State) {
    s.lastHeartbeat == s.now && s.pc.Calling? && s.pc.committed && s.now <= s.pc.deadline <= s.now + latency && !s.failed
  }

  /** Time stops at the next deadline; a call succeeds only after its UPDATE; no two
      heartbeats in a row fail. A failed call may still have reached the server. */
  predicate Enabled(s: State, a: Action) {
    match a
    case Pass(d) => s.now + d <= if s.pc.Asleep? then s.pc.until else s.pc.deadline
    case Wake => s.pc.Asleep? && s.now == s.pc.until
    case Commit => s.pc.Calling? && !s.pc.committed
    case Return(ok, _) => s.pc.Calling? && if ok then s.pc.committed else !s.failed
  }

  function Next(timeout: nat, latency: nat, s: State, a: Action): State {
    if !Enabled(s, a) then s else
      match a
      case Pass(d) => s.(now := s.now + d)
      case Wake => s.(pc := Calling(s.now + latency, false))
      case Commit => s.(lastHeartbeat := s.now, pc := Calling(s.pc.deadline, true))
      case Return(ok, hasJob) => s.(pc := Asleep(s.now + Interval(timeout, hasJob)), failed := !ok)
  }

  ghost predicate IsRun(timeout: nat, latency: nat, ss: seq<State>, actions: seq<Action>) {
    && |ss| == |actions| + 1
    && Init(latency, ss[0])
    && forall i {:trigger actions[i]} :: 0 <= i < |actions| ==> ss[i + 1] == Next(timeout, latency, ss[i], actions[i])
  }

  /** The reaper, looking now, would pick this runner: the WHERE clause of its statement. */
  predicate Reapable(timeout: nat, s: State) {
    IsStale(Runner(Idle, [], None, s.lastHeartbeat, None), s.now - WholeSeconds(timeout))
  }

  /** The longest the server can go without hearing from the runner. */
  function Gap(timeout: nat, latency: nat): nat {
    2 * (timeout / 3) + 3 * latency
  }

  /** How far back the last heartbeat can be, by phase. */
  ghost predicate Inv(timeout: nat, latency: nat, s: State) {
    var i := timeout / 3;
    match s.pc
    case Asleep(until) =>
      s.now <= until && s.lastHeartbeat >= until - (if s.failed then 2 * i + 2 * latency else i + latency)
    case Calling(deadline, committed) =>
      s.now <= deadline
      && s.lastHeartbeat >= deadline -
        (if committed then latency else if s.failed then 2 * i + 3 * latency else i + 2 * latency)
  }

  lemma StepKeeps(timeout: nat, latency: nat, s: State, a: Action)
    requires Inv(timeout, latency, s) && CallsBounded(latency, s)
    ensures Inv(timeout, latency, Next(timeout, latency, s, a)) && CallsBounded(latency, Next(timeout, latency, s, a))
  {
  }

  /** A call began at most `latency` before its deadline. */
  ghost predicate CallsBounded(latency: nat, s: State) {
    s.pc.Calling? ==> s.pc.deadline - latency <= s.now
  }

  lemma {:induction false} InvHolds(timeout: nat, latency: nat, ss: seq<State>, actions: seq<Action>, i: nat)
    requires IsRun(timeout, latency, ss, actions) && i < |ss|
    ensures Inv(timeout, latency, ss[i]) && CallsBounded(latency, ss[i])
  {
    if i > 0 {
      InvHolds(timeout, latency, ss, actions, i - 1);
      StepKeeps(timeout, latency, ss[i - 1], actions[i - 1]);
    }
  }

  /** A runner whose calls take at most `latency` and that never fails two heartbeats in a
      row is never reapable, at any point of any run, if the gap fits the timeout in whole
      seconds. */
  lemma NeverReaped(timeout: nat, latency: nat, ss: seq<State>, actions: seq<Action>, i: nat)
    requires IsRun(timeout, latency, ss, actions) && i < |ss|
    requires Gap(timeout, latency) <= WholeSeconds(timeout)
    ensures !Reapable(timeout, ss[i])
  {
    InvHolds(timeout, latency, ss, actions, i);
  }

  /** The bound is tight: beyond it a run exists in which the runner keeps to the rules and
      is reapable all the same. */
  lemma ReapedBeyond(timeout: nat, latency: nat) returns (ss: seq<State>, actions: seq<Action>)
    requires Gap(timeout, latency) > WholeSeconds(timeout)
    ensures IsRun(timeout, latency, ss, actions) && Reapable(timeout, ss[|ss| - 1])
  {
    var i := timeout / 3;
    var l: int := latency;
    actions := [Pass(latency), Return(true, false), Pass(i), Wake, Pass(latency), Return(false, false), Pass(i), Wake,
                Pass(latency)];
    ss := [
      State(0, 0, Calling(l, true), false),
      State(l, 0, Calling(l, true), false),
      State(l, 0, Asleep(l + i), false),
      State(l + i, 0, Asleep(l + i), false),
      State(l + i, 0, Calling(2 * l + i, false), false),
      State(2 * l + i, 0, Calling(2 * l + i, false), false),
      State(2 * l + i, 0, Asleep(2 * l + 2 * i), true),
      State(2 * l + 2 * i, 0, Asleep(2 * l + 2 * i), true),
      State(2 * l + 2 * i, 0, Calling(3 * l + 2 * i, false), true),
      State(3 * l + 2 * i, 0, Calling(3 * l + 2 * i, false), true)];
  }

  /** Exactly when heartbeats keep a runner alive. */
  lemma AliveExactly(timeout: nat, latency: nat)
    ensures (forall ss, actions, i: nat :: IsRun(timeout, latency, ss, actions) && i < |ss| ==> !Reapable(timeout, ss[i]))
      <==> Gap(timeout, latency) <= WholeSeconds(timeout)
  {
    if Gap(timeout, latency) <= WholeSeconds(timeout) {
      forall ss, actions, i: nat | IsRun(timeout, latency, ss, actions) && i < |ss| ensures !Reapable(timeout, ss[i]) {
        NeverReaped(timeout, latency, ss, actions, i);
      }
    } else {
      var ss, actions := ReapedBeyond(timeout, latency);
      assert IsRun(timeout, latency, ss, actions) && Reapable(timeout, ss[|ss| - 1]);
    }
  }
}
