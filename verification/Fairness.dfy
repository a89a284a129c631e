/** The fairness bound of Scheduler holds of the running system (internal/scheduler/service.go:78-104,
    internal/store/store.go:134-152, 303-322): listing, choice and commit are separate steps, and
    everybody else runs in between. */
module Fairness {
  import opened Models
  import opened Sql
  import opened Cluster
  import opened Scheduler
  import Service
  import Tables

  /** What IdleRunners returned to one pass. */
  datatype Listing = Listing(cutoff: int, pool: seq<Candidate>)

  predicate Chooses(s: State, a: Action) {
    a.Sched? && a.sched.Choose? && a.sched.pick.Some? && s.sched.Choosing?
  }

  /** The assignment transaction commits. */
  predicate Commits(s: State, a: Action) {
    && a.Sched? && a.sched.Commit? && s.sched.Committing?
    && InStatus(s.db, s.sched.job, s.sched.from) && IsIdle(s.db, s.sched.runner)
  }

  function Labels(db: Db, j: JobId): seq<string> {
    if j in db.jobs then db.jobs[j].labels else []
  }

  /** The runner is chosen by Schedule from the rows of the live IDLE runners. */
  ghost predicate ByPolicy(s: State, a: Action, l: Listing) {
    Chooses(s, a) ==>
      && Service.IsPool(s.db, l.cutoff, l.pool)
      && a.sched.pick.value in s.db.runners
      && IsBest(Labels(s.db, s.sched.job), l.pool, Some(Candidate(a.sched.pick.value, s.db.runners[a.sched.pick.value])))
  }

  /** The database clock does not run backwards between assignments. */
  ghost predicate ClockAdvances(ss: seq<State>, actions: seq<Action>)
    requires |ss| == |actions| + 1
  {
    forall i, k :: 0 <= i < k < |actions| && Commits(ss[i], actions[i]) && Commits(ss[k], actions[k]) ==>
      actions[i].sched.now <= actions[k].sched.now
  }

  // ---------- the decisions of a run ----------

  datatype Choice = Choice(required: seq<string>, pool: seq<Candidate>, chosen: Candidate)

  /** The committed assignments so far, the stamps found by each, and the latest choice. */
  datatype Trace = Trace(decisions: seq<Decision>, stamps: seq<Stamps>, choice: Option<Choice>)

  function Observe(t: Trace, s: State, a: Action, l: Listing): Trace {
    if Chooses(s, a) && a.sched.pick.value in s.db.runners then
      var r := a.sched.pick.value;
      t.(choice := Some(Choice(Labels(s.db, s.sched.job), l.pool, Candidate(r, s.db.runners[r]))))
    else if Commits(s, a) && t.choice.Some? then
      var c := t.choice.value;
      t.(decisions := t.decisions + [Decision(c.required, c.pool, c.chosen, a.sched.now)],
         stamps := t.stamps + [Service.StampsOf(s.db)])
    else t
  }

  function Observed(ss: seq<State>, actions: seq<Action>, ls: seq<Listing>, n: nat): Trace
    requires |ss| == |actions| + 1 && |ls| == |actions| && n < |ss|
  {
    if n == 0 then Trace([], [], None)
    else Observe(Observed(ss, actions, ls, n - 1), ss[n - 1], actions[n - 1], ls[n - 1])
  }

  /** A run in which Schedule makes the choices. */
  ghost predicate Scheduled(ss: seq<State>, actions: seq<Action>, ls: seq<Listing>) {
    && IsRun(ss, actions) && |ls| == |actions|
    && forall i {:trigger ls[i]} :: 0 <= i < |ls| ==> ByPolicy(ss[i], actions[i], ls[i])
  }

  /** ts lists the traces at all points. */
  ghost predicate Records(ts: seq<Trace>, ss: seq<State>, actions: seq<Action>, ls: seq<Listing>)
    requires |ss| == |actions| + 1 && |ls| == |actions|
  {
    && |ts| == |ss|
    && ts[0] == Trace([], [], None)
    && forall i {:trigger ls[i]} :: 0 <= i < |ls| ==> ts[i + 1] == Observe(ts[i], ss[i], actions[i], ls[i])
  }

  lemma RecordExists(ss: seq<State>, actions: seq<Action>, ls: seq<Listing>) returns (ts: seq<Trace>)
    requires |ss| == |actions| + 1 && |ls| == |actions|
    ensures Records(ts, ss, actions, ls) && forall n :: 0 <= n < |ss| ==> ts[n] == Observed(ss, actions, ls, n)
  {
    ts := [Trace([], [], None)];
    for n := 0 to |ls|
      invariant |ts| == n + 1 && ts[0] == Trace([], [], None)
      invariant forall i {:trigger ls[i]} :: 0 <= i < n ==> ts[i + 1] == Observe(ts[i], ss[i], actions[i], ls[i])
      invariant forall i :: 0 <= i <= n ==> ts[i] == Observed(ss, actions, ls, i)
    {
      ts := ts + [Observe(ts[n], ss[n], actions[n], ls[n])];
    }
  }

  // ---------- they are consistent ----------

  /** The rows that the scheduler chose from still carry the stamps it saw. */
  ghost predicate ChoiceFits(s: State, c: Option<Choice>) {
    ChoicePending(s.sched) ==>
      && c.Some? && c.value.chosen.id == s.sched.runner
      && IsBest(c.value.required, c.value.pool, Some(c.value.chosen))
      && StampsSeen(s.db, c.value.pool)
  }

  ghost predicate StampsSeen(db: Db, pool: seq<Candidate>) {
    forall c :: c in pool ==> c.id in Service.StampsOf(db) && Service.StampsOf(db)[c.id] == c.row.lastAssigned
  }

  ghost predicate Fits(s: State, t: Trace) {
    && Consistent(t.decisions, t.stamps + [Service.StampsOf(s.db)])
    && ChoiceFits(s, t.choice)
  }

  /** Between two commits stamps only grow by unstamped rows. */
  lemma QuietConsistent(ds: seq<Decision>, stamps: seq<Stamps>, x: Stamps, y: Stamps)
    requires Consistent(ds, stamps + [x]) && Service.StampsGrow(x, y)
    ensures Consistent(ds, stamps + [y])
  {
    var before, after := stamps + [x], stamps + [y];
    forall i | 0 <= i < |ds| ensures Stamped(after[i], ds[i], after[i + 1]) {
      assert Stamped(before[i], ds[i], before[i + 1]);
    }
    forall i, c | 0 <= i < |ds| && c in ds[i].pool ensures c.id in after[i] && after[i][c.id] == c.row.lastAssigned {
      assert c.id in before[i];
    }
  }

  lemma CommitConsistent(ds: seq<Decision>, stamps: seq<Stamps>, x: Stamps, d: Decision, y: Stamps)
    requires Consistent(ds, stamps + [x])
    requires forall e :: e in ds ==> e.now <= d.now
    requires forall c :: c in d.pool ==> c.id in x && x[c.id] == c.row.lastAssigned
    requires IsBest(d.required, d.pool, Some(d.chosen)) && Stamped(x, d, y)
    ensures Consistent(ds + [d], stamps + [x] + [y])
  {
    var before, after, all := stamps + [x], stamps + [x] + [y], ds + [d];
    assert forall i :: 0 <= i <= |ds| ==> after[i] == before[i];
    forall i | 0 <= i < |all| ensures Stamped(after[i], all[i], after[i + 1]) {
      assert i < |ds| ==> Stamped(before[i], ds[i], before[i + 1]);
    }
    forall i, c | 0 <= i < |all| && c in all[i].pool ensures c.id in after[i] && after[i][c.id] == c.row.lastAssigned {
      assert i < |ds| ==> c in ds[i].pool;
    }
  }

  lemma StampsOfStep(s: State, a: Action)
    requires AllChecked(s) && !Commits(s, a)
    ensures Service.StampsGrow(Service.StampsOf(s.db), Service.StampsOf(Next(s, a).db))
  {
    StepIsLegal(s, a);
    var st := StatementAt(s, a);
    if st.Some? {
      Service.StampsFollow(s.db, st.value);
    }
  }

  predicate ChoicePending(pc: SchedPc) {
    pc.Reading? || pc.Committing?
  }

  lemma ReadingFrom(s: State, a: SchedAction)
    requires SchedNext(s, a).sched.Reading?
    ensures a.Choose? || SchedNext(s, a).sched == s.sched
  {
  }

  lemma SchedChoiceFrom(s: State, a: SchedAction)
    requires ChoicePending(SchedNext(s, a).sched)
    ensures Chooses(s, Sched(a)) ==> SchedNext(s, a).sched.runner == a.pick.value
    ensures !Chooses(s, Sched(a)) ==> ChoicePending(s.sched) && s.sched.runner == SchedNext(s, a).sched.runner
    ensures !Commits(s, Sched(a))
  {
    if SchedNext(s, a).sched.Reading? {
      ReadingFrom(s, a);
    } else {
      CommittingFrom(s, a);
    }
  }

  lemma OthersKeepChoice(s: State, a: Action)
    requires !a.Sched? && ChoicePending(Next(s, a).sched)
    ensures Next(s, a).sched == s.sched
  {
    match a
    case Api(api) => HandlersKeepSched(s, api);
    case Agent(r, agent) => AgentsKeepSched(s, r, agent);
    case _ =>
  }

  /** How the scheduler gets to a choice it has yet to commit. */
  lemma ChoiceFrom(s: State, a: Action)
    requires ChoicePending(Next(s, a).sched)
    ensures Chooses(s, a) ==> Next(s, a).sched.runner == a.sched.pick.value
    ensures !Chooses(s, a) ==> ChoicePending(s.sched) && s.sched.runner == Next(s, a).sched.runner
    ensures !Commits(s, a)
  {
    if a.Sched? {
      SchedChoiceFrom(s, a.sched);
    } else {
      OthersKeepChoice(s, a);
    }
  }

  lemma ChoiceStep(s: State, t: Trace, a: Action, l: Listing)
    requires AllChecked(s) && ChoiceFits(s, t.choice) && ByPolicy(s, a, l)
    ensures ChoiceFits(Next(s, a), Observe(t, s, a, l).choice)
  {
    var u := Next(s, a);
    if ChoicePending(u.sched) {
      ChoiceFrom(s, a);
      StampsOfStep(s, a);
      var c := Observe(t, s, a, l).choice.value;
      assert StampsSeen(s.db, c.pool);
    }
  }

  lemma CommitStep(s: State, t: Trace, a: Action, l: Listing)
    requires Commits(s, a) && Fits(s, t)
    requires forall d :: d in t.decisions ==> d.now <= a.sched.now
    ensures
      var (u, t') := (Next(s, a), Observe(t, s, a, l));
      Consistent(t'.decisions, t'.stamps + [Service.StampsOf(u.db)])
  {
    var c := t.choice.value;
    var d, x, y := Decision(c.required, c.pool, c.chosen, a.sched.now), Service.StampsOf(s.db), Service.StampsOf(Next(s, a).db);
    Service.StampsFollow(s.db, Tables.Assign(s.sched.job, s.sched.runner, s.sched.from, a.sched.now));
    assert Stamped(x, d, y);
    CommitConsistent(t.decisions, t.stamps, x, d, y);
  }

  lemma StepFits(s: State, t: Trace, a: Action, l: Listing)
    requires AllChecked(s) && Fits(s, t) && ByPolicy(s, a, l)
    requires Commits(s, a) ==> forall d :: d in t.decisions ==> d.now <= a.sched.now
    ensures Fits(Next(s, a), Observe(t, s, a, l))
  {
    ChoiceStep(s, t, a, l);
    if Commits(s, a) {
      CommitStep(s, t, a, l);
    } else {
      StampsOfStep(s, a);
      QuietConsistent(t.decisions, t.stamps, Service.StampsOf(s.db), Service.StampsOf(Next(s, a).db));
    }
  }

  lemma {:induction false} NowsAreCommits(ss: seq<State>, actions: seq<Action>, ls: seq<Listing>, ts: seq<Trace>, n: nat, m: nat)
    returns (i: nat)
    requires |ss| == |actions| + 1 && |ls| == |actions| && n < |ss| && Records(ts, ss, actions, ls)
    requires m < |ts[n].decisions|
    ensures i < n && Commits(ss[i], actions[i]) && actions[i].sched.now == ts[n].decisions[m].now
  {
    assert ts[n] == Observe(ts[n - 1], ss[n - 1], actions[n - 1], ls[n - 1]);
    if m < |ts[n - 1].decisions| {
      i := NowsAreCommits(ss, actions, ls, ts, n - 1, m);
    } else {
      i := n - 1;
    }
  }

  lemma NowsBounded(ss: seq<State>, actions: seq<Action>, ls: seq<Listing>, ts: seq<Trace>, n: nat)
    requires |ss| == |actions| + 1 && |ls| == |actions| && n < |actions| && Records(ts, ss, actions, ls)
    requires ClockAdvances(ss, actions) && Commits(ss[n], actions[n])
    ensures forall d :: d in ts[n].decisions ==> d.now <= actions[n].sched.now
  {
    var ds := ts[n].decisions;
    forall m | 0 <= m < |ds| ensures ds[m].now <= actions[n].sched.now {
      var i := NowsAreCommits(ss, actions, ls, ts, n, m);
    }
  }

  lemma FitsNext(ss: seq<State>, actions: seq<Action>, ls: seq<Listing>, ts: seq<Trace>, n: nat)
    requires Scheduled(ss, actions, ls) && Records(ts, ss, actions, ls) && ClockAdvances(ss, actions) && n < |actions|
    requires Fits(ss[n], ts[n])
    ensures Fits(ss[n + 1], ts[n + 1])
  {
    AlwaysChecked(ss, actions, n);
    if Commits(ss[n], actions[n]) {
      NowsBounded(ss, actions, ls, ts, n);
    }
    StepFits(ss[n], ts[n], actions[n], ls[n]);
  }

  lemma {:induction false} RecordsFit(ss: seq<State>, actions: seq<Action>, ls: seq<Listing>, ts: seq<Trace>, n: nat)
    requires Scheduled(ss, actions, ls) && Records(ts, ss, actions, ls) && ClockAdvances(ss, actions) && n < |ss|
    ensures Fits(ss[n], ts[n])
  {
    if n > 0 {
      RecordsFit(ss, actions, ls, ts, n - 1);
      FitsNext(ss, actions, ls, ts, n - 1);
    }
  }

  lemma CommitObserved(s: State, t: Trace, a: Action, l: Listing)
    requires Commits(s, a) && ChoiceFits(s, t.choice)
    ensures
      var ds, m := Observe(t, s, a, l).decisions, |t.decisions|;
      |ds| == m + 1 && ds[..m] == t.decisions && ds[m].now == a.sched.now && ds[m].chosen.id == s.sched.runner
  {
  }

  lemma {:induction false} ChoiceHolds(ss: seq<State>, actions: seq<Action>, ls: seq<Listing>, ts: seq<Trace>, n: nat)
    requires Scheduled(ss, actions, ls) && Records(ts, ss, actions, ls) && n < |ss|
    ensures ChoiceFits(ss[n], ts[n].choice)
  {
    if n > 0 {
      ChoiceHolds(ss, actions, ls, ts, n - 1);
      AlwaysChecked(ss, actions, n - 1);
      ChoiceStep(ss[n - 1], ts[n - 1], actions[n - 1], ls[n - 1]);
    }
  }

  lemma CommitCounts(ss: seq<State>, actions: seq<Action>, ls: seq<Listing>, ts: seq<Trace>, i: nat)
    requires Scheduled(ss, actions, ls) && Records(ts, ss, actions, ls) && i < |actions| && Commits(ss[i], actions[i])
    ensures
      var ds, m := ts[i + 1].decisions, |ts[i].decisions|;
      m < |ds| && ds[m].now == actions[i].sched.now && ds[m].chosen.id == ss[i].sched.runner
  {
    ChoiceHolds(ss, actions, ls, ts, i);
    CommitObserved(ss[i], ts[i], actions[i], ls[i]);
  }

  lemma ObserveKeeps(t: Trace, s: State, a: Action, l: Listing)
    ensures t.decisions <= Observe(t, s, a, l).decisions
  {
  }

  lemma {:induction false} DecisionsKept(ss: seq<State>, actions: seq<Action>, ls: seq<Listing>, ts: seq<Trace>, i: nat, n: nat)
    requires |ss| == |actions| + 1 && |ls| == |actions| && i <= n < |ss| && Records(ts, ss, actions, ls)
    ensures ts[i].decisions <= ts[n].decisions
    decreases n
  {
    if i < n {
      DecisionsKept(ss, actions, ls, ts, i, n - 1);
      ObserveKeeps(ts[n - 1], ss[n - 1], actions[n - 1], ls[n - 1]);
    }
  }

  lemma EveryCommitRecorded(ss: seq<State>, actions: seq<Action>, ls: seq<Listing>, ts: seq<Trace>, i: nat, n: nat)
    requires Scheduled(ss, actions, ls) && Records(ts, ss, actions, ls) && i < n < |ss| && Commits(ss[i], actions[i])
    ensures
      var ds, m := ts[n].decisions, |ts[i].decisions|;
      m < |ds| && ds[m].now == actions[i].sched.now && ds[m].chosen.id == ss[i].sched.runner
  {
    CommitCounts(ss, actions, ls, ts, i);
    DecisionsKept(ss, actions, ls, ts, i + 1, n);
    var before, after := ts[i + 1].decisions, ts[n].decisions;
    assert before <= after;
  }

  // ---------- the bound ----------

  lemma SpanConsistent(ds: seq<Decision>, stamps: seq<Stamps>, a: nat, b: nat)
    requires Consistent(ds, stamps) && a <= b <= |ds|
    ensures Consistent(ds[a..b], stamps[a..b + 1])
  {
    var span, stamps' := ds[a..b], stamps[a..b + 1];
    forall i | 0 <= i < |span| ensures Stamped(stamps'[i], span[i], stamps'[i + 1]) {
      assert Stamped(stamps[a + i], ds[a + i], stamps[a + i + 1]);
    }
  }

  lemma {:induction false} RowsRemain(ds: seq<Decision>, stamps: seq<Stamps>, b: nat, k: nat)
    requires Consistent(ds, stamps) && b <= k <= |ds|
    ensures stamps[b].Keys <= stamps[k].Keys
    decreases k
  {
    if b < k {
      RowsRemain(ds, stamps, b, k - 1);
      assert Stamped(stamps[k - 1], ds[k - 1], stamps[k]);
    }
  }

  lemma {:induction false} SubsetSize(a: set<RunnerId>, b: set<RunnerId>)
    requires a <= b
    ensures |a| <= |b|
    decreases a
  {
    if x :| x in a {
      SubsetSize(a - {x}, b - {x});
    }
  }

  lemma SpanCounted(ds: seq<Decision>, stamps: seq<Stamps>, a: nat, b: nat, r: RunnerId)
    requires Consistent(ds, stamps) && a <= b <= |ds|
    requires Bypassed(ds[a..b], r) && Behind(ds[a..b], stamps[a..b + 1], r)
    ensures b - a <= |stamps[b].Keys - {r}|
  {
    SpanConsistent(ds, stamps, a, b);
    var span, stamps' := ds[a..b], stamps[a..b + 1];
    BypassBounded(span, stamps', r);
    assert |span| == b - a && stamps'[b - a] == stamps[b];
  }

  lemma SpanBounded(ds: seq<Decision>, stamps: seq<Stamps>, a: nat, b: nat, r: RunnerId)
    requires Consistent(ds, stamps) && a <= b <= |ds|
    requires Bypassed(ds[a..b], r) && Behind(ds[a..b], stamps[a..b + 1], r)
    ensures b - a <= |stamps[|ds|].Keys - {r}|
  {
    SpanCounted(ds, stamps, a, b, r);
    RowsRemain(ds, stamps, b, |ds|);
    SubsetSize(stamps[b].Keys - {r}, stamps[|ds|].Keys - {r});
  }

  /** From decision a up to b, r is eligible and never chosen; before, it was last assigned in
      an earlier tick than that of decision a, or never. */
  ghost predicate PassedOver(t: Trace, a: nat, b: nat, r: RunnerId)
    requires a <= b <= |t.decisions|
  {
    && Bypassed(t.decisions[a..b], r)
    && (a < b && a < |t.stamps| && r in t.stamps[a] && t.stamps[a][r].Some? ==>
          t.stamps[a][r].value < t.decisions[a].now)
  }

  lemma TraceBounded(s: State, t: Trace, a: nat, b: nat, r: RunnerId)
    requires Fits(s, t) && a <= b <= |t.decisions| && PassedOver(t, a, b, r)
    ensures b - a <= |s.db.runners.Keys - {r}|
  {
    var last := Service.StampsOf(s.db);
    assert a < b ==> (t.stamps + [last])[a] == t.stamps[a];
    assert |t.stamps + [last]| == |t.decisions| + 1;
    SpanBounded(t.decisions, t.stamps + [last], a, b, r);
    assert last.Keys == s.db.runners.Keys;
  }

  /** Along every run of the whole system in which Schedule makes the choices and the
      clock does not run backwards, the committed assignments are what the fairness bound
      asks for: each pool shows the stamps that are in the table when the assignment
      commits, whatever ran between listing and commit. */
  lemma RunsAreConsistent(ss: seq<State>, actions: seq<Action>, ls: seq<Listing>, n: nat)
    requires Scheduled(ss, actions, ls) && ClockAdvances(ss, actions) && n < |ss|
    ensures Fits(ss[n], Observed(ss, actions, ls, n))
  {
    var ts := RecordExists(ss, actions, ls);
    RecordsFit(ss, actions, ls, ts, n);
  }

  /** Every committed assignment is one of the decisions. */
  lemma EveryCommitCounts(ss: seq<State>, actions: seq<Action>, ls: seq<Listing>, i: nat, n: nat)
    requires Scheduled(ss, actions, ls) && i < n < |ss| && Commits(ss[i], actions[i])
    ensures
      var ds, m := Observed(ss, actions, ls, n).decisions, |Observed(ss, actions, ls, i).decisions|;
      m < |ds| && ds[m].now == actions[i].sched.now && ds[m].chosen.id == ss[i].sched.runner
  {
    var ts := RecordExists(ss, actions, ls);
    EveryCommitRecorded(ss, actions, ls, ts, i, n);
  }

  lemma RecordBounded(ss: seq<State>, actions: seq<Action>, ls: seq<Listing>, ts: seq<Trace>, n: nat, a: nat, b: nat, r: RunnerId)
    requires Scheduled(ss, actions, ls) && Records(ts, ss, actions, ls) && ClockAdvances(ss, actions) && n < |ss|
    requires a <= b <= |ts[n].decisions| && PassedOver(ts[n], a, b, r)
    ensures b - a <= |ss[n].db.runners.Keys - {r}|
  {
    RecordsFit(ss, actions, ls, ts, n);
    TraceBounded(ss[n], ts[n], a, b, r);
  }

  /** In every such run, over any stretch of consecutive assignments at each of which r was
      an eligible candidate and was passed over, there are at most as many assignments as
      there are other runners. */
  lemma BypassBoundedInRuns(ss: seq<State>, actions: seq<Action>, ls: seq<Listing>, n: nat, a: nat, b: nat, r: RunnerId)
    requires Scheduled(ss, actions, ls) && ClockAdvances(ss, actions) && n < |ss|
    requires a <= b <= |Observed(ss, actions, ls, n).decisions| && PassedOver(Observed(ss, actions, ls, n), a, b, r)
    ensures b - a <= |ss[n].db.runners.Keys - {r}|
  {
    var ts := RecordExists(ss, actions, ls);
    RecordBounded(ss, actions, ls, ts, n, a, b, r);
  }
}
