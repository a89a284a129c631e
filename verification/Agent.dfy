/** The runner agent: one thread that executes deliveries and one that sends heartbeats
    (internal/runner/agent.go:131-168, 205-316, 337-370). */
module Agent {
  import opened Models

  // ---------- the two threads ----------

  /** A delivery is identified by its number, as an activeJob is by its address. */
  datatype Delivery = Delivery(job: JobId, abandoned: bool, cancelled: bool)

  datatype ExecPc =
    | Polling
    | Activating(k: nat)     // setActive
    | Starting(k: nat)       // POST start
    | CheckingOut(k: nat)
    | Parsing(k: nat)
    | Executing(k: nat)
    | Clearing(k: nat)       // clearActive after Execute
    | Checking(k: nat)       // abandoned.Load
    | Reporting(k: nat)      // POST result
    | Leaving(k: nat)        // deferred clearActive

  datatype BeatPc =
    | Sleeping
    | Requesting(target: Option<nat>)
    | Marking(k: nat)        // abandoned.Store(true)
    | Cancelling(k: nat)     // job.cancel()

  /** The last four fields only record what has happened. */
  datatype State = State(
    deliveries: seq<Delivery>,
    active: Option<nat>,
    exec: ExecPc,
    beat: BeatPc,
    named: set<nat>,        // deliveries that a heartbeat request has named
    revoked: set<nat>,      // deliveries whose heartbeat was answered with cancel
    posted: seq<nat>,       // results posted
    seenMarked: set<nat>)   // deliveries whose abandoned check found the flag set

  const INIT := State([], None, Polling, Sleeping, {}, {}, [], {})

  datatype Reply = Keep | Revoke | Lost

  datatype Action =
    | Deliver(job: JobId)
    | Exec(ok: bool)         // the next statement of execute; `ok` is the outcome of a foreign call
    | Capture                // the timer fires, currentJob() is read and the request is sent
    | Answer(reply: Reply)
    | Beat                   // the next statement after a cancel reply

  function Next(s: State, a: Action): State {
    match a
    case Deliver(job) =>
      if !s.exec.Polling? then s
      else s.(deliveries := s.deliveries + [Delivery(job, false, false)], exec := Activating(|s.deliveries|))
    case Exec(ok) => ExecNext(s, ok)
    case Capture =>
      if !s.beat.Sleeping? then s
      else s.(beat := Requesting(s.active), named := if s.active.Some? then s.named + {s.active.value} else s.named)
    case Answer(reply) =>
      if !s.beat.Requesting? then s
      else if reply == Revoke && s.beat.target.Some? then
        s.(beat := Marking(s.beat.target.value), revoked := s.revoked + {s.beat.target.value})
      else s.(beat := Sleeping)
    case Beat => BeatNext(s)
  }

  function Cleared(s: State, k: nat): Option<nat> {
    if s.active == Some(k) then None else s.active
  }

  function ExecNext(s: State, ok: bool): State {
    match s.exec
    case Polling => s
    case Activating(k) => s.(active := Some(k), exec := Starting(k))
    case Starting(k) => s.(exec := if ok then CheckingOut(k) else Leaving(k))
    case CheckingOut(k) => s.(exec := if ok then Parsing(k) else Checking(k))
    case Parsing(k) => s.(exec := if ok then Executing(k) else Reporting(k)) // a bad spec is reported unchecked
    case Executing(k) => s.(exec := Clearing(k))
    case Clearing(k) => s.(active := Cleared(s, k), exec := Checking(k))
    case Checking(k) =>
      if k < |s.deliveries| && s.deliveries[k].abandoned
      then s.(exec := Leaving(k), seenMarked := s.seenMarked + {k})
      else s.(exec := Reporting(k))
    case Reporting(k) => s.(exec := Leaving(k), posted := s.posted + [k])
    case Leaving(k) => s.(active := Cleared(s, k), exec := Polling)
  }

  function BeatNext(s: State): State {
    match s.beat
    case Marking(k) =>
      if k < |s.deliveries|
      then s.(deliveries := s.deliveries[k := s.deliveries[k].(abandoned := true)], beat := Cancelling(k)) else s
    case Cancelling(k) =>
      if k < |s.deliveries|
      then s.(deliveries := s.deliveries[k := s.deliveries[k].(cancelled := true)], beat := Sleeping) else s
    case _ => s
  }

  ghost predicate IsRun(ss: seq<State>, actions: seq<Action>) {
    && |ss| == |actions| + 1
    && ss[0] == INIT
    && forall i {:trigger actions[i]} :: 0 <= i < |actions| ==> ss[i + 1] == Next(ss[i], actions[i])
  }

  // ---------- the invariant ----------

  /** The executing thread works on the newest delivery, and only that can be active. */
  ghost predicate ExecFits(s: State) {
    && (!s.exec.Polling? ==> s.exec.k + 1 == |s.deliveries|)
    && (s.active.Some? ==> !s.exec.Polling? && !s.exec.Activating? && s.active.value == s.exec.k)
  }

  /** A delivery is marked, and then cancelled, only after a cancel reply to a heartbeat that named it. */
  ghost predicate BeatFits(s: State) {
    && (forall k :: k in s.named ==> k < |s.deliveries|)
    && s.revoked <= s.named
    && (s.beat.Requesting? && s.beat.target.Some? ==> s.beat.target.value in s.named)
    && (s.beat.Marking? || s.beat.Cancelling? ==> s.beat.k in s.revoked)
    && (s.beat.Cancelling? ==> s.beat.k < |s.deliveries| && s.deliveries[s.beat.k].abandoned)
    && forall k :: 0 <= k < |s.deliveries| ==>
      (s.deliveries[k].abandoned ==> k in s.revoked) && (s.deliveries[k].cancelled ==> s.deliveries[k].abandoned)
  }

  /** Results are posted once per delivery, and not after a check that found the mark. */
  ghost predicate PostsFit(s: State) {
    && (forall i, j :: 0 <= i < j < |s.posted| ==> s.posted[i] != s.posted[j])
    && (forall k :: k in s.posted || k in s.seenMarked ==> k < |s.deliveries|)
    && (forall k :: k in s.posted ==> k !in s.seenMarked)
    && (!s.exec.Polling? && !s.exec.Leaving? ==> s.exec.k !in s.posted && s.exec.k !in s.seenMarked)
  }

  ghost predicate Inv(s: State) {
    ExecFits(s) && BeatFits(s) && PostsFit(s)
  }

  lemma ExecKeepsExec(s: State, ok: bool)
    requires Inv(s)
    ensures ExecFits(ExecNext(s, ok))
  {
  }

  lemma ExecKeepsPosts(s: State, ok: bool)
    requires Inv(s)
    ensures PostsFit(ExecNext(s, ok))
  {
  }

  lemma ExecKeeps(s: State, ok: bool)
    requires Inv(s)
    ensures Inv(ExecNext(s, ok))
  {
    ExecKeepsExec(s, ok);
    ExecKeepsPosts(s, ok);
    var t := ExecNext(s, ok);
    assert t == s.(active := t.active, exec := t.exec, posted := t.posted, seenMarked := t.seenMarked);
  }

  lemma StepKeeps(s: State, a: Action)
    requires Inv(s)
    ensures Inv(Next(s, a))
  {
    if a.Exec? {
      ExecKeeps(s, a.ok);
    }
  }

  lemma {:induction false} InvHolds(ss: seq<State>, actions: seq<Action>, i: nat)
    requires IsRun(ss, actions) && i < |ss|
    ensures Inv(ss[i])
  {
    if i > 0 {
      InvHolds(ss, actions, i - 1);
      StepKeeps(ss[i - 1], actions[i - 1]);
    }
  }

  /** Over unboundedly many jobs and every interleaving: a delivery's context is cancelled
      by the heartbeat thread only after a cancel reply to a heartbeat that named it, each
      delivery posts at most one result, and none if its abandoned check found the mark. */
  lemma AgentSafe(ss: seq<State>, actions: seq<Action>, i: nat, k: nat)
    requires IsRun(ss, actions) && i < |ss| && k < |ss[i].deliveries|
    ensures ss[i].deliveries[k].cancelled ==> ss[i].deliveries[k].abandoned && k in ss[i].revoked && k in ss[i].named
    ensures multiset(ss[i].posted)[k] <= 1
    ensures k in ss[i].seenMarked ==> k !in ss[i].posted
  {
    InvHolds(ss, actions, i);
    AtMostOnce(ss[i].posted, k);
  }

  lemma {:induction false} AtMostOnce(posted: seq<nat>, k: nat)
    requires forall i, j :: 0 <= i < j < |posted| ==> posted[i] != posted[j]
    ensures multiset(posted)[k] <= 1
    decreases |posted|
  {
    if posted != [] {
      var n := |posted| - 1;
      AtMostOnce(posted[..n], k);
      assert posted == posted[..n] + [posted[n]];
      if posted[n] == k {
        assert k !in posted[..n];
        assert k !in multiset(posted[..n]);
      }
    }
  }

  /** A reply that arrives late touches nothing but the delivery it was captured for, not
      even if the same job has been delivered again in between. */
  lemma LateReplyIsHarmless(s: State, a: Action, k: nat)
    requires !a.Exec? && !a.Deliver? && k < |s.deliveries|
    requires (s.beat.Marking? || s.beat.Cancelling?) ==> s.beat.k != k
    ensures |Next(s, a).deliveries| == |s.deliveries| && Next(s, a).deliveries[k] == s.deliveries[k]
    ensures Next(s, a).active == s.active && Next(s, a).exec == s.exec && Next(s, a).posted == s.posted
  {
  }

  /** clearActive for one delivery, however late, leaves the entry of any other alone. */
  lemma LateClearIsHarmless(s: State, k: nat, q: nat)
    requires s.active == Some(q)
    ensures Cleared(s, k) == if q == k then None else Some(q)
  {
  }

  /** Once marked, always marked: a check that runs later finds the mark. */
  lemma {:induction false} MarkStays(ss: seq<State>, actions: seq<Action>, i: nat, j: nat, k: nat)
    requires IsRun(ss, actions) && i <= j < |ss| && k < |ss[i].deliveries| && ss[i].deliveries[k].abandoned
    ensures k < |ss[j].deliveries| && ss[j].deliveries[k].abandoned
    decreases j
  {
    if i < j {
      MarkStays(ss, actions, i, j - 1, k);
      assert ss[j] == Next(ss[j - 1], actions[j - 1]);
    }
  }

  /** A delivery that was marked before an abandoned check it reaches never posts a result,
      before the check or ever after. */
  lemma MarkedNeverPosts(ss: seq<State>, actions: seq<Action>, i: nat, j: nat, n: nat, k: nat, ok: bool)
    requires IsRun(ss, actions) && i <= j < n < |ss| && k < |ss[i].deliveries| && ss[i].deliveries[k].abandoned
    requires ss[j].exec == Checking(k) && actions[j] == Exec(ok)
    ensures k !in ss[n].posted
  {
    MarkStays(ss, actions, i, j, k);
    assert k in ss[j + 1].seenMarked;
    SeenStays(ss, actions, j + 1, n, k);
    InvHolds(ss, actions, n);
  }

  lemma {:induction false} SeenStays(ss: seq<State>, actions: seq<Action>, j: nat, n: nat, k: nat)
    requires IsRun(ss, actions) && j <= n < |ss| && k in ss[j].seenMarked
    ensures k in ss[n].seenMarked
    decreases n
  {
    if j < n {
      SeenStays(ss, actions, j, n - 1, k);
      assert ss[n] == Next(ss[n - 1], actions[n - 1]);
    }
  }

  // ---------- exactly when a result is posted ----------

  predicate StartAccepted(s: State, a: Action, k: nat) {
    s.exec == Starting(k) && a == Exec(true)
  }

  /** The build definition cannot be read. */
  predicate SpecUnreadable(s: State, a: Action, k: nat) {
    s.exec == Parsing(k) && a == Exec(false)
  }

  predicate Marked(s: State, k: nat) {
    k < |s.deliveries| && s.deliveries[k].abandoned
  }

  predicate CheckRuns(s: State, a: Action, k: nat) {
    s.exec == Checking(k) && a.Exec?
  }

  /** What has happened to one delivery so far. */
  datatype Trace = Trace(accepted: bool, unreadable: bool, clean: bool, caught: bool)

  ghost function TraceOf(ss: seq<State>, actions: seq<Action>, n: nat, k: nat): Trace
    requires |ss| == |actions| + 1 && n < |ss|
  {
    Trace(exists i :: 0 <= i < n && StartAccepted(ss[i], actions[i], k),
          exists i :: 0 <= i < n && SpecUnreadable(ss[i], actions[i], k),
          exists i :: 0 <= i < n && CheckRuns(ss[i], actions[i], k) && !Marked(ss[i], k),
          exists i :: 0 <= i < n && CheckRuns(ss[i], actions[i], k) && Marked(ss[i], k))
  }

  function Extended(t: Trace, s: State, a: Action, k: nat): Trace {
    Trace(t.accepted || StartAccepted(s, a, k),
          t.unreadable || SpecUnreadable(s, a, k),
          t.clean || (CheckRuns(s, a, k) && !Marked(s, k)),
          t.caught || (CheckRuns(s, a, k) && Marked(s, k)))
  }

  lemma TraceGrows(ss: seq<State>, actions: seq<Action>, n: nat, k: nat)
    requires |ss| == |actions| + 1 && n + 1 < |ss|
    ensures TraceOf(ss, actions, n + 1, k) == Extended(TraceOf(ss, actions, n, k), ss[n], actions[n], k)
  {
  }

  /** `execute` has returned from delivery k. */
  predicate Over(s: State, k: nat) {
    k < |s.deliveries| && (s.exec.Polling? || s.exec.k != k)
  }

  /** What the program counter says about the past of delivery k. */
  ghost predicate TraceFits(s: State, k: nat, t: Trace) {
    if k >= |s.deliveries| || s.exec == Activating(k) || s.exec == Starting(k) then
      k !in s.posted && t == Trace(false, false, false, false)
    else if Over(s, k) || s.exec == Leaving(k) then
      (k in s.posted <==> t.accepted && !t.caught) && (k in s.posted <==> t.unreadable || t.clean)
    else
      k !in s.posted && t.accepted && !t.caught && (t.unreadable || t.clean <==> s.exec == Reporting(k))
  }

  lemma TraceStep(s: State, a: Action, k: nat, t: Trace)
    requires Inv(s) && TraceFits(s, k, t)
    ensures TraceFits(Next(s, a), k, Extended(t, s, a, k))
  {
  }

  lemma {:induction false} TraceHolds(ss: seq<State>, actions: seq<Action>, n: nat, k: nat)
    requires IsRun(ss, actions) && n < |ss|
    ensures TraceFits(ss[n], k, TraceOf(ss, actions, n, k))
  {
    if n > 0 {
      TraceHolds(ss, actions, n - 1, k);
      InvHolds(ss, actions, n - 1);
      TraceGrows(ss, actions, n - 1, k);
      TraceStep(ss[n - 1], actions[n - 1], k, TraceOf(ss, actions, n - 1, k));
    }
  }

  /** A delivery that is over has posted a result exactly when its start was accepted and
      no abandoned check of it found the mark. */
  lemma PostsExactly(ss: seq<State>, actions: seq<Action>, n: nat, k: nat)
    requires IsRun(ss, actions) && n < |ss| && Over(ss[n], k)
    ensures k in ss[n].posted <==>
      && (exists i :: 0 <= i < n && StartAccepted(ss[i], actions[i], k))
      && !exists i :: 0 <= i < n && CheckRuns(ss[i], actions[i], k) && Marked(ss[i], k)
  {
    TraceHolds(ss, actions, n, k);
  }

  lemma MarkedFrom(ss: seq<State>, actions: seq<Action>, m: nat, i: nat, k: nat)
    requires IsRun(ss, actions) && 0 < m < |ss| && i < |ss|
    requires Marked(ss[m], k) && !Marked(ss[m - 1], k)
    ensures Marked(ss[i], k) <==> m <= i
  {
    if m <= i {
      MarkStays(ss, actions, m, i, k);
    } else if Marked(ss[i], k) {
      MarkStays(ss, actions, i, m - 1, k);
    }
  }

  /** So a delivery that is marked at m, and not before, posts a result exactly when its
      build definition was unreadable or its check ran before the mark. */
  lemma MarkedPostsExactly(ss: seq<State>, actions: seq<Action>, m: nat, n: nat, k: nat)
    requires IsRun(ss, actions) && 0 < m <= n < |ss| && Over(ss[n], k)
    requires Marked(ss[m], k) && !Marked(ss[m - 1], k)
    ensures k in ss[n].posted <==>
      || (exists i :: 0 <= i < n && SpecUnreadable(ss[i], actions[i], k))
      || (exists i :: 0 <= i < m && CheckRuns(ss[i], actions[i], k))
  {
    TraceHolds(ss, actions, n, k);
    var t := TraceOf(ss, actions, n, k);
    assert k in ss[n].posted <==> t.unreadable || t.clean;
    if t.clean {
      var i :| 0 <= i < n && CheckRuns(ss[i], actions[i], k) && !Marked(ss[i], k);
      MarkedFrom(ss, actions, m, i, k);
    }
    if i :| 0 <= i < m && CheckRuns(ss[i], actions[i], k) {
      MarkedFrom(ss, actions, m, i, k);
    }
  }

  // ---------- what comes before a result ----------

  predicate CheckoutFails(s: State, a: Action, k: nat) {
    s.exec == CheckingOut(k) && a == Exec(false)
  }

  /** The build runs in its container. */
  predicate Executes(s: State, a: Action, k: nat) {
    s.exec == Executing(k) && a.Exec?
  }

  datatype Work = Work(checkoutFailed: bool, executed: bool)

  ghost function WorkOn(ss: seq<State>, actions: seq<Action>, n: nat, k: nat): Work
    requires |ss| == |actions| + 1 && n < |ss|
  {
    Work(exists i :: 0 <= i < n && CheckoutFails(ss[i], actions[i], k),
         exists i :: 0 <= i < n && Executes(ss[i], actions[i], k))
  }

  predicate BeforeWork(s: State, k: nat) {
    || k >= |s.deliveries| || s.exec == Activating(k) || s.exec == Starting(k)
    || s.exec == CheckingOut(k) || s.exec == Parsing(k) || s.exec == Executing(k)
  }

  /** A check follows a failed checkout or an execution, and never both; once the build has
      been executed and the entry cleared, the delivery is not active again. */
  ghost predicate WorkFits(s: State, k: nat, w: Work) {
    && (s.exec == Checking(k) ==> w.checkoutFailed != w.executed)
    && (s.exec == Clearing(k) ==> w.executed && !w.checkoutFailed)
    && (BeforeWork(s, k) ==> !w.executed && !w.checkoutFailed)
    && (w.executed && s.exec != Clearing(k) ==> s.active != Some(k))
  }

  lemma WorkStep(s: State, a: Action, k: nat, w: Work)
    requires Inv(s) && WorkFits(s, k, w)
    ensures WorkFits(Next(s, a), k,
      Work(w.checkoutFailed || CheckoutFails(s, a, k), w.executed || Executes(s, a, k)))
  {
  }

  lemma WorkGrows(ss: seq<State>, actions: seq<Action>, n: nat, k: nat)
    requires |ss| == |actions| + 1 && n + 1 < |ss|
    ensures var w := WorkOn(ss, actions, n, k);
      WorkOn(ss, actions, n + 1, k) ==
        Work(w.checkoutFailed || CheckoutFails(ss[n], actions[n], k), w.executed || Executes(ss[n], actions[n], k))
  {
  }

  lemma {:induction false} WorkHolds(ss: seq<State>, actions: seq<Action>, n: nat, k: nat)
    requires IsRun(ss, actions) && n < |ss|
    ensures WorkFits(ss[n], k, WorkOn(ss, actions, n, k))
  {
    if n > 0 {
      WorkHolds(ss, actions, n - 1, k);
      InvHolds(ss, actions, n - 1);
      WorkGrows(ss, actions, n - 1, k);
      WorkStep(ss[n - 1], actions[n - 1], k, WorkOn(ss, actions, n - 1, k));
    }
  }

  /** From setActive until clearActive the delivery is active. */
  ghost predicate ActiveWhileWorking(s: State) {
    s.exec.Starting? || s.exec.CheckingOut? || s.exec.Parsing? || s.exec.Executing? || s.exec.Clearing? ==>
      s.active == Some(s.exec.k)
  }

  lemma {:induction false} ActiveHolds(ss: seq<State>, actions: seq<Action>, n: nat)
    requires IsRun(ss, actions) && n < |ss|
    ensures ActiveWhileWorking(ss[n])
  {
    if n > 0 {
      ActiveHolds(ss, actions, n - 1);
      InvHolds(ss, actions, n - 1);
      assert ss[n] == Next(ss[n - 1], actions[n - 1]);
    }
  }

  /** A heartbeat captured while a delivery is being started, checked out, parsed or executed
      names that delivery. */
  lemma WorkingIsNamed(ss: seq<State>, actions: seq<Action>, n: nat, k: nat)
    requires IsRun(ss, actions) && n < |actions| && actions[n] == Capture && ss[n].beat.Sleeping?
    requires ss[n].exec == Starting(k) || ss[n].exec == CheckingOut(k) || ss[n].exec == Parsing(k) || ss[n].exec == Executing(k)
    ensures ss[n + 1].beat == Requesting(Some(k)) && k in ss[n + 1].named
  {
    ActiveHolds(ss, actions, n);
    assert ss[n + 1] == Next(ss[n], actions[n]);
  }

  /** A cancel reply marks the delivery it was captured for and then cancels its context. */
  lemma RevokedIsStopped(s: State, k: nat)
    requires s.beat == Requesting(Some(k)) && k < |s.deliveries|
    ensures
      var t := Next(Next(Next(s, Answer(Revoke)), Beat), Beat);
      t.beat == Sleeping && t.deliveries == s.deliveries[k := Delivery(s.deliveries[k].job, true, true)]
  {
  }

  /** A delivery posts a result only if its checkout failed, its build definition was
      unreadable, or its build was executed and then checked for a mark. */
  lemma PostedAfterWork(ss: seq<State>, actions: seq<Action>, n: nat, k: nat)
    requires IsRun(ss, actions) && n < |ss| && k in ss[n].posted
    ensures
      || (exists i :: 0 <= i < n && CheckoutFails(ss[i], actions[i], k))
      || (exists i :: 0 <= i < n && SpecUnreadable(ss[i], actions[i], k))
      || (exists i, c :: 0 <= i < c < n && Executes(ss[i], actions[i], k) && CheckRuns(ss[c], actions[c], k))
  {
    TraceHolds(ss, actions, n, k);
    var t := TraceOf(ss, actions, n, k);
    if !t.unreadable {
      var c :| 0 <= c < n && CheckRuns(ss[c], actions[c], k) && !Marked(ss[c], k);
      WorkHolds(ss, actions, c, k);
    }
  }

  /** Execute is followed by clearActive before the check: no heartbeat captured from the
      check on names the delivery. */
  lemma NoLateCapture(ss: seq<State>, actions: seq<Action>, i: nat, c: nat, n: nat, k: nat)
    requires IsRun(ss, actions) && i < c <= n < |actions|
    requires Executes(ss[i], actions[i], k) && CheckRuns(ss[c], actions[c], k)
    requires actions[n] == Capture && ss[n].beat.Sleeping?
    ensures ss[n + 1].beat != Requesting(Some(k))
  {
    WorkHolds(ss, actions, n, k);
    if n > c {
      PastClearing(ss, actions, c, n, k);
    }
    assert ss[n + 1] == Next(ss[n], actions[n]);
  }

  lemma PastClearingStep(s: State, a: Action, k: nat)
    requires Inv(s) && (s.exec == Checking(k) || s.exec == Reporting(k) || s.exec == Leaving(k) || Over(s, k))
    ensures var t := Next(s, a); t.exec == Checking(k) || t.exec == Reporting(k) || t.exec == Leaving(k) || Over(t, k)
  {
  }

  lemma {:induction false} PastClearing(ss: seq<State>, actions: seq<Action>, c: nat, n: nat, k: nat)
    requires IsRun(ss, actions) && c <= n < |ss| && ss[c].exec == Checking(k)
    ensures ss[n].exec == Checking(k) || ss[n].exec == Reporting(k) || ss[n].exec == Leaving(k) || Over(ss[n], k)
    decreases n
  {
    if c < n {
      PastClearing(ss, actions, c, n - 1, k);
      InvHolds(ss, actions, n - 1);
      PastClearingStep(ss[n - 1], actions[n - 1], k);
      assert ss[n] == Next(ss[n - 1], actions[n - 1]);
    }
  }

  lemma Extend(ss: seq<State>, actions: seq<Action>, a: Action) returns (ss': seq<State>, actions': seq<Action>)
    requires IsRun(ss, actions)
    ensures ss' == ss + [Next(ss[|ss| - 1], a)] && actions' == actions + [a]
    ensures IsRun(ss', actions') && ss'[|ss'| - 1] == Next(ss[|ss| - 1], a)
  {
    ss', actions' := ss + [Next(ss[|ss| - 1], a)], actions + [a];
  }

  /** The check is needed: a delivery that is marked while it is being checked out and then
      turns out to have an unreadable build definition does post a result. */
  lemma MarkedYetPosts() returns (ss: seq<State>, actions: seq<Action>)
    ensures IsRun(ss, actions) && |ss| == 10
    ensures ss[6].deliveries == [Delivery("j", true, false)] && ss[6].exec == CheckingOut(0)
    ensures 0 in ss[9].posted
  {
    ss, actions := [INIT], [];
    ss, actions := Extend(ss, actions, Deliver("j"));
    ss, actions := Extend(ss, actions, Exec(true));
    ss, actions := Extend(ss, actions, Exec(true));
    ss, actions := Extend(ss, actions, Capture);
    ss, actions := Extend(ss, actions, Answer(Revoke));
    ss, actions := Extend(ss, actions, Beat);
    assert ss[6] == State([Delivery("j", true, false)], Some(0), CheckingOut(0), Cancelling(0), {0}, {0}, [], {});
    ss, actions := Extend(ss, actions, Exec(true));
    ss, actions := Extend(ss, actions, Exec(false));
    ss, actions := Extend(ss, actions, Exec(true));
  }

  // ---------- the shared bookkeeping ----------

  /** activeJob, the object both threads hold. */
  class ActiveJob {
    const id: JobId
    var abandoned: bool
    var cancelled: bool

    constructor (id: JobId)
      ensures this.id == id && !abandoned && !cancelled
    {
      this.id, abandoned, cancelled := id, false, false;
    }
  }

  /** The methods that touch activeJob objects, each proved to be a step of the machine.
      `jobs` numbers the objects in the order of delivery. */
  class Bookkeeping {
    var active: ActiveJob?
    ghost var jobs: seq<ActiveJob>

    /** The objects look as the machine says. */
    ghost predicate Realises(s: State)
      reads this, jobs
    {
      && (forall i, k :: 0 <= i < k < |jobs| ==> jobs[i] != jobs[k])
      && |jobs| == |s.deliveries|
      && (forall k :: 0 <= k < |jobs| ==> s.deliveries[k] == Delivery(jobs[k].id, jobs[k].abandoned, jobs[k].cancelled))
      && (s.active.None? <==> active == null)
      && (s.active.Some? ==> s.active.value < |jobs| && jobs[s.active.value] == active)
    }

    constructor ()
      ensures Realises(INIT)
    {
      active, jobs := null, [];
    }

    method Receive(id: JobId, ghost s: State) returns (job: ActiveJob)
      requires Realises(s) && s.exec.Polling?
      modifies this`jobs
      ensures Realises(Next(s, Deliver(id))) && jobs == old(jobs) + [job]
    {
      job := new ActiveJob(id);
      jobs := jobs + [job];
    }

    method SetActive(job: ActiveJob, ghost s: State, ghost ok: bool)
      requires Realises(s) && s.exec.Activating? && s.exec.k < |jobs| && jobs[s.exec.k] == job
      modifies this`active
      ensures Realises(ExecNext(s, ok))
    {
      active := job;
    }

    /** Compares addresses, so a late call for delivery k cannot wipe the entry of another
        delivery, even of the same job. */
    method ClearActive(job: ActiveJob, ghost s: State, ghost k: nat)
      requires Realises(s) && k < |jobs| && jobs[k] == job
      modifies this`active
      ensures Realises(s.(active := Cleared(s, k)))
      ensures s.exec == Clearing(k) || s.exec == Leaving(k) ==> Realises(ExecNext(s, true))
    {
      if active == job {
        active := null;
      }
    }

    /** The job captured when the timer fires is the target of the request. */
    method CurrentJob(ghost s: State) returns (job: ActiveJob?)
      requires Realises(s) && s.beat.Sleeping?
      ensures Realises(Next(s, Capture)) && Next(s, Capture).beat.Requesting?
      ensures job == match Next(s, Capture).beat.target case None => null case Some(k) => jobs[k]
    {
      job := active;
    }

    /** The tail of a heartbeat for the captured job, whatever is active by now: the answer,
        the mark and the cancellation. */
    method HandleReply(job: ActiveJob?, cancel: bool, ghost s: State)
      requires Realises(s) && s.beat.Requesting?
      requires s.beat.target.Some? ==> s.beat.target.value < |jobs|
      requires job == match s.beat.target case None => null case Some(k) => jobs[k]
      modifies job
      ensures
        var answered := Next(s, Answer(if cancel then Revoke else Keep));
        Realises(BeatNext(BeatNext(answered))) && BeatNext(BeatNext(answered)).beat.Sleeping?
    {
      if cancel && job != null {
        job.abandoned := true;
        job.cancelled := true;
      }
    }
  }
}
