/** The whole system as a step machine: webhook handlers, API handlers, runner agents,
    one scheduler loop and its reaper over the two tables, the two queue lists and the
    mailboxes. Each SQL statement, transaction or Redis command is one step.

    `Next` is total: an action that is not enabled changes nothing, so every sequence
    of actions is a run, and every interleaving is such a sequence. */
module Cluster {
  import opened Models
  import opened Sql
  import opened Calls
  import opened Lists
  import Tables

  /** The scheduler process (internal/scheduler/service.go:28-123), named by what it does next. */
  datatype SchedPc =
    | Down
    | Recovering(todo: seq<JobId>)
    | RecoverPushing(job: JobId, todo: seq<JobId>)
    | Ready
    | Loading(job: JobId)
    | Choosing(job: JobId)
    | Reading(job: JobId, runner: RunnerId)
    | Committing(job: JobId, runner: RunnerId, from: JobStatus)
    | Dispatching(job: JobId, runner: RunnerId)
    | Undoing(job: JobId, call: Call)
    | Acking(job: JobId)
    | Removing(job: JobId)
    | Pushing(job: JobId)

  /** The reaper goroutine (internal/scheduler/service.go:127-157). */
  datatype ReaperPc =
    | Off
    | Waiting
    | Sweeping(todo: seq<JobId>)
    | Requeueing(call: Call, todo: seq<JobId>)
    | Enqueueing(job: JobId, todo: seq<JobId>)

  /** A runner agent, as far as the mailbox protocol sees it. */
  datatype AgentPc =
    | Polling
    | Fetched(job: JobId)
    | Starting(job: JobId, call: Call)
    | Executing(job: JobId)

  datatype State = State(
    db: Db,
    pending: seq<JobId>,
    inflight: seq<JobId>,
    mail: map<RunnerId, seq<JobId>>,
    sched: SchedPc,
    reaper: ReaperPc,
    agents: map<RunnerId, AgentPc>,
    webhooks: map<nat, JobId>,
    calls: map<nat, Call>)

  const INIT := State(EMPTY, [], [], map[], Down, Off, map[], map[], map[])

  datatype ApiAction =
    | Create(w: nat, job: JobId, key: JobKey, labels: seq<string>)
    | Enqueue(w: nat)
    | EnqueueFails(w: nat, c: nat, now: int)
    | Begin(c: nat, job: JobId, change: Change, asRunner: Option<RunnerId>)
    | CallStep(c: nat)
    | End(c: nat)
    | Logs(job: JobId, seqNo: int, chunk: seq<Byte>)
    | Heartbeat(r: RunnerId, now: int)
    | Register(r: RunnerId, labels: seq<string>, now: int)

  datatype AgentAction = Poll | PollFails | Deliver(now: int) | StartStep | StartFails | Finish | Expire

  datatype SchedAction =
    | Boot | RecoverStep | Dequeue | Load | LoadFails | Choose(pick: Option<RunnerId>) | ReadJob | Commit(now: int)
    | AssignFails | Dispatch | DispatchFails(pushed: bool) | UndoStep | UndoFails | Ack | Remove | Push | RedisFails

  datatype ReaperAction =
    | Reap(cutoff: int, order: seq<RunnerId>) | NextOrphan | RequeueStep | RequeueFails | EnqueueOrphan | EnqueueOrphanFails

  datatype Action =
    | Api(api: ApiAction)
    | Agent(r: RunnerId, agent: AgentAction)
    | Sched(sched: SchedAction)
    | Reaper(reaper: ReaperAction)
    | Crash

  function Next(s: State, a: Action): State {
    match a
    case Api(api) => ApiNext(s, api)
    case Agent(r, agent) => AgentNext(s, r, agent)
    case Sched(sched) => SchedNext(s, sched)
    case Reaper(reaper) => ReaperNext(s, reaper)
    case Crash => s.(sched := Down, reaper := Off)
  }

  // ---------- webhook and API handlers ----------

  function ApiNext(s: State, a: ApiAction): State {
    match a
    case Create(w, job, key, labels) =>
      // The id is a fresh UUID, so it is never empty.
      if w in s.webhooks || job == "" || Conflicts(s.db, job, key) then s
      else s.(db := InsertJob(s.db, job, key, labels), webhooks := s.webhooks[w := job])
    case Enqueue(w) =>
      if w !in s.webhooks then s
      else s.(pending := [s.webhooks[w]] + s.pending, webhooks := s.webhooks - {w})
    case EnqueueFails(w, c, now) =>
      // The compensating CompleteJob(FAILED).
      if w !in s.webhooks || c in s.calls then s
      else s.(webhooks := s.webhooks - {w},
              calls := s.calls[c := Call(s.webhooks[w], Change.Complete(Failed, now, -1, "could not be queued"), AtRead)])
    case Begin(c, job, change, asRunner) =>
      // Start and result requests are checked for ownership; a cancel is not.
      // No handler calls RequeueJob.
      if c in s.calls || change.Requeue? || !change.Valid() || (change.Cancel? <==> asRunner.Some?) then s
      else s.(calls := s.calls[c := Call(job, change, if asRunner.Some? then AtCheck(asRunner.value) else AtRead)])
    case CallStep(c) =>
      if c !in s.calls then s
      else var (db', c') := Advance(s.db, s.calls[c]); s.(db := db', calls := s.calls[c := c'])
    case End(c) =>
      if c in s.calls && s.calls[c].pc.Returned? then s.(calls := s.calls - {c}) else s
    case Logs(job, seqNo, chunk) => s.(db := AppendLog(s.db, job, seqNo, chunk))
    case Heartbeat(r, now) => s.(db := Beat(s.db, r, now))
    case Register(r, labels, now) => s.(db := InsertRunner(s.db, r, labels, now))
  }

  // ---------- runner agents ----------

  function Box(s: State, r: RunnerId): seq<JobId> {
    if r in s.mail then s.mail[r] else []
  }

  function AgentOf(s: State, r: RunnerId): AgentPc {
    if r in s.agents then s.agents[r] else Polling
  }

  function AgentNext(s: State, r: RunnerId, a: AgentAction): State {
    match (a, AgentOf(s, r))
    case (Poll, Polling) =>
      var box := Box(s, r);
      if box == [] then s
      else s.(mail := s.mail[r := box[..|box| - 1]], agents := s.agents[r := Fetched(box[|box| - 1])])
    case (PollFails, Polling) =>
      // The entry is popped, and then the job cannot be read or the reply is lost.
      var box := Box(s, r);
      if box == [] then s else s.(mail := s.mail[r := box[..|box| - 1]])
    case (Deliver(now), Fetched(j)) =>
      s.(agents := s.agents[r := Starting(j, Call(j, Start(now), AtCheck(r)))])
    case (StartStep, Starting(j, call)) =>
      var (db', call') := Advance(s.db, call);
      s.(db := db', agents := s.agents[r :=
        if !call'.pc.Returned? then Starting(j, call') else if call'.pc.outcome == Ok then Executing(j) else Polling])
    case (StartFails, Starting(_, _)) =>
      // A failing read is answered like a refusal; the agent gives up on any error.
      s.(agents := s.agents[r := Polling])
    case (Finish, Executing(_)) => s.(agents := s.agents[r := Polling])
    case (Expire, _) =>
      // The mailbox key has not been pushed to for an hour.
      s.(mail := s.mail[r := []])
    case _ => s
  }

  // ---------- the scheduler loop ----------

  function SchedNext(s: State, a: SchedAction): State {
    match a
    case Boot => if s.sched.Down? then s.(sched := Recovering(s.inflight)) else s
    case RecoverStep => RecoverNext(s)
    case Dequeue => if s.sched.Ready? && s.pending != [] then DequeueNext(s) else s
    case Load =>
      if !s.sched.Loading? then s
      else s.(sched := if InStatus(s.db, s.sched.job, Queued) then Choosing(s.sched.job) else Acking(s.sched.job))
    case LoadFails => if s.sched.Loading? then s.(sched := Acking(s.sched.job)) else s
    case Choose(pick) =>
      if !s.sched.Choosing? then s
      else s.(sched := if pick.Some? then Reading(s.sched.job, pick.value) else Removing(s.sched.job))
    case ReadJob => if s.sched.Reading? then s.(sched := ReadNext(s.db, s.sched.job, s.sched.runner)) else s
    case Commit(now) => if s.sched.Committing? then CommitNext(s, s.sched.job, s.sched.runner, s.sched.from, now) else s
    case AssignFails =>
      // A statement of AssignJob fails and nothing is committed.
      if s.sched.Reading? || s.sched.Committing? then s.(sched := Removing(s.sched.job)) else s
    case Dispatch =>
      if !s.sched.Dispatching? then s
      else s.(mail := Mailed(s, s.sched.runner, s.sched.job), sched := Acking(s.sched.job))
    case DispatchFails(pushed) =>
      // LPUSH or EXPIRE failed; in the second case the job did reach the mailbox.
      if !s.sched.Dispatching? then s
      else s.(mail := if pushed then Mailed(s, s.sched.runner, s.sched.job) else s.mail,
              sched := Undoing(s.sched.job, Call(s.sched.job, Change.Requeue, AtRead)))
    case UndoStep => if s.sched.Undoing? then UndoNext(s, s.sched.job, s.sched.call) else s
    case UndoFails =>
      // A statement of RequeueJob fails; its error is ignored.
      if s.sched.Undoing? then s.(sched := Removing(s.sched.job)) else s
    case Ack =>
      if s.sched.Acking? then s.(inflight := RemoveFirst(s.inflight, s.sched.job), sched := Ready) else s
    case Remove =>
      if s.sched.Removing? then s.(inflight := RemoveFirst(s.inflight, s.sched.job), sched := Pushing(s.sched.job)) else s
    case Push => if s.sched.Pushing? then s.(pending := [s.sched.job] + s.pending, sched := Ready) else s
    case RedisFails => RedisFailsNext(s)
  }

  /** The next command of Recover, Ack or Requeue fails: the rest of that method is skipped,
      and the loop goes on. */
  function RedisFailsNext(s: State): State {
    match s.sched
    case Recovering(_) => s.(sched := Ready, reaper := Waiting)
    case RecoverPushing(_, _) => s.(sched := Ready, reaper := Waiting)
    case Acking(_) => s.(sched := Ready)
    case Removing(_) => s.(sched := Ready)
    case Pushing(_) => s.(sched := Ready)
    case _ => s
  }

  /** Recover (internal/queue/redis.go:65-76), one Redis command at a time. */
  function RecoverNext(s: State): State {
    match s.sched
    case Recovering(todo) =>
      if todo == [] then s.(sched := Ready, reaper := Waiting)
      else s.(inflight := RemoveFirst(s.inflight, todo[0]), sched := RecoverPushing(todo[0], todo[1..]))
    case RecoverPushing(j, todo) => s.(pending := [j] + s.pending, sched := Recovering(todo))
    case _ => s
  }

  /** BLMOVE pending inflight right left. */
  function DequeueNext(s: State): State
    requires s.pending != []
  {
    var j := s.pending[|s.pending| - 1];
    s.(pending := s.pending[..|s.pending| - 1], inflight := [j] + s.inflight, sched := Loading(j))
  }

  /** The read half of AssignJob. */
  function ReadNext(db: Db, j: JobId, r: RunnerId): SchedPc {
    if j in db.jobs && db.jobs[j].status.CanTransitionTo(Assigned) then Committing(j, r, db.jobs[j].status)
    else Removing(j)
  }

  /** The transaction of AssignJob. */
  function CommitNext(s: State, j: JobId, r: RunnerId, from: JobStatus, now: int): State {
    if InStatus(s.db, j, from) && IsIdle(s.db, r)
    then s.(db := AssignTx(s.db, j, r, from, now), sched := Dispatching(j, r))
    else s.(sched := Removing(j))
  }

  function Mailed(s: State, r: RunnerId, j: JobId): map<RunnerId, seq<JobId>> {
    s.mail[r := [j] + Box(s, r)]
  }

  /** RequeueJob after a failed Dispatch; whatever it returns, the id is requeued. */
  function UndoNext(s: State, j: JobId, call: Call): State {
    var (db', call') := Advance(s.db, call);
    s.(db := db', sched := if call'.pc.Returned? then Removing(j) else Undoing(j, call'))
  }

  // ---------- the reaper ----------

  /** `order` lists the stale runners once each: the range over the orphaned map. */
  predicate Enumerates(order: seq<RunnerId>, runners: set<RunnerId>) {
    |order| == |runners| && (forall r :: r in runners ==> r in order) && forall r :: r in order ==> r in runners
  }

  /** The job ids of the orphaned map, in iteration order. */
  function Orphans(db: Db, order: seq<RunnerId>): seq<JobId> {
    seq(|order|, i requires 0 <= i < |order| =>
      if order[i] in db.runners then HeldJob(db.runners[order[i]]) else "")
  }

  function ReaperNext(s: State, a: ReaperAction): State {
    match a
    case Reap(cutoff, order) =>
      if !s.reaper.Waiting? || !Enumerates(order, StaleRunners(s.db, cutoff)) then s
      else s.(db := MarkOffline(s.db, cutoff), reaper := Sweeping(Orphans(s.db, order)))
    case NextOrphan =>
      if !s.reaper.Sweeping? then s
      else s.(reaper :=
        if s.reaper.todo == [] then Waiting
        else if s.reaper.todo[0] == "" then Sweeping(s.reaper.todo[1..])
        else Requeueing(Call(s.reaper.todo[0], Change.Requeue, AtRead), s.reaper.todo[1..]))
    case RequeueStep => if s.reaper.Requeueing? then RequeueNext(s, s.reaper.call, s.reaper.todo) else s
    case RequeueFails =>
      // A statement of RequeueJob fails, the one that releases the runner included.
      if s.reaper.Requeueing? then s.(reaper := Sweeping(s.reaper.todo)) else s
    case EnqueueOrphan =>
      if s.reaper.Enqueueing? then s.(pending := [s.reaper.job] + s.pending, reaper := Sweeping(s.reaper.todo)) else s
    case EnqueueOrphanFails => if s.reaper.Enqueueing? then s.(reaper := Sweeping(s.reaper.todo)) else s
  }

  /** RequeueJob of an orphan; only a successful one is enqueued. */
  function RequeueNext(s: State, call: Call, todo: seq<JobId>): State {
    var (db', call') := Advance(s.db, call);
    s.(db := db', reaper :=
      if !call'.pc.Returned? then Requeueing(call', todo)
      else if call'.pc.outcome == Ok then Enqueueing(call.job, todo) else Sweeping(todo))
  }

  // ---------- runs ----------

  ghost predicate IsRun(ss: seq<State>, actions: seq<Action>) {
    && |ss| == |actions| + 1
    && ss[0] == INIT
    && forall i {:trigger actions[i]} :: 0 <= i < |actions| ==> ss[i + 1] == Next(ss[i], actions[i])
  }

  /** Extends a run by one action. */
  lemma Extend(ss: seq<State>, actions: seq<Action>, a: Action) returns (ss': seq<State>, actions': seq<Action>)
    requires IsRun(ss, actions)
    ensures ss' == ss + [Next(ss[|ss| - 1], a)] && actions' == actions + [a]
    ensures IsRun(ss', actions') && ss'[|ss'| - 1] == Next(ss[|ss| - 1], a)
  {
    ss', actions' := ss + [Next(ss[|ss| - 1], a)], actions + [a];
  }

  // ---------- every step is a legal statement on the tables ----------

  ghost predicate AllChecked(s: State) {
    && (forall c :: c in s.calls ==> Checked(s.calls[c]))
    && (forall r :: r in s.agents && s.agents[r].Starting? ==> Checked(s.agents[r].call))
    && (s.sched.Undoing? ==> Checked(s.sched.call))
    && (s.sched.Committing? ==> s.sched.from.CanTransitionTo(Assigned))
    && (s.reaper.Requeueing? ==> Checked(s.reaper.call))
  }

  function StatementAt(s: State, a: Action): Option<Tables.Statement> {
    match a
    case Api(Create(w, job, key, labels)) =>
      if w in s.webhooks || job == "" then None else Some(Tables.Insert(job, key, labels))
    case Api(CallStep(c)) => if c in s.calls then StatementOf(s.calls[c]) else None
    case Api(Logs(job, seqNo, chunk)) => Some(Tables.Append(job, seqNo, chunk))
    case Api(Heartbeat(r, now)) => Some(Tables.Heartbeat(r, now))
    case Api(Register(r, labels, now)) => Some(Tables.Register(r, labels, now))
    case Agent(r, StartStep) => if AgentOf(s, r).Starting? then StatementOf(AgentOf(s, r).call) else None
    case Sched(Commit(now)) =>
      if s.sched.Committing? then Some(Tables.Assign(s.sched.job, s.sched.runner, s.sched.from, now)) else None
    case Sched(UndoStep) => if s.sched.Undoing? then StatementOf(s.sched.call) else None
    case Reaper(Reap(cutoff, order)) =>
      if s.reaper.Waiting? && Enumerates(order, StaleRunners(s.db, cutoff)) then Some(Tables.Reap(cutoff)) else None
    case Reaper(RequeueStep) => if s.reaper.Requeueing? then StatementOf(s.reaper.call) else None
    case _ => None
  }

  ghost predicate LegalStep(s: State, a: Action) {
    && Next(s, a).db == ExecuteAll(s.db, StatementAt(s, a))
    && (StatementAt(s, a).Some? ==> Tables.Legal(StatementAt(s, a).value))
    && AllChecked(Next(s, a))
  }

  lemma ApiStepIsLegal(s: State, a: ApiAction)
    requires AllChecked(s)
    ensures LegalStep(s, Api(a))
  {
    if a.CallStep? && a.c in s.calls {
      AdvanceIsLegal(s.db, s.calls[a.c]);
    }
  }

  lemma AgentStepIsLegal(s: State, r: RunnerId, a: AgentAction)
    requires AllChecked(s)
    ensures LegalStep(s, Agent(r, a))
  {
    if AgentOf(s, r).Starting? {
      AdvanceIsLegal(s.db, AgentOf(s, r).call);
    }
  }

  /** Only the scheduler moves itself. */
  lemma HandlersKeepSched(s: State, a: ApiAction)
    ensures ApiNext(s, a).sched == s.sched
  {
  }

  lemma AgentsKeepSched(s: State, r: RunnerId, a: AgentAction)
    ensures AgentNext(s, r, a).sched == s.sched
  {
  }

  /** The scheduler touches neither the handlers nor the agents. */
  lemma SchedFrame(s: State, a: SchedAction)
    ensures var t := SchedNext(s, a);
      t == s.(db := t.db, pending := t.pending, inflight := t.inflight, mail := t.mail, sched := t.sched,
              reaper := t.reaper)
  {
  }

  lemma SchedFrameDb(s: State, a: SchedAction)
    requires !a.Commit? && !a.UndoStep?
    ensures SchedNext(s, a).db == s.db
  {
  }

  lemma SchedFrameReaper(s: State, a: SchedAction)
    requires !a.RecoverStep? && !a.RedisFails?
    ensures SchedNext(s, a).reaper == s.reaper
  {
  }

  /** How the scheduler gets to its two guarded writes. */
  lemma UndoingFrom(s: State, a: SchedAction)
    requires SchedNext(s, a).sched.Undoing?
    ensures a.DispatchFails? || a.UndoStep? || SchedNext(s, a).sched == s.sched
  {
  }

  lemma CommittingFrom(s: State, a: SchedAction)
    requires SchedNext(s, a).sched.Committing?
    ensures a.ReadJob? || SchedNext(s, a).sched == s.sched
  {
  }

  lemma CommitGuard(s: State, a: SchedAction)
    requires AllChecked(s) && SchedNext(s, a).sched.Committing?
    ensures SchedNext(s, a).sched.from.CanTransitionTo(Assigned)
  {
    CommittingFrom(s, a);
  }

  lemma UndoGuard(s: State, a: SchedAction)
    requires AllChecked(s) && !a.UndoStep? && SchedNext(s, a).sched.Undoing?
    ensures Checked(SchedNext(s, a).sched.call)
  {
    UndoingFrom(s, a);
  }

  lemma SchedStepIsLegal(s: State, a: SchedAction)
    requires AllChecked(s)
    ensures LegalStep(s, Sched(a))
  {
    SchedFrame(s, a);
    if a.UndoStep? {
      if s.sched.Undoing? {
        AdvanceIsLegal(s.db, s.sched.call);
      }
    } else if a.Commit? {
    } else {
      SchedFrameDb(s, a);
      if SchedNext(s, a).sched.Committing? {
        CommitGuard(s, a);
      } else if SchedNext(s, a).sched.Undoing? {
        UndoGuard(s, a);
      }
      if !a.RecoverStep? && !a.RedisFails? {
        SchedFrameReaper(s, a);
      }
    }
  }

  lemma ReaperStepIsLegal(s: State, a: ReaperAction)
    requires AllChecked(s)
    ensures LegalStep(s, Reaper(a))
  {
    if s.reaper.Requeueing? {
      AdvanceIsLegal(s.db, s.reaper.call);
    }
  }

  lemma StepIsLegal(s: State, a: Action)
    requires AllChecked(s)
    ensures LegalStep(s, a)
  {
    match a
    case Api(api) => ApiStepIsLegal(s, api);
    case Agent(r, agent) => AgentStepIsLegal(s, r, agent);
    case Sched(sched) => SchedStepIsLegal(s, sched);
    case Reaper(reaper) => ReaperStepIsLegal(s, reaper);
    case Crash =>
  }

  lemma {:induction false} AlwaysChecked(ss: seq<State>, actions: seq<Action>, i: nat)
    requires IsRun(ss, actions) && i < |ss|
    ensures AllChecked(ss[i])
  {
    if i > 0 {
      AlwaysChecked(ss, actions, i - 1);
      StepIsLegal(ss[i - 1], actions[i - 1]);
    }
  }

  /** The table contents along a run. */
  function History(ss: seq<State>): seq<Db> {
    seq(|ss|, i requires 0 <= i < |ss| => ss[i].db)
  }

  /** For any number of clients and any interleaving of their read and write halves, the
      tables only ever change by legal statements. Every theorem of Tables about
      histories therefore holds of every run of the system. */
  lemma RunsAreHistories(ss: seq<State>, actions: seq<Action>)
    requires IsRun(ss, actions)
    ensures Tables.IsHistory(History(ss))
  {
    forall i | 0 <= i < |ss| - 1 ensures Tables.StepAt(History(ss), i) {
      AlwaysChecked(ss, actions, i);
      StepIsLegal(ss[i], actions[i]);
      var st := StatementAt(ss[i], actions[i]);
      assert st.Some? ==> Tables.Legal(st.value) && ss[i + 1].db == Tables.Execute(ss[i].db, st.value);
    }
  }

  /** The table theorems, said of the running system: between any two points of any run. */
  lemma TablesKept(ss: seq<State>, actions: seq<Action>, i: nat, k: nat)
    requires IsRun(ss, actions) && i <= k < |ss|
    ensures Tables.Evolves(ss[i].db, ss[k].db)
    ensures Tables.BusyIffHolding(ss[k].db) && Tables.UniqueActive(ss[k].db) && Tables.RowsTimed(ss[k].db)
  {
    RunsAreHistories(ss, actions);
    Tables.JobsEvolve(History(ss), i, k);
    Tables.RunnerRows(History(ss), k);
    Tables.ActiveJobsUnique(History(ss), k);
    Tables.TimesAgree(History(ss), k);
  }

  /** A finished job is never resurrected, whatever any client, crash or restart does. */
  lemma FinishedStaysFinished(ss: seq<State>, actions: seq<Action>, i: nat, k: nat, j: JobId)
    requires IsRun(ss, actions) && i <= k < |ss|
    requires j in ss[i].db.jobs && ss[i].db.jobs[j].status.Terminal()
    ensures j in ss[k].db.jobs
    ensures var a, b := ss[i].db.jobs[j], ss[k].db.jobs[j];
      && a.status == b.status && a.exitCode == b.exitCode && a.error == b.error
      && a.completedAt == b.completedAt && a.runnerId == b.runnerId && a.attempts == b.attempts
  {
    TablesKept(ss, actions, i, k);
  }
}
