/** The lists of the running system are the queue and the mailboxes of internal/queue/redis.go:
    first in, first out, over every run. */
module Order {
  import opened Models
  import opened Sql
  import opened Calls
  import opened Lists
  import opened Queue
  import opened Cluster
  import opened Service

  // ---------- every list step is a method of the queue ----------

  /** What the step does to the lists, in terms of the queue's methods. */
  function ViewAfter(s: State, a: Action): View {
    var v := ViewOf(s);
    match a
    case Api(api) => if api.Enqueue? && api.w in s.webhooks then Enqueued(v, s.webhooks[api.w]) else v
    case Agent(r, agent) => AgentView(s, r, agent)
    case Sched(sched) => SchedView(s, sched)
    case Reaper(reaper) =>
      if reaper.EnqueueOrphan? && s.reaper.Enqueueing? then Enqueued(v, s.reaper.job) else v
    case Crash => v
  }

  function AgentView(s: State, r: RunnerId, a: AgentAction): View {
    var v := ViewOf(s);
    match a
    case Poll => if AgentOf(s, r).Polling? && BoxOf(v, r) != [] then Received(v, r) else v
    case PollFails => if AgentOf(s, r).Polling? && BoxOf(v, r) != [] then Received(v, r) else v
    case Expire => v.(mail := v.mail[r := []])
    case _ => v
  }

  function SchedView(s: State, a: SchedAction): View {
    var v := ViewOf(s);
    match a
    case Dequeue => if s.sched.Ready? && v.pending != [] then Dequeued(v) else v
    case Ack => if s.sched.Acking? then Acked(v, s.sched.job) else v
    case Remove => if s.sched.Removing? then Acked(v, s.sched.job) else v
    case Push => if s.sched.Pushing? then Enqueued(v, s.sched.job) else v
    case RecoverStep =>
      if s.sched.Recovering? && s.sched.todo != [] then Acked(v, s.sched.todo[0])
      else if s.sched.RecoverPushing? then Enqueued(v, s.sched.job) else v
    case Dispatch => if s.sched.Dispatching? then Dispatched(v, s.sched.runner, s.sched.job) else v
    case DispatchFails(pushed) => if s.sched.Dispatching? && pushed then Dispatched(v, s.sched.runner, s.sched.job) else v
    case _ => v
  }

  lemma AgentStepIsQueue(s: State, r: RunnerId, a: AgentAction)
    ensures ViewOf(AgentNext(s, r, a)) == AgentView(s, r, a)
  {
    assert BoxOf(ViewOf(s), r) == Box(s, r);
  }

  lemma RecoverStepIsQueue(s: State)
    ensures ViewOf(RecoverNext(s)) == SchedView(s, RecoverStep)
  {
  }

  lemma SchedStepIsQueue(s: State, a: SchedAction)
    ensures ViewOf(SchedNext(s, a)) == SchedView(s, a)
  {
    if a.RecoverStep? {
      RecoverStepIsQueue(s);
    } else if s.sched.Dispatching? {
      assert BoxOf(ViewOf(s), s.sched.runner) == Box(s, s.sched.runner);
    }
  }

  lemma ApiStepIsQueue(s: State, a: ApiAction)
    ensures ViewOf(ApiNext(s, a)) == ViewAfter(s, Api(a))
  {
  }

  lemma ReaperStepIsQueue(s: State, a: ReaperAction)
    ensures ViewOf(ReaperNext(s, a)) == ViewAfter(s, Reaper(a))
  {
  }

  /** Each step has exactly the effect on the lists that the method of the queue has. */
  lemma StepIsQueue(s: State, a: Action)
    ensures ViewOf(Next(s, a)) == ViewAfter(s, a)
  {
    match a
    case Api(api) => ApiStepIsQueue(s, api);
    case Agent(r, agent) => AgentStepIsQueue(s, r, agent);
    case Sched(sched) => SchedStepIsQueue(s, sched);
    case Reaper(reaper) => ReaperStepIsQueue(s, reaper);
    case Crash =>
  }

  /** The scheduler goes on with the id that has waited longest, and an agent with the
      entry that has. */
  lemma TakersGetTheFirst(s: State, r: RunnerId)
    ensures s.sched.Ready? && s.pending != [] ==> Next(s, Sched(Dequeue)).sched == Loading(DequeueOrder(ViewOf(s))[0])
    ensures AgentOf(s, r).Polling? && Box(s, r) != [] ==>
      AgentOf(Next(s, Agent(r, Poll)), r) == Fetched(ReceiveOrder(ViewOf(s), r)[0])
  {
    assert BoxOf(ViewOf(s), r) == Box(s, r);
    ReverseFirst(s.pending);
    ReverseFirst(Box(s, r));
  }

  // ---------- the queue over a run ----------

  /** The ids that the step pushes on `pending`. */
  function Pushes(s: State, a: Action): seq<JobId> {
    match a
    case Api(Enqueue(w)) => if w in s.webhooks then [s.webhooks[w]] else []
    case Sched(Push) => if s.sched.Pushing? then [s.sched.job] else []
    case Sched(RecoverStep) => if s.sched.RecoverPushing? then [s.sched.job] else []
    case Reaper(EnqueueOrphan) => if s.reaper.Enqueueing? then [s.reaper.job] else []
    case _ => []
  }

  /** The id that the scheduler has after a successful dequeue. */
  function Takes(s: State, a: Action, t: State): seq<JobId> {
    if a == Sched(Dequeue) && s.sched.Ready? && t.sched.Loading? then [t.sched.job] else []
  }

  function Pushed(ss: seq<State>, actions: seq<Action>, i: nat): seq<JobId>
    requires i < |ss| == |actions| + 1
  {
    if i == 0 then [] else Pushed(ss, actions, i - 1) + Pushes(ss[i - 1], actions[i - 1])
  }

  function Taken(ss: seq<State>, actions: seq<Action>, i: nat): seq<JobId>
    requires i < |ss| == |actions| + 1
  {
    if i == 0 then [] else Taken(ss, actions, i - 1) + Takes(ss[i - 1], actions[i - 1], ss[i])
  }

  lemma SchedQueueStep(s: State, a: SchedAction)
    ensures DequeueOrder(ViewOf(s)) + Pushes(s, Sched(a)) ==
      Takes(s, Sched(a), SchedNext(s, a)) + DequeueOrder(SchedView(s, a))
  {
    if a == Dequeue {
      DequeueStep(s);
    } else if a == Push || a == RecoverStep {
      assert Takes(s, Sched(a), SchedNext(s, a)) == [];
    } else {
      assert Takes(s, Sched(a), SchedNext(s, a)) == [] && Pushes(s, Sched(a)) == [];
      SchedPendingSame(s, a);
    }
  }

  lemma SchedPendingSame(s: State, a: SchedAction)
    requires !a.Dequeue? && !a.Push? && !a.RecoverStep?
    ensures SchedView(s, a).pending == s.pending
  {
  }

  lemma DequeueStep(s: State)
    ensures DequeueOrder(ViewOf(s)) ==
      Takes(s, Sched(Dequeue), SchedNext(s, Dequeue)) + DequeueOrder(SchedView(s, Dequeue))
  {
    TakersGetTheFirst(s, "");
  }

  lemma QueueStep(s: State, a: Action)
    ensures DequeueOrder(ViewOf(s)) + Pushes(s, a) == Takes(s, a, Next(s, a)) + DequeueOrder(ViewOf(Next(s, a)))
  {
    StepIsQueue(s, a);
    if a.Sched? {
      SchedQueueStep(s, a.sched);
    } else {
      assert Takes(s, a, Next(s, a)) == [];
    }
  }

  /** What leaves at the front and what joins at the end account for the change. */
  ghost predicate QueueFrom(ss: seq<State>, actions: seq<Action>, n: nat)
    requires n < |actions| < |ss|
  {
    DequeueOrder(ViewOf(ss[n])) + Pushes(ss[n], actions[n]) ==
      Takes(ss[n], actions[n], ss[n + 1]) + DequeueOrder(ViewOf(ss[n + 1]))
  }

  lemma QueueAt(ss: seq<State>, actions: seq<Action>, n: nat)
    requires IsRun(ss, actions) && n < |actions|
    ensures QueueFrom(ss, actions, n)
  {
    QueueStep(ss[n], actions[n]);
    assert ss[n + 1] == Next(ss[n], actions[n]);
  }

  lemma Chain(gone: seq<JobId>, before: seq<JobId>, joined: seq<JobId>, joins: seq<JobId>, leaves: seq<JobId>, after: seq<JobId>)
    requires gone + before == joined && before + joins == leaves + after
    ensures (gone + leaves) + after == joined + joins
  {
    assert (gone + leaves) + after == gone + (leaves + after);
    assert gone + (before + joins) == (gone + before) + joins;
  }

  ghost predicate QueueLaw(ss: seq<State>, actions: seq<Action>, i: nat)
    requires i < |ss| == |actions| + 1
  {
    Taken(ss, actions, i) + DequeueOrder(ViewOf(ss[i])) == Pushed(ss, actions, i)
  }

  lemma QueueStart(ss: seq<State>, actions: seq<Action>)
    requires |ss| == |actions| + 1 && ss[0] == INIT
    ensures QueueLaw(ss, actions, 0)
  {
  }

  lemma QueueLawNext(ss: seq<State>, actions: seq<Action>, n: nat)
    requires n + 1 < |ss| == |actions| + 1 && QueueFrom(ss, actions, n) && QueueLaw(ss, actions, n)
    ensures QueueLaw(ss, actions, n + 1)
  {
    var joins, leaves := Pushes(ss[n], actions[n]), Takes(ss[n], actions[n], ss[n + 1]);
    assert Taken(ss, actions, n + 1) == Taken(ss, actions, n) + leaves;
    assert Pushed(ss, actions, n + 1) == Pushed(ss, actions, n) + joins;
    Chain(Taken(ss, actions, n), DequeueOrder(ViewOf(ss[n])), Pushed(ss, actions, n), joins, leaves,
          DequeueOrder(ViewOf(ss[n + 1])));
  }

  /** In every run, crashes and faults included: the ids that the scheduler has taken,
      followed by those that wait, are exactly the ids that were pushed, in that order. */
  lemma FirstInFirstOut(ss: seq<State>, actions: seq<Action>, i: nat)
    requires IsRun(ss, actions) && i < |ss|
    ensures Taken(ss, actions, i) + DequeueOrder(ViewOf(ss[i])) == Pushed(ss, actions, i)
  {
    QueueLawHolds(ss, actions, i);
  }

  lemma QueueLawAt(ss: seq<State>, actions: seq<Action>, n: nat)
    requires IsRun(ss, actions) && n < |actions| && QueueLaw(ss, actions, n)
    ensures QueueLaw(ss, actions, n + 1)
  {
    QueueAt(ss, actions, n);
    QueueLawNext(ss, actions, n);
  }

  lemma {:induction false} QueueLawHolds(ss: seq<State>, actions: seq<Action>, i: nat)
    requires IsRun(ss, actions) && i < |ss|
    ensures QueueLaw(ss, actions, i)
  {
    if i == 0 {
      QueueStart(ss, actions);
    } else {
      QueueLawHolds(ss, actions, i - 1);
      QueueLawAt(ss, actions, i - 1);
    }
  }

  // ---------- the mailboxes over a run ----------

  /** The entries that the step puts into the mailbox of r. */
  function Mails(s: State, a: Action, r: RunnerId): seq<JobId> {
    match a
    case Sched(Dispatch) => if s.sched.Dispatching? && s.sched.runner == r then [s.sched.job] else []
    case Sched(DispatchFails(pushed)) => if s.sched.Dispatching? && s.sched.runner == r && pushed then [s.sched.job] else []
    case _ => []
  }

  /** The entries that leave it: one goes to the agent, or is lost on the way; all expire. */
  function Leaves(s: State, a: Action, r: RunnerId, t: State): seq<JobId> {
    match a
    case Agent(q, Poll) => if q == r && AgentOf(s, r).Polling? && AgentOf(t, r).Fetched? then [AgentOf(t, r).job] else []
    case Agent(q, PollFails) =>
      if q == r && AgentOf(s, r).Polling? && Box(s, r) != [] then [ReceiveOrder(ViewOf(s), r)[0]] else []
    case Agent(q, Expire) => if q == r then ReceiveOrder(ViewOf(s), r) else []
    case _ => []
  }

  function Mailed(ss: seq<State>, actions: seq<Action>, i: nat, r: RunnerId): seq<JobId>
    requires i < |ss| == |actions| + 1
  {
    if i == 0 then [] else Mailed(ss, actions, i - 1, r) + Mails(ss[i - 1], actions[i - 1], r)
  }

  function Gone(ss: seq<State>, actions: seq<Action>, i: nat, r: RunnerId): seq<JobId>
    requires i < |ss| == |actions| + 1
  {
    if i == 0 then [] else Gone(ss, actions, i - 1, r) + Leaves(ss[i - 1], actions[i - 1], r, ss[i])
  }

  lemma AgentMailStep(s: State, q: RunnerId, a: AgentAction, r: RunnerId)
    ensures ReceiveOrder(ViewOf(s), r) == Leaves(s, Agent(q, a), r, AgentNext(s, q, a)) + ReceiveOrder(AgentView(s, q, a), r)
  {
    assert BoxOf(ViewOf(s), r) == Box(s, r);
    if q == r {
      TakersGetTheFirst(s, r);
    } else {
      assert BoxOf(AgentView(s, q, a), r) == BoxOf(ViewOf(s), r);
    }
  }

  lemma SchedMailStep(s: State, a: SchedAction, r: RunnerId)
    ensures ReceiveOrder(ViewOf(s), r) + Mails(s, Sched(a), r) == ReceiveOrder(SchedView(s, a), r)
  {
    if a.Dispatch? || a.DispatchFails? {
      DispatchMailStep(s, a, r);
    } else {
      SchedMailSame(s, a);
      assert BoxOf(SchedView(s, a), r) == BoxOf(ViewOf(s), r);
    }
  }

  lemma SchedMailSame(s: State, a: SchedAction)
    requires !a.Dispatch? && !a.DispatchFails?
    ensures SchedView(s, a).mail == s.mail
  {
  }

  lemma DispatchMailStep(s: State, a: SchedAction, r: RunnerId)
    requires a.Dispatch? || a.DispatchFails?
    ensures ReceiveOrder(ViewOf(s), r) + Mails(s, Sched(a), r) == ReceiveOrder(SchedView(s, a), r)
  {
    if s.sched.Dispatching? && s.sched.runner != r {
      assert BoxOf(SchedView(s, a), r) == BoxOf(ViewOf(s), r);
    }
  }

  lemma MailStep(s: State, a: Action, r: RunnerId)
    ensures ReceiveOrder(ViewOf(s), r) + Mails(s, a, r) == Leaves(s, a, r, Next(s, a)) + ReceiveOrder(ViewOf(Next(s, a)), r)
  {
    StepIsQueue(s, a);
    if a.Agent? {
      AgentMailStep(s, a.r, a.agent, r);
    } else if a.Sched? {
      SchedMailStep(s, a.sched, r);
    } else {
      assert BoxOf(ViewAfter(s, a), r) == BoxOf(ViewOf(s), r);
    }
  }

  ghost predicate MailFrom(ss: seq<State>, actions: seq<Action>, n: nat, r: RunnerId)
    requires n < |actions| < |ss|
  {
    ReceiveOrder(ViewOf(ss[n]), r) + Mails(ss[n], actions[n], r) ==
      Leaves(ss[n], actions[n], r, ss[n + 1]) + ReceiveOrder(ViewOf(ss[n + 1]), r)
  }

  ghost predicate MailLaw(ss: seq<State>, actions: seq<Action>, i: nat, r: RunnerId)
    requires i < |ss| == |actions| + 1
  {
    Gone(ss, actions, i, r) + ReceiveOrder(ViewOf(ss[i]), r) == Mailed(ss, actions, i, r)
  }

  lemma MailStart(ss: seq<State>, actions: seq<Action>, r: RunnerId)
    requires |ss| == |actions| + 1 && ss[0] == INIT
    ensures MailLaw(ss, actions, 0, r)
  {
  }

  lemma MailLawNext(ss: seq<State>, actions: seq<Action>, n: nat, r: RunnerId)
    requires n + 1 < |ss| == |actions| + 1 && MailFrom(ss, actions, n, r) && MailLaw(ss, actions, n, r)
    ensures MailLaw(ss, actions, n + 1, r)
  {
    var joins, leaves := Mails(ss[n], actions[n], r), Leaves(ss[n], actions[n], r, ss[n + 1]);
    assert Gone(ss, actions, n + 1, r) == Gone(ss, actions, n, r) + leaves;
    assert Mailed(ss, actions, n + 1, r) == Mailed(ss, actions, n, r) + joins;
    Chain(Gone(ss, actions, n, r), ReceiveOrder(ViewOf(ss[n]), r), Mailed(ss, actions, n, r), joins, leaves,
          ReceiveOrder(ViewOf(ss[n + 1]), r));
  }

  lemma MailAt(ss: seq<State>, actions: seq<Action>, n: nat, r: RunnerId)
    requires IsRun(ss, actions) && n < |actions| && MailLaw(ss, actions, n, r)
    ensures MailLaw(ss, actions, n + 1, r)
  {
    MailStep(ss[n], actions[n], r);
    assert ss[n + 1] == Next(ss[n], actions[n]);
    MailLawNext(ss, actions, n, r);
  }

  /** In every run: the entries of r's mailbox that have left it, followed by those in it,
      are exactly the entries that were put into it, in that order. */
  lemma MailFirstInFirstOut(ss: seq<State>, actions: seq<Action>, i: nat, r: RunnerId)
    requires IsRun(ss, actions) && i < |ss|
    ensures Gone(ss, actions, i, r) + ReceiveOrder(ViewOf(ss[i]), r) == Mailed(ss, actions, i, r)
  {
    MailLawHolds(ss, actions, i, r);
  }

  lemma {:induction false} MailLawHolds(ss: seq<State>, actions: seq<Action>, i: nat, r: RunnerId)
    requires IsRun(ss, actions) && i < |ss|
    ensures MailLaw(ss, actions, i, r)
  {
    if i == 0 {
      MailStart(ss, actions, r);
    } else {
      MailLawHolds(ss, actions, i - 1, r);
      MailAt(ss, actions, i - 1, r);
    }
  }
}
