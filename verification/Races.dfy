/** Concrete interleavings that the stronger guarantees have to exclude. */
module Races {
  import opened Models
  import opened Sql
  import opened Calls
  import opened Cluster
  import NoLimbo
  import Losses
  import Ownership
  import Rescue
  import Stuck

  const KEY := JobKey("you/repo", "sha", "push")
  const KEY2 := JobKey("you/repo", "sha2", "push")
  const FRESH := NewJob(KEY, [])
  const FRESH2 := NewJob(KEY2, [])
  const HELD := FRESH.(status := Assigned, runnerId := Some("r"), attempts := 1)
  const HELD2 := FRESH2.(status := Assigned, runnerId := Some("r"), attempts := 1)
  const IDLE := NewRunner([], 0)

  predicate FaultFree(actions: seq<Action>) {
    forall i :: 0 <= i < |actions| ==> !IsFault(actions[i])
  }

  predicate IsFault(a: Action) {
    match a
    case Api(api) => api.EnqueueFails?
    case Agent(_, agent) => agent.PollFails? || agent.StartFails? || agent.Expire?
    case Sched(sched) =>
      sched.LoadFails? || sched.AssignFails? || sched.DispatchFails? || sched.UndoFails? || sched.RedisFails?
    case Reaper(reaper) => reaper.RequeueFails? || reaper.EnqueueOrphanFails?
    case Crash => true
  }

  /** Extends a run, without a fault if the action is none. */
  lemma Then(ss: seq<State>, actions: seq<Action>, a: Action) returns (ss': seq<State>, actions': seq<Action>)
    requires IsRun(ss, actions)
    ensures IsRun(ss', actions') && ss'[|ss'| - 1] == Next(ss[|ss| - 1], a) && |ss'| == |ss| + 1
    ensures ss'[|ss| - 1] == ss[|ss| - 1] && actions'[|actions|] == a
    ensures FaultFree(actions) && !IsFault(a) ==> FaultFree(actions')
  {
    ss', actions' := Extend(ss, actions, a);
  }

  // ---------- a crash between AssignJob and Dispatch ----------

  const DISPATCHING := State(
    Db(map["j" := HELD], map["r" := IDLE.(status := Busy, currentJob := Some("j"), lastAssigned := Some(1))]),
    [], ["j"], map[], Dispatching("j", "r"), Waiting, map[], map[], map[])

  lemma QueuedRun() returns (ss: seq<State>, actions: seq<Action>)
    ensures IsRun(ss, actions) && FaultFree(actions)
    ensures ss[|ss| - 1] == INIT.(db := Db(map["j" := FRESH], map["r" := IDLE]), pending := ["j"])
  {
    ss, actions := [INIT], [];
    ss, actions := Then(ss, actions, Api(Register("r", [], 0)));
    ss, actions := Then(ss, actions, Api(Create(0, "j", KEY, [])));
    ss, actions := Then(ss, actions, Api(Enqueue(0)));
  }

  lemma LoadingRun() returns (ss: seq<State>, actions: seq<Action>)
    ensures IsRun(ss, actions) && FaultFree(actions)
    ensures ss[|ss| - 1] ==
      State(Db(map["j" := FRESH], map["r" := IDLE]), [], ["j"], map[], Loading("j"), Waiting, map[], map[], map[])
  {
    ss, actions := QueuedRun();
    ss, actions := Then(ss, actions, Sched(Boot));
    ss, actions := Then(ss, actions, Sched(RecoverStep));
    ss, actions := Then(ss, actions, Sched(Dequeue));
  }

  lemma DispatchingRun() returns (ss: seq<State>, actions: seq<Action>)
    ensures IsRun(ss, actions) && FaultFree(actions) && ss[|ss| - 1] == DISPATCHING
  {
    ss, actions := LoadingRun();
    ss, actions := Then(ss, actions, Sched(Load));
    ss, actions := Then(ss, actions, Sched(Choose(Some("r"))));
    ss, actions := Then(ss, actions, Sched(ReadJob));
    ss, actions := Then(ss, actions, Sched(Commit(1)));
  }

  lemma RestartedRun() returns (ss: seq<State>, actions: seq<Action>)
    ensures IsRun(ss, actions)
    ensures ss[|ss| - 1] == DISPATCHING.(pending := ["j"], inflight := [], sched := Ready)
  {
    ss, actions := DispatchingRun();
    ss, actions := Extend(ss, actions, Crash);
    ss, actions := Extend(ss, actions, Sched(Boot));
    ss, actions := Extend(ss, actions, Sched(RecoverStep));
    ss, actions := Extend(ss, actions, Sched(RecoverStep));
    ss, actions := Extend(ss, actions, Sched(RecoverStep));
  }

  /** Recover puts the id back, but the restarted scheduler sees an ASSIGNED job and
      acks it: the job is ASSIGNED to a BUSY runner that will never hear of it, and every
      list is empty. */
  lemma StrandedRun() returns (ss: seq<State>, actions: seq<Action>)
    ensures IsRun(ss, actions)
    ensures ss[|ss| - 1] == DISPATCHING.(inflight := [], sched := Ready)
    ensures !NoLimbo.NothingInLimbo(ss[|ss| - 1]) && Stuck.Quiet(ss[|ss| - 1], "j", "r")
  {
    ss, actions := RestartedRun();
    ss, actions := Extend(ss, actions, Sched(Dequeue));
    ss, actions := Extend(ss, actions, Sched(Load));
    ss, actions := Extend(ss, actions, Sched(Ack));
    assert InStatus(ss[|ss| - 1].db, "j", Assigned);
  }

  /** Dispatch fails, and so does the RequeueJob that should take the assignment back. */
  lemma FailedUndoRun() returns (ss: seq<State>, actions: seq<Action>)
    ensures IsRun(ss, actions)
    ensures ss[|ss| - 1] == DISPATCHING.(sched := Removing("j"))
    ensures !NoLimbo.NothingInLimbo(ss[|ss| - 1])
  {
    ss, actions := DispatchingRun();
    ss, actions := Extend(ss, actions, Sched(DispatchFails(false)));
    ss, actions := Extend(ss, actions, Sched(UndoFails));
    assert InStatus(ss[|ss| - 1].db, "j", Assigned);
  }

  // ---------- QUEUED jobs that are lost ----------

  /** The webhook's Enqueue fails. */
  lemma EnqueueFailureRun() returns (ss: seq<State>, actions: seq<Action>)
    ensures IsRun(ss, actions) && Losses.Lost(ss[|ss| - 1], "j")
  {
    ss, actions := [INIT], [];
    ss, actions := Extend(ss, actions, Api(Create(0, "j", KEY, [])));
    ss, actions := Extend(ss, actions, Api(EnqueueFails(0, 0, 1)));
  }

  /** No runner is live, and the scheduler is about to put the id back. */
  lemma PushingRun() returns (ss: seq<State>, actions: seq<Action>)
    ensures IsRun(ss, actions)
    ensures ss[|ss| - 1] ==
      State(Db(map["j" := FRESH], map["r" := IDLE]), [], [], map[], Pushing("j"), Waiting, map[], map[], map[])
  {
    ss, actions := LoadingRun();
    ss, actions := Extend(ss, actions, Sched(Load));
    ss, actions := Extend(ss, actions, Sched(Choose(None)));
    ss, actions := Extend(ss, actions, Sched(Remove));
  }

  /** The scheduler dies between LREM and LPUSH. */
  lemma CrashInRequeueRun() returns (ss: seq<State>, actions: seq<Action>)
    ensures IsRun(ss, actions) && Losses.Lost(ss[|ss| - 1], "j")
  {
    ss, actions := PushingRun();
    ss, actions := Extend(ss, actions, Crash);
  }

  /** The LPUSH fails. */
  lemma PushFailureRun() returns (ss: seq<State>, actions: seq<Action>)
    ensures IsRun(ss, actions) && Losses.Lost(ss[|ss| - 1], "j")
  {
    ss, actions := PushingRun();
    ss, actions := Extend(ss, actions, Sched(RedisFails));
  }

  /** A transient GetJob error makes the scheduler drop a QUEUED job. */
  lemma LoadFailureRun() returns (ss: seq<State>, actions: seq<Action>)
    ensures IsRun(ss, actions) && Losses.Lost(ss[|ss| - 1], "j")
  {
    ss, actions := LoadingRun();
    ss, actions := Extend(ss, actions, Sched(LoadFails));
    ss, actions := Extend(ss, actions, Sched(Ack));
  }

  // ---------- a late requeue frees a runner that has moved on ----------

  const BUSY1 := IDLE.(status := Busy, currentJob := Some("j"), lastAssigned := Some(1))
  const BUSY2 := Runner(Busy, [], Some("k"), 9, Some(2))

  lemma DispatchedRun() returns (ss: seq<State>, actions: seq<Action>)
    ensures IsRun(ss, actions) && FaultFree(actions)
    ensures ss[|ss| - 1] == DISPATCHING.(inflight := [], mail := map["r" := ["j"]], sched := Ready)
  {
    ss, actions := DispatchingRun();
    assert ["j"] + Box(DISPATCHING, "r") == ["j"];
    ss, actions := Then(ss, actions, Sched(Dispatch));
    ss, actions := Then(ss, actions, Sched(Ack));
  }

  /** j is assigned to r and dispatched; k is queued. */
  lemma TwoJobsRun() returns (ss: seq<State>, actions: seq<Action>)
    ensures IsRun(ss, actions)
    ensures ss[|ss| - 1] == State(Db(map["j" := HELD, "k" := FRESH2], map["r" := BUSY1]),
      ["k"], [], map["r" := ["j"]], Ready, Waiting, map[], map[], map[])
  {
    ss, actions := DispatchedRun();
    var s := ss[|ss| - 1];
    assert |KEY.commitSha| != |KEY2.commitSha| && |"j"| == |"k"| && "j"[0] != "k"[0];
    assert !Conflicts(s.db, "k", KEY2);
    ss, actions := Extend(ss, actions, Api(Create(0, "k", KEY2, [])));
    assert ss[|ss| - 1].db.jobs == map["j" := HELD, "k" := FRESH2];
    ss, actions := Extend(ss, actions, Api(Enqueue(0)));
    var t := ss[|ss| - 1];
    assert t.pending == ["k"] && t.inflight == [] && t.mail == map["r" := ["j"]] && t.webhooks == map[];
  }

  const SILENT := BUSY1.(status := Offline, currentJob := None)

  /** r misses its heartbeats, and the reaper is about to requeue j. */
  lemma SilentRun(ss0: seq<State>, actions0: seq<Action>) returns (ss: seq<State>, actions: seq<Action>)
    requires IsRun(ss0, actions0)
    requires ss0[|ss0| - 1].db.runners == map["r" := BUSY1] && ss0[|ss0| - 1].reaper == Waiting
    ensures IsRun(ss, actions) && (FaultFree(actions0) ==> FaultFree(actions))
    ensures
      var s := ss0[|ss0| - 1];
      ss[|ss| - 1] == s.(db := s.db.(runners := map["r" := SILENT]), reaper := Requeueing(Call("j", Change.Requeue, AtRead), []))
  {
    var s := ss0[|ss0| - 1];
    assert StaleRunners(s.db, 5) == {"r"};
    ss, actions := Then(ss0, actions0, Reaper(Reap(5, ["r"])));
    assert Orphans(s.db, ["r"]) == ["j"];
    assert MarkOffline(s.db, 5).runners == map["r" := SILENT];
    assert |"j"| != |""|;
    ss, actions := Then(ss, actions, Reaper(NextOrphan));
    assert ss[|ss| - 1].reaper == Requeueing(Call("j", Change.Requeue, AtRead), []);
  }

  lemma ReapedRun() returns (ss: seq<State>, actions: seq<Action>)
    ensures IsRun(ss, actions)
    ensures ss[|ss| - 1] == State(
      Db(map["j" := HELD, "k" := FRESH2], map["r" := Runner(Idle, [], None, 9, Some(1))]),
      ["k"], [], map["r" := ["j"]], Ready, Requeueing(Call("j", Change.Requeue, AtRead), []), map[], map[], map[])
  {
    ss, actions := TwoJobsRun();
    ss, actions := SilentRun(ss, actions);
    ss, actions := Extend(ss, actions, Api(Heartbeat("r", 9)));
    assert ss[|ss| - 1].db.runners == map["r" := Runner(Idle, [], None, 9, Some(1))];
  }

  lemma ReassignedRun() returns (ss: seq<State>, actions: seq<Action>)
    ensures IsRun(ss, actions)
    ensures ss[|ss| - 1] == State(Db(map["j" := HELD, "k" := HELD2], map["r" := BUSY2]),
      [], ["k"], map["r" := ["j"]], Dispatching("k", "r"), Requeueing(Call("j", Change.Requeue, AtRead), []),
      map[], map[], map[])
  {
    ss, actions := ReapedRun();
    ss, actions := Extend(ss, actions, Sched(Dequeue));
    ss, actions := Extend(ss, actions, Sched(Load));
    ss, actions := Extend(ss, actions, Sched(Choose(Some("r"))));
    assert ss[|ss| - 1].sched == Reading("k", "r");
    ss, actions := Extend(ss, actions, Sched(ReadJob));
    ss, actions := Extend(ss, actions, Sched(Commit(2)));
  }

  /** The reaper's requeue of j releases r, which by now is BUSY with k: k is ASSIGNED
      to an IDLE runner, and the next job may be given to the same runner. */
  lemma RobbedRun() returns (ss: seq<State>, actions: seq<Action>)
    ensures IsRun(ss, actions)
    ensures InStatus(ss[|ss| - 1].db, "k", Assigned) && Owns(ss[|ss| - 1].db, "r", "k") && IsIdle(ss[|ss| - 1].db, "r")
    ensures !Ownership.OneToOne(ss[|ss| - 1].db)
  {
    ss, actions := ReassignedRun();
    ss, actions := Extend(ss, actions, Reaper(RequeueStep));
    ss, actions := Extend(ss, actions, Reaper(RequeueStep));
    assert ss[|ss| - 1].reaper == Requeueing(Call("j", Change.Requeue, AtRelease("r")), []);
    ss, actions := Extend(ss, actions, Reaper(RequeueStep));
    assert !Ownership.Served(ss[|ss| - 1].db, "k");
  }

  // ---------- a requeue whose release comes late ----------

  const AGAIN := FRESH.(attempts := 1)

  /** The reaper has put j back to QUEUED, and has yet to release r. */
  lemma HalfRequeuedRun() returns (ss: seq<State>, actions: seq<Action>)
    ensures IsRun(ss, actions)
    ensures ss[|ss| - 1] == State(
      Db(map["j" := AGAIN, "k" := FRESH2], map["r" := SILENT]),
      ["k"], [], map["r" := ["j"]], Ready, Requeueing(Call("j", Change.Requeue, AtRelease("r")), []), map[], map[], map[])
  {
    ss, actions := TwoJobsRun();
    ss, actions := SilentRun(ss, actions);
    ss, actions := Extend(ss, actions, Reaper(RequeueStep));
    assert ss[|ss| - 1].reaper == Requeueing(Call("j", Change.Requeue, AtWrite(Assigned, Some("r"))), []);
    ss, actions := Extend(ss, actions, Reaper(RequeueStep));
    assert ss[|ss| - 1].db.jobs == map["j" := AGAIN, "k" := FRESH2];
  }

  lemma TakenMeanwhileRun() returns (ss: seq<State>, actions: seq<Action>)
    ensures IsRun(ss, actions)
    ensures ss[|ss| - 1] == State(Db(map["j" := AGAIN, "k" := HELD2], map["r" := BUSY2]),
      [], ["k"], map["r" := ["j"]], Dispatching("k", "r"), Requeueing(Call("j", Change.Requeue, AtRelease("r")), []),
      map[], map[], map[])
  {
    ss, actions := HalfRequeuedRun();
    ss, actions := Extend(ss, actions, Api(Heartbeat("r", 9)));
    assert ss[|ss| - 1].db.runners == map["r" := Runner(Idle, [], None, 9, Some(1))];
    ss, actions := Extend(ss, actions, Sched(Dequeue));
    ss, actions := Extend(ss, actions, Sched(Load));
    ss, actions := Extend(ss, actions, Sched(Choose(Some("r"))));
    assert ss[|ss| - 1].sched == Reading("k", "r");
    ss, actions := Extend(ss, actions, Sched(ReadJob));
    ss, actions := Extend(ss, actions, Sched(Commit(2)));
  }

  /** When RequeueJob(j) began its UPDATE, r was OFFLINE and served nobody; its release
      comes after r has revived and been given k. */
  lemma LateReleaseRun() returns (ss: seq<State>, actions: seq<Action>)
    ensures IsRun(ss, actions)
    ensures InStatus(ss[|ss| - 1].db, "k", Assigned) && Owns(ss[|ss| - 1].db, "r", "k") && IsIdle(ss[|ss| - 1].db, "r")
    ensures !Ownership.Served(ss[|ss| - 1].db, "k")
  {
    ss, actions := TakenMeanwhileRun();
    assert Ownership.Served(ss[|ss| - 1].db, "k");
    ss, actions := Extend(ss, actions, Reaper(RequeueStep));
  }

  /** The release fails instead: the reaper skips the push and j is lost. */
  lemma ReleaseFailureRun() returns (ss: seq<State>, actions: seq<Action>)
    ensures IsRun(ss, actions) && Losses.Lost(ss[|ss| - 1], "j")
  {
    ss, actions := HalfRequeuedRun();
    assert "j"[0] != "k"[0];
    ss, actions := Extend(ss, actions, Reaper(RequeueFails));
  }

  // ---------- a rescue that fails ----------

  const STARTED := DISPATCHING.(inflight := [], mail := map["r" := []], sched := Ready)

  /** r goes silent while its start request is under way, and the reaper is about to requeue j. */
  lemma StartPendingRun() returns (ss: seq<State>, actions: seq<Action>)
    ensures IsRun(ss, actions) && FaultFree(actions)
    ensures ss[|ss| - 1] == STARTED.(db := Db(map["j" := HELD], map["r" := SILENT]),
      agents := map["r" := Starting("j", Call("j", Start(3), AtCheck("r")))],
      reaper := Requeueing(Call("j", Change.Requeue, AtRead), []))
  {
    ss, actions := DispatchedRun();
    ss, actions := PollRun(ss, actions, 3);
    ss, actions := SilentRun(ss, actions);
  }

  /** Both the start and the requeue have read that j is ASSIGNED. */
  lemma BothReadRun() returns (ss: seq<State>, actions: seq<Action>)
    ensures IsRun(ss, actions) && FaultFree(actions)
    ensures ss[|ss| - 1] == STARTED.(db := Db(map["j" := HELD], map["r" := SILENT]),
      agents := map["r" := Starting("j", Call("j", Start(3), AtWrite(Assigned, Some("r"))))],
      reaper := Requeueing(Call("j", Change.Requeue, AtWrite(Assigned, Some("r"))), []))
  {
    ss, actions := StartPendingRun();
    var s := ss[|ss| - 1];
    ss, actions := Then(ss, actions, Agent("r", StartStep));
    assert ss[|ss| - 1] == s.(agents := map["r" := Starting("j", Call("j", Start(3), AtRead))]);
    ss, actions := Then(ss, actions, Agent("r", StartStep));
    assert ss[|ss| - 1] == s.(agents := map["r" := Starting("j", Call("j", Start(3), AtWrite(Assigned, Some("r"))))]);
    ss, actions := Then(ss, actions, Reaper(RequeueStep));
  }

  /** The start commits first. */
  lemma StartWinsRun() returns (ss: seq<State>, actions: seq<Action>)
    ensures IsRun(ss, actions) && FaultFree(actions)
    ensures ss[|ss| - 1] == STARTED.(db := Db(map["j" := RUNNING1], map["r" := SILENT]), agents := map["r" := Executing("j")],
      reaper := Requeueing(Call("j", Change.Requeue, AtWrite(Assigned, Some("r"))), []))
  {
    ss, actions := BothReadRun();
    ss, actions := Then(ss, actions, Agent("r", StartStep));
  }

  /** Nothing fails, but the start commits between the two halves of the reaper's requeue,
      which is then refused: j is RUNNING on an OFFLINE runner that names no job. */
  lemma MissedRescueRun() returns (ss: seq<State>, actions: seq<Action>)
    ensures IsRun(ss, actions) && FaultFree(actions)
    ensures ss[|ss| - 1] == STARTED.(db := Db(map["j" := RUNNING1], map["r" := SILENT]), agents := map["r" := Executing("j")])
    ensures Rescue.IsHeld(ss[|ss| - 1].db, "j") && !Rescue.Attended(ss[|ss| - 1], "j")
  {
    ss, actions := StartWinsRun();
    ss, actions := Then(ss, actions, Reaper(RequeueStep));
    ss, actions := Then(ss, actions, Reaper(NextOrphan));
  }

  /** The scheduler process dies between the reap and the requeue; the next one has nothing
      to recover, and its reaper does not know of j. */
  lemma CrashedRescueRun() returns (ss: seq<State>, actions: seq<Action>)
    ensures IsRun(ss, actions)
    ensures ss[|ss| - 1] == STARTED.(db := Db(map["j" := RUNNING1], map["r" := SILENT]), agents := map["r" := Executing("j")])
    ensures Rescue.IsHeld(ss[|ss| - 1].db, "j") && !Rescue.Attended(ss[|ss| - 1], "j")
  {
    ss, actions := StartedRun();
    ss, actions := SilentRun(ss, actions);
    ss, actions := Extend(ss, actions, Crash);
    ss, actions := Extend(ss, actions, Sched(Boot));
    ss, actions := Extend(ss, actions, Sched(RecoverStep));
  }

  // ---------- the output of a second attempt ----------

  const RUNNING1 := HELD.(status := Running, startedAt := Some(3))
  const LOGGED := FRESH.(attempts := 1, logs := [65], logSeq := 1)
  const ASSIGNED2 := LOGGED.(status := Assigned, runnerId := Some("r"), attempts := 2)
  const RUNNING2 := ASSIGNED2.(status := Running, startedAt := Some(12))
  const REVIVED := Runner(Busy, [], Some("j"), 9, Some(2))

  /** The agent of r receives j. */
  lemma PollRun(ss0: seq<State>, actions0: seq<Action>, now: int) returns (ss: seq<State>, actions: seq<Action>)
    requires IsRun(ss0, actions0)
    requires ss0[|ss0| - 1].mail == map["r" := ["j"]] && AgentOf(ss0[|ss0| - 1], "r") == Polling
    ensures IsRun(ss, actions) && (FaultFree(actions0) ==> FaultFree(actions))
    ensures
      var s := ss0[|ss0| - 1];
      ss[|ss| - 1] == s.(mail := map["r" := []],
                         agents := s.agents["r" := Starting("j", Call("j", Start(now), AtCheck("r")))])
  {
    var s := ss0[|ss0| - 1];
    ss, actions := Then(ss0, actions0, Agent("r", Poll));
    assert ss[|ss| - 1] == s.(mail := map["r" := []], agents := s.agents["r" := Fetched("j")]);
    ss, actions := Then(ss, actions, Agent("r", Deliver(now)));
  }

  /** Its start request is accepted. */
  lemma StartRun(ss0: seq<State>, actions0: seq<Action>, job: Job, now: int) returns (ss: seq<State>, actions: seq<Action>)
    requires IsRun(ss0, actions0)
    requires AgentOf(ss0[|ss0| - 1], "r") == Starting("j", Call("j", Start(now), AtCheck("r")))
    requires ss0[|ss0| - 1].db.jobs == map["j" := job] && job.status == Assigned && job.runnerId == Some("r")
    ensures IsRun(ss, actions)
    ensures
      var s := ss0[|ss0| - 1];
      ss[|ss| - 1] == s.(db := s.db.(jobs := map["j" := job.(status := Running, startedAt := Some(now))]),
                         agents := s.agents["r" := Executing("j")])
  {
    var s := ss0[|ss0| - 1];
    ss, actions := Extend(ss0, actions0, Agent("r", StartStep));
    assert ss[|ss| - 1] == s.(agents := s.agents["r" := Starting("j", Call("j", Start(now), AtRead))]);
    ss, actions := Extend(ss, actions, Agent("r", StartStep));
    assert ss[|ss| - 1] == s.(agents := s.agents["r" := Starting("j", Call("j", Start(now), AtWrite(Assigned, Some("r"))))]);
    ss, actions := Extend(ss, actions, Agent("r", StartStep));
    assert s.db.jobs["j" := job.(status := Running, startedAt := Some(now))]
      == map["j" := job.(status := Running, startedAt := Some(now))];
  }

  /** r executes j. */
  lemma StartedRun() returns (ss: seq<State>, actions: seq<Action>)
    ensures IsRun(ss, actions)
    ensures ss[|ss| - 1] == State(Db(map["j" := RUNNING1], map["r" := BUSY1]), [], [], map["r" := []],
      Ready, Waiting, map["r" := Executing("j")], map[], map[])
  {
    ss, actions := DispatchedRun();
    ss, actions := PollRun(ss, actions, 3);
    ss, actions := StartRun(ss, actions, HELD, 3);
  }

  /** Its first chunk is stored. */
  lemma LoggedRun() returns (ss: seq<State>, actions: seq<Action>)
    ensures IsRun(ss, actions)
    ensures ss[|ss| - 1] == State(Db(map["j" := RUNNING1.(logs := [65], logSeq := 1)], map["r" := BUSY1]), [], [],
      map["r" := []], Ready, Waiting, map["r" := Executing("j")], map[], map[])
  {
    ss, actions := StartedRun();
    var chunk: seq<Byte> := [65];
    assert [] + chunk == chunk;
    ss, actions := Extend(ss, actions, Api(Logs("j", 1, chunk)));
  }

  /** r goes silent and the reaper takes j back. */
  lemma TakenBackRun() returns (ss: seq<State>, actions: seq<Action>)
    ensures IsRun(ss, actions)
    ensures ss[|ss| - 1] == State(
      Db(map["j" := LOGGED], map["r" := SILENT]), [], [], map["r" := []],
      Ready, Enqueueing("j", []), map["r" := Executing("j")], map[], map[])
  {
    ss, actions := LoggedRun();
    ss, actions := SilentRun(ss, actions);
    ss, actions := Extend(ss, actions, Reaper(RequeueStep));
    assert ss[|ss| - 1].reaper == Requeueing(Call("j", Change.Requeue, AtWrite(Running, Some("r"))), []);
    ss, actions := Extend(ss, actions, Reaper(RequeueStep));
    ss, actions := Extend(ss, actions, Reaper(RequeueStep));
  }

  /** The reaper's push fails, and j is lost. */
  lemma OrphanFailureRun() returns (ss: seq<State>, actions: seq<Action>)
    ensures IsRun(ss, actions) && Losses.Lost(ss[|ss| - 1], "j")
  {
    ss, actions := TakenBackRun();
    ss, actions := Extend(ss, actions, Reaper(EnqueueOrphanFails));
  }

  /** r comes back and is given j a second time. */
  lemma AssignedAgainRun() returns (ss: seq<State>, actions: seq<Action>)
    ensures IsRun(ss, actions)
    ensures ss[|ss| - 1] == State(Db(map["j" := ASSIGNED2], map["r" := REVIVED]), [], ["j"], map["r" := []],
      Dispatching("j", "r"), Sweeping([]), map["r" := Executing("j")], map[], map[])
  {
    ss, actions := TakenBackRun();
    ss, actions := Extend(ss, actions, Reaper(EnqueueOrphan));
    ss, actions := Extend(ss, actions, Api(Heartbeat("r", 9)));
    assert ss[|ss| - 1].db.runners == map["r" := Runner(Idle, [], None, 9, Some(1))];
    ss, actions := Extend(ss, actions, Sched(Dequeue));
    ss, actions := Extend(ss, actions, Sched(Load));
    ss, actions := Extend(ss, actions, Sched(Choose(Some("r"))));
    assert ss[|ss| - 1].sched == Reading("j", "r");
    ss, actions := Extend(ss, actions, Sched(ReadJob));
    ss, actions := Extend(ss, actions, Sched(Commit(2)));
  }

  lemma StartedAgainRun() returns (ss: seq<State>, actions: seq<Action>)
    ensures IsRun(ss, actions)
    ensures ss[|ss| - 1] == State(Db(map["j" := RUNNING2], map["r" := REVIVED]), [], [], map["r" := []],
      Ready, Sweeping([]), map["r" := Executing("j")], map[], map[])
  {
    ss, actions := AssignedAgainRun();
    var s := ss[|ss| - 1];
    assert ["j"] + Box(s, "r") == ["j"];
    ss, actions := Extend(ss, actions, Sched(Dispatch));
    ss, actions := Extend(ss, actions, Sched(Ack));
    ss, actions := Extend(ss, actions, Agent("r", Finish));
    assert ss[|ss| - 1] ==
      s.(inflight := [], mail := map["r" := ["j"]], sched := Ready, agents := map["r" := AgentPc.Polling]);
    ss, actions := PollRun(ss, actions, 12);
    ss, actions := StartRun(ss, actions, ASSIGNED2, 12);
  }

  /** The second attempt executes the job, numbers its chunks from 1 again, and its first
      chunk is taken for a redelivery: the log keeps only the output of the first attempt. */
  lemma SecondAttemptLost() returns (ss: seq<State>, actions: seq<Action>)
    ensures IsRun(ss, actions) && |ss| >= 2 && actions[|actions| - 1] == Api(Logs("j", 1, [66]))
    ensures ss[|ss| - 2].db.jobs == map["j" := RUNNING2] && AgentOf(ss[|ss| - 2], "r") == Executing("j")
    ensures RUNNING2.attempts == 2 && ss[|ss| - 1] == ss[|ss| - 2]
  {
    ss, actions := StartedAgainRun();
    ss, actions := Extend(ss, actions, Api(Logs("j", 1, [66])));
  }
}
