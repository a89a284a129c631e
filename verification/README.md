# ForgeRun: a verified model of the job protocol

ForgeRun is a distributed CI job orchestrator. Webhooks create job rows and push ids on a
Redis list; one scheduler process moves ids to an in-flight list, assigns jobs to runners
in Postgres and drops ids in runner mailboxes; runner agents poll, start, execute, stream
logs and report; a reaper takes jobs back from runners that stopped sending heartbeats.

This project models that protocol in Dafny and proves what it guarantees over every
interleaving, and exactly where a guarantee stops. `dafny verify dfyconfig.toml` checks
the whole project.

## How the model is built

| file | content |
|---|---|
| `Models.dfy`, `Sql.dfy` | the two state machines, the two rows, and each SQL statement of the store as one atomic function on the tables |
| `Tables.dfy` | what every run of legal statements keeps, whoever issues them |
| `Columns.dfy` | column by column, what each statement and transition writes and leaves alone, and who wrote the values a run ends up with |
| `Calls.dfy` | a store method cut at its SQL statements, the same method as one step, and how the two relate |
| `Cluster.dfy` | the whole system as a step machine: webhook handlers, API handlers, agents, scheduler, reaper, lists, mailboxes. Each SQL statement, transaction or Redis command is one step; every sequence of actions is a run |
| `Order.dfy`, `Passes.dfy` | the lists of the system are the queue and the mailboxes, first in, first out over every run; passes, ticks and requests that are left alone equal the whole methods |
| `NoLoss.dfy`, `Fresh.dfy`, `Losses.dfy` | QUEUED jobs are never lost; ids that only their webhook knows; the excluded faults, each with the exact condition under which it loses a job |
| `NoLimbo.dfy` | ASSIGNED jobs are always on their way to their runner; the excluded faults with their exact conditions |
| `Rescue.dfy` | which held jobs a reap can still find, and exactly when one gets out of sight |
| `Stuck.dfy` | a held job that nobody works on stays where it is until it is cancelled or taken back |
| `Lease.dfy`, `Obey.dfy` | a runner that lost its lease is refused; the system together with the two threads of one agent |
| `Ownership.dfy` | one-to-one ownership with store methods and reaper passes as steps, and exactly when it breaks statement by statement |
| `Races.dfy` | concrete interleavings that the stronger guarantees exclude |
| `Store.dfy`, `Queue.dfy`, `Service.dfy`, `Api.dfy` | the store, queue, scheduler and handlers as classes, each method proved against the functions above |
| `Scheduler.dfy`, `Fairness.dfy` | the least-recently-used capability scheduler; its fairness bound in runs of the whole system |
| `LogStream.dfy`, `Logs.dfy` | the two-lock log buffer and the sequence-guarded append |
| `Agent.dfy`, `Liveness.dfy`, `Alive.dfy` | the agent's two threads; heartbeat timing, of the loop alone and in the table |
| `Migrate.dfy`, `MigrateRaces.dfy` | crash-restartable migrations; overlapping calls |
| `Lists.dfy`, `Text.dfy` | Redis lists; Go's string order |

Hypotheses are stated in the lemmas that need them: crashes of the scheduler outside
named gaps and success of named calls (`NoLoss.Benign`, `NoLimbo.Benign`), one scheduler
process, and one agent per runner id. Each excluded crash or failure of `Benign` is an action
of the system and has its exact condition. Timestamps written by `now()` are values
chosen by the environment, except in `Liveness`, and in `Fairness`, where the clock does not
run backwards between assignments.

## Where the code and its comments disagree

The model follows the code.

- `internal/queue/redis.go:20-24` says that an id survives a scheduler that dies mid-assignment
  because Recover puts it back. It does, but a scheduler that dies between AssignJob and
  Dispatch leaves a job that the next scheduler acknowledges unseen (`Races.StrandedRun`), and that
  stays ASSIGNED until it is cancelled or taken back (`Stuck.QuietForGood`).
- `internal/store/store.go:118-119` says that the job and the runner can never disagree about who owns
  the job. A release looks at the runner's status only, and comes in a statement of its own: a late
  requeue frees a runner that has moved on (`Races.RobbedRun`), and so does a requeue that was in
  order when it began (`Races.LateReleaseRun`). A job and its runner agree exactly as long as no
  release of that runner, for whichever job, and no reap of it comes in between
  (`Ownership.ServedExactly`).
- `internal/api/webhook.go:75-78` means to fail a job that could not be queued. The table refuses
  QUEUED to FAILED, so the job stays QUEUED for good (`Losses.CompensationRefused`, `Losses.LostForGood`).
- `internal/scheduler/service.go:66-69` means to drop ids of jobs that are gone; it drops an id on any GetJob
  error (`Losses.LoadFailureLosesExactly`).
- `internal/scheduler/service.go:125-126` says that the reaper rescues the jobs of silent runners, so that a crashed
  runner never stalls a job. The reap takes the job's name out of the runner row, and from then on
  only the reaper's memory has it. A job gets out of sight exactly when the process dies then, when the
  requeue fails or is refused because the status has changed, or when a release of the runner row that names
  it comes for another job (`Rescue.AttendedExactly`), and stays out of sight for good
  (`Rescue.NeglectedForGood`). No fault is needed: a start that commits between the two halves of the requeue
  is enough (`Races.MissedRescueRun`, `Races.CrashedRescueRun`). After the requeue has committed, a failing
  release or Enqueue loses the job as QUEUED (`Losses.OrphanFailureLosesExactly`).
- `internal/runner/agent.go:309-311` says that no result is reported for a job that was taken away. One is
  reported exactly when the build definition cannot be read, or when the check ran before the mark
  (`Agent.MarkedPostsExactly`, `Agent.MarkedYetPosts`).
- `internal/api/runners.go:121-132` tells a runner to stop when its lease is lost; any error of reading the job counts
  as that, and the agent then drops a job it still owns without a result (`Obey.WrongfulCancelRun`,
  `Obey.DroppedForGood`).
- `internal/store/store.go:196-198` makes redelivered chunks no-ops; the first chunks of a second attempt
  are taken for redeliveries too, because `log_seq` survives a requeue (`Logs.WholeExactly`,
  `Races.SecondAttemptLost`).
- `internal/store/migrate.go:18` says that every pending file is applied once, in filename order. A Rollback that commits
  between a Migrate's check and its transaction leaves a gap (`MigrateRaces.ClashRun`); the exact condition is
  `MigrateRaces.PrefixExactly`.

## Model

| member | source | states |
|---|---|---|
| Cluster.RunsAreHistories | internal/store/store.go:97-153 | For any number of clients interleaving the read and write halves of transition and AssignJob, the tables change only by statements whose guard was checked against the transition table; so every Tables theorem holds of every run of the system |
| Cluster.TablesKept | internal/store/store.go:94-194 | In every run of the system: rows evolve as in Tables.JobsEvolve between any two points, and runner rows, the unique index and the time columns are consistent at every point |
| Cluster.FinishedStaysFinished | internal/models/job.go:19-28 | Once terminal, a job's status, exit code, error, completion time, runner and attempts never change in any run |
| Tables.CommittedPath | internal/models/job.go:21-37 | In every run the committed statuses of a job form a path of jobTransitions from QUEUED to its present status |
| Tables.JobsEvolve | internal/store/store.go:97-194 | Between any two points of a run: a terminal row never changes again except in its log columns, key columns never change, attempts never decrease, equal attempts with a holder at the later point mean the same holder at both, and within one attempt started_at, once the job has begun, stays |
| Tables.AttemptsAccounted | internal/store/store.go:134-183 | attempts equals committed requeues plus one exactly when runner_id is set; QUEUED rows name no runner, ASSIGNED and RUNNING rows name one |
| Tables.TimesAgree | internal/store/store.go:155-194 | completed_at is set exactly on terminal jobs, exit_code exactly on SUCCESS and FAILED, started_at never on QUEUED or ASSIGNED and always on RUNNING and SUCCESS |
| Tables.RunnerRows | internal/models/runner.go:14-28 | Every status write by assign, release, heartbeat and reap is an edge of runnerTransitions or no change, and BUSY holds iff current_job_id is set |
| Tables.ActiveJobsUnique | migrations/0001_init.sql:37-39 | In every run at most one unfinished job exists per repository, commit and event |
| Tables.IndexNeverTripped | migrations/0001_init.sql:37-39 | No UPDATE can violate the partial unique index, although the updates are modelled without any check of it |
| Tables.InsertAdmits | internal/store/store.go:58-71 | CreateJob inserts iff the id is free and every job with the same key is terminal, and then adds exactly one QUEUED row |
| Tables.ReapAndRevive | internal/store/store.go:286-359 | A reap leaves no stale runner, frees those it marks, touches nobody else and no job; one heartbeat makes a reaped runner schedulable again |
| Tables.RegisterJoins | internal/store/store.go:245-251 | A new runner is schedulable at once with its labels, never used and owning nothing; an existing row is never overwritten |
| Columns.JobTransitions | internal/models/job.go:19-37 | By target status, which statuses it can be reached from; terminal, active and held statuses |
| Columns.RunnerTransitions | internal/models/runner.go:14-28 | By target status, which statuses it can be reached from |
| Columns.ChangeWrites | internal/store/store.go:155-194 | Column by column: a start sets started_at to its own time, completion and cancellation set completed_at to theirs, the report sets exit code and error, a requeue clears runner and started_at; nothing else is touched |
| Columns.MoveWrites | internal/store/store.go:97-116 | The guarded UPDATE writes that one row iff the guard holds, and nothing otherwise |
| Columns.InsertWrites | internal/store/store.go:58-71 | The new row has the caller's key and labels and is QUEUED, unowned, unstarted, with an empty log |
| Columns.AppendWrites | internal/store/store.go:199-208 | Appends and renumbers iff the number is above log_seq; no other column or row changes |
| Columns.AssignWrites | internal/store/store.go:120-153 | Both rows or neither: status, runner and one attempt more; status, job and stamp; nothing else |
| Columns.ReleaseWrites | internal/store/store.go:324-329 | A BUSY runner becomes IDLE and names no job; nothing else changes |
| Columns.BeatRefreshes | internal/store/store.go:286-299 | Whatever its status, a known runner has last_heartbeat now and is not stale for any cutoff up to now; its status changes only from OFFLINE to IDLE; nothing else changes |
| Columns.ReapWrites | internal/store/store.go:333-345 | Exactly the runners not heard of since the cutoff and not OFFLINE yet become OFFLINE and name no job; they keep everything else |
| Columns.PoolIsLive | internal/store/store.go:303-308 | A runner is in the pool iff it is IDLE and was heard of after the cutoff; pool and stale runners never meet |
| Columns.StartHasAuthor | internal/store/store.go:155-158 | In every run a started_at was written by a committed start at that time and has not changed since |
| Columns.EndHasAuthor | internal/store/store.go:160-194 | In every run a completed_at was written by a committed report or cancellation at that time |
| Columns.ResultHasAuthor | internal/store/store.go:160-171 | In every run exit code and error are those of one committed report |
| Columns.CreateStores | internal/api/webhook.go:47-72 | A webhook's job carries the key and labels of its request, and the webhook owes its push |
| Columns.RegisterStores | internal/store/store.go:245-251 | A registered runner carries its labels and the time of its registration |
| Columns.TickMarks | internal/store/store.go:333-345 | After a tick exactly the runners that were OFFLINE or not heard of since the cutoff are OFFLINE |
| Tables.LeaseLostExactly | internal/api/runners.go:121-132 | In every reachable state a lease is lost iff the runner does not hold the job: the row is missing, QUEUED, finished or with another runner |
| Tables.LostLeaseStaysLost | internal/api/runners.go:126-132 | A lost lease stays lost in every later state until AssignJob commits for the same job and runner |
| Lease.RequestRefused | internal/api/jobs.go:77-183 | A start or result request whose ownership check runs while the lease is lost is refused and writes nothing, in every continuation, even if the job is assigned to the runner again meanwhile |
| Lease.AgentRefused | internal/runner/agent.go:205-221 | An agent handed a job it no longer owns never executes it |
| Obey.MarkedOnlyIfLost | internal/api/runners.go:110-132 | In every run of the system with the agent's two threads: a delivery is marked only if a heartbeat that named it was served while the lease on its job was lost, or while the job could not be read |
| Obey.HeartbeatMarksExactly | internal/api/runners.go:110-132 | A heartbeat whose reply arrives marks the delivery it names iff the lease is lost or the job cannot be read |
| Obey.CancelReachesAgent | internal/api/runners.go:121-132 | After a cancellation has committed, every heartbeat served for a delivery of the job marks it once its reply arrives |
| Obey.MarkedIsRefused | internal/runner/agent.go:159-166 | What the runner still sends for the job of a marked delivery is refused and writes nothing, in every continuation, if the job could be read then and was not assigned to the same runner again before the request's ownership check |
| Obey.WrongfulCancelRun | internal/api/runners.go:126-131 | A concrete run: the job cannot be read while a heartbeat is served, the agent drops a job it still owns and posts nothing, and the job stays RUNNING on a BUSY runner |
| Obey.DroppedForGood | internal/runner/agent.go:284-316 | A job that the agent has dropped keeps its status and runner in every continuation until it is cancelled or the reaper requeues it, as long as it is not delivered to the runner again and the runner asks about it only while executing a delivery of it |
| Stuck.QuietForGood | internal/scheduler/service.go:71-76 | A held job that no agent, mailbox, scheduler step or request under way is about to move keeps its status and runner in every continuation, restarts, faults and requests of other runners included, until a cancellation or the reaper's requeue commits or its own runner asks about it |
| Calls.CommitRefinesAtomic | internal/store/store.go:97-116 | A write half that commits does to the jobs table what the atomic method would do at that instant; a refusal by the read half is the atomic refusal; a refusal by the write half writes nothing and means the status changed |
| Calls.ReleaseRefinesExactly | internal/store/store.go:160-194 | Write and release together equal the atomic method iff the runner read earlier is the present one or neither is BUSY |
| Calls.UninterruptedIsAtomic | internal/store/store.go:97-194 | The statements of a call, run without interference, equal the atomic method in effect and outcome |
| NoLoss.NoQueuedJobLost | internal/scheduler/service.go:28-157 | In every interleaving, with scheduler crashes outside the two gaps and failing dispatches, assignments, undos, acknowledgements and recoveries, each QUEUED job is in pending, in inflight, or owed a push by a named process |
| Order.FirstInFirstOut | internal/queue/redis.go:39-52 | In every run, crashes and faults included: the ids the scheduler has taken, followed by those that wait, are exactly the ids that were pushed, in order |
| Order.MailFirstInFirstOut | internal/queue/redis.go:81-99 | In every run the entries that have left a mailbox, followed by those in it, are exactly the entries put into it, in order |
| Order.StepIsQueue | internal/queue/redis.go:39-99 | Every step of the system has exactly the effect of the queue's method on the lists and mailboxes |
| Order.TakersGetTheFirst | internal/queue/redis.go:43-99 | The scheduler goes on with the id, and an agent with the entry, that has waited longest |
| Fresh.OwedIdsAreFresh | internal/api/webhook.go:47-74 | In every run, all faults included: an id that a webhook still has to push is in no list, known to neither scheduler nor reaper nor any runner row, and owed by that webhook alone; every id that is known has a row |
| Losses.CrashLosesExactly | internal/queue/redis.go:58-63 | A crash loses a job iff it interrupts the push of a QUEUED job that neither list holds |
| Losses.LoadFailureLosesExactly | internal/scheduler/service.go:65-70 | After a failing GetJob the acknowledgement, wherever it comes in the run, loses the job iff it is QUEUED then, neither list has another entry of it, and the reaper is not about to push it |
| Losses.PushFailureLosesExactly | internal/queue/redis.go:58-76 | A failing LPUSH inside Requeue or Recover loses the job iff it is QUEUED, neither list holds it, and the reaper is not about to push it |
| Losses.EnqueueFailureLosesExactly | internal/api/webhook.go:74-81 | A failing Enqueue loses the job iff its row is still QUEUED |
| Losses.OrphanFailureLosesExactly | internal/scheduler/service.go:145-152 | A failing Enqueue of the reaper, or a failing release inside its RequeueJob, loses the orphan iff it is still QUEUED, neither list holds it, and the scheduler does not owe it a push |
| Losses.CompensationRefused | internal/api/webhook.go:78-80 | The compensating CompleteJob(FAILED) never changes a QUEUED row |
| Losses.LostForGood | internal/scheduler/service.go:28-60 | A lost job stays QUEUED and out of reach in every continuation, restarts and Recover included, until it is cancelled |
| Races.EnqueueFailureRun | internal/api/webhook.go:62-81 | A concrete run in which a failed Enqueue loses a job |
| Races.CrashInRequeueRun | internal/scheduler/service.go:86-90 | A concrete run in which a crash between LREM and LPUSH loses a job |
| Races.LoadFailureRun | internal/scheduler/service.go:65-70 | A concrete run in which a transient GetJob error loses a job |
| Races.PushFailureRun | internal/scheduler/service.go:119-123 | A concrete run in which a failed LPUSH of Requeue loses a job |
| Races.OrphanFailureRun | internal/scheduler/service.go:149-152 | A concrete run in which the reaper's failed push loses a rescued job |
| Races.ReleaseFailureRun | internal/store/store.go:174-183 | A concrete run in which a failed release makes the reaper skip the push, and loses the job |
| NoLimbo.NoAssignedJobInLimbo | internal/scheduler/service.go:98-117 | In every interleaving at SQL granularity, stale mailbox entries, reaping, failed dispatches and failed queue operations included, a job ASSIGNED to r is in r's mailbox, with the scheduler before its dispatch or undo, or received by r's agent and not yet started |
| NoLimbo.CrashStrandsExactly | internal/scheduler/service.go:98-110 | A crash strands an ASSIGNED job iff the scheduler still held it and it had reached neither mailbox nor agent |
| NoLimbo.PollFailureStrandsExactly | internal/api/runners.go:157-162 | An entry that is popped and not delivered strands its job iff the job is ASSIGNED to that runner, no second entry follows, and the scheduler does not still hold it |
| NoLimbo.StartFailureStrandsExactly | internal/api/middleware.go:121-128 | A failing start request, a transient error of the ownership check included, strands its job iff it is still ASSIGNED to that runner, has no further mailbox entry, and the scheduler does not still hold it |
| NoLimbo.ExpiryStrandsExactly | internal/queue/redis.go:86-87 | An expiring mailbox strands exactly the jobs ASSIGNED to its runner that neither its agent nor the scheduler still holds |
| NoLimbo.UndoFailureStrandsExactly | internal/scheduler/service.go:103-110 | A failing undo strands its job iff the job is still ASSIGNED and had reached neither mailbox nor agent |
| Races.FailedUndoRun | internal/scheduler/service.go:103-110 | A concrete run: Dispatch and the undoing RequeueJob fail; the job is ASSIGNED to a BUSY runner that will not hear of it |
| Rescue.AttendedExactly | internal/scheduler/service.go:125-157 | In every run, all crashes and faults included: a held job that a runner row names or the reaper still has to requeue stays so iff no step lets go of it: a crash while only the reaper has it, a failing or refused requeue of it, or a release of the last runner row that names it |
| Rescue.StepAttendsExactly | internal/store/store.go:331-359 | One step keeps a held job attended iff it does not let go of it, a reap included, and no step attends to it again |
| Rescue.CommitAttends | internal/store/store.go:118-153 | Every committed assignment starts out attended |
| Rescue.NeglectedForGood | internal/store/store.go:336-345 | A held job that was let go keeps its status and runner and stays out of the reaper's sight in every continuation until a request about it, or the scheduler's undo, commits |
| Races.MissedRescueRun | internal/scheduler/service.go:145-148 | A concrete run without crash or failure: a start commits between read and write of the reaper's requeue, which is refused; the job is RUNNING on an OFFLINE runner that names no job |
| Races.CrashedRescueRun | internal/scheduler/service.go:135-154 | A concrete run: the process dies between reap and requeue, and the next reaper does not know of the job |
| Races.StrandedRun | internal/scheduler/service.go:71-76 | A concrete run: crash after AssignJob, Recover, acknowledge; the job is ASSIGNED to a BUSY runner, in no list, and nobody is about to move it |
| Races.RobbedRun | internal/store/store.go:324-329 | A concrete run: reap, heartbeat, reassign, late requeue; the second job is ASSIGNED to an IDLE runner |
| Races.LateReleaseRun | internal/store/store.go:173-183 | A concrete run: the UPDATE of a requeue commits while its runner is OFFLINE, the runner comes back and is given another job, and only then the release frees it |
| Races.SecondAttemptLost | internal/store/store.go:173-216 | A concrete run: assign, start, one chunk, reap, requeue, assign and start again; the first chunk of the second attempt changes nothing |
| Ownership.OwnershipBijection | internal/store/store.go:118-194 | With store methods and reaper passes as steps, BUSY runners and ASSIGNED/RUNNING jobs correspond one to one in every reachable state, and IDLE and OFFLINE runners own nothing |
| Ownership.StepsAreMethods | internal/store/store.go:118-359 | The steps of that machine are the statements and methods of the store |
| Ownership.NoRunnerHoldsTwo | internal/store/store.go:118-153 | No runner holds two jobs |
| Ownership.ReleaseRobsExactly | internal/store/store.go:160-194 | A releasing method run as one step takes the runner from another job iff its job's row names the runner that serves that other job |
| Ownership.ServedExactly | internal/store/store.go:324-359 | In every run of the whole system, statement by statement: as long as a job's row stays with r, the row of r agrees iff no release of r and no reap of a stale r has come in between |
| Ownership.StepRobsExactly | internal/store/store.go:324-359 | One statement makes the two rows disagree iff it releases that runner or reaps it; none but a new assignment makes them agree again |
| Ownership.CommitServes | internal/store/store.go:118-153 | A committed assignment makes job row and runner row agree, whatever they said before |
| Store.JobStore.CreateJob | internal/store/store.go:58-71 | Inserts the row or reports the duplicate |
| Store.JobStore.Transition | internal/store/store.go:97-116 | NotFound without the row, Invalid iff the table refuses, otherwise the guarded update, and the row as read |
| Store.JobStore.AssignJob | internal/store/store.go:120-153 | NotFound, Invalid unless QUEUED, NotIdle unless the runner is IDLE, otherwise both rows change; in the other cases neither |
| Store.JobStore.CompleteJob | internal/store/store.go:161-171 | Equals the atomic completing step |
| Store.JobStore.RequeueJob | internal/store/store.go:174-183 | Equals the atomic requeueing step |
| Store.JobStore.CancelJob | internal/store/store.go:185-194 | Equals the atomic cancelling step |
| Store.JobStore.AppendLogs | internal/store/store.go:199-216 | Appends iff the number is above log_seq; a repeated chunk is no error |
| Store.JobStore.Heartbeat | internal/store/store.go:286-299 | Refreshes the row, revives an OFFLINE runner, reports an unknown one |
| Store.JobStore.IdleRunners | internal/store/store.go:303-322 | Returns exactly the runners that are IDLE and were heard of after the cutoff, each once, never-used ones first and then by last_assigned_at |
| Store.JobStore.ReapOfflineRunners | internal/store/store.go:333-359 | Marks exactly the stale runners and reports for each the job it held before |
| Queue.RecoverIsExact | internal/queue/redis.go:65-76 | Recover conserves the ids with multiplicity, is idempotent, and leaves old pending first in dequeue order, then the in-flight ids newest first |
| Queue.RequeueConserves | internal/queue/redis.go:58-63 | Requeue conserves the ids iff the id was in flight |
| Queue.RedisQueue.Recover | internal/queue/redis.go:65-76 | The loop empties inflight, duplicates included, prepends its reverse to pending and returns its length |
| Queue.RedisQueue.Dequeue | internal/queue/redis.go:43-52 | Moves the next id in order to inflight, conserving all ids; reports an empty queue |
| Queue.RedisQueue.Receive | internal/queue/redis.go:90-99 | Mailboxes are first in, first out and independent |
| Service.RecoverStepsAreRecover | internal/queue/redis.go:65-76 | The Redis commands of Recover, one step at a time, equal the whole method |
| Service.Scheduling.Assign | internal/scheduler/service.go:62-117 | For every outcome of its calls: an id is dropped iff its job cannot be read or is not QUEUED, put back iff no runner can be listed, is eligible or can be assigned, and otherwise given to a best runner, IDLE, heard of after the cutoff and with every label, with row, runner, mailbox and in-flight list updated together, or undone and put back iff Dispatch failed |
| Passes.PassDrops | internal/scheduler/service.go:65-76 | The steps of a pass that is left alone drop the id iff its job cannot be read or is not QUEUED |
| Passes.PassPutsBack | internal/scheduler/service.go:78-102 | They put it back iff no runner is listed or chosen, or the assignment does not commit |
| Passes.PassHands | internal/scheduler/service.go:98-117 | Otherwise they equal the whole method: assigned, dispatched and acknowledged, or undone and put back when Dispatch fails |
| Passes.DropsOnlyIf | internal/scheduler/service.go:62-117 | With any interference an id is dropped only if its job could not be read, was not QUEUED when read, or has been dispatched |
| Service.UndoRestores | internal/store/store.go:173-183 | RequeueJob right after AssignJob restores both tables except for attempts and the runner's stamp |
| Service.Scheduling.ReapTick | internal/scheduler/service.go:135-154 | One tick is the atomic reaper pass and pushes exactly the rescued jobs |
| Service.SweepIsPass | internal/scheduler/service.go:140-154 | The loop over the orphans equals the pass on the tables plus the pushes of the accepted ids |
| Passes.TickIsSweep | internal/scheduler/service.go:140-154 | The statements of a tick, left alone, amount to the loop over the orphans |
| Passes.RequestAlone | internal/api/jobs.go:77-183 | A runner's request, left alone, is forbidden iff the runner does not own the job, and otherwise does what the store's method does |
| Passes.RequestServed | internal/api/jobs.go:77-183 | The same from arrival to answer in the whole system, which changes nothing else |
| Passes.CancelServed | internal/api/jobs.go:57-73 | A cancellation, left alone from arrival to answer, does what CancelJob does, whoever owns the job |
| Service.StampsFollow | internal/store/store.go:143-145 | Only a committed assignment writes last_assigned_at, and only that of its runner |
| Api.Server.HandleJobStart | internal/api/jobs.go:77-100 | Accepted iff the caller owns the job and it is ASSIGNED; then status and started_at change and nothing else; otherwise nothing changes |
| Api.Server.HandleJobResult | internal/api/jobs.go:139-183 | Accepted iff from the owner, SUCCESS or FAILED, and the job can still end that way; then status, completed_at, exit code and error are recorded, the runner is freed, and nothing else changes |
| Api.Server.HandleJobLogs | internal/api/jobs.go:108-131 | Accepted iff from the owner with a positive number and at most 1 MiB |
| Api.Server.HandleCancelJob | internal/api/jobs.go:57-73 | Cancels iff the job exists and is unfinished: status and completed_at change, its runner is freed, and nothing else changes |
| Api.Server.HandleHeartbeat | internal/api/runners.go:97-132 | Refreshes the runner and answers cancel iff a job was named and it cannot be read, does not exist, is finished or names another runner |
| Api.KeepsExactly | internal/api/runners.go:121-132 | In every reachable state the job is kept iff the runner holds it |
| Api.Server.HandlePollJob | internal/api/runners.go:139-177 | Pops the oldest mailbox entry and delivers the job's row |
| Api.Server.HandleWebhook | internal/api/webhook.go:47-93 | Creates the row with the request's key and labels and pushes it, reports a duplicate, or after a failed push leaves the row QUEUED |
| Scheduler.CanRun | internal/models/runner.go:46-57 | True iff every required label is present |
| Scheduler.Schedule | internal/scheduler/scheduler.go:31-61 | None iff every IDLE candidate lacks a label; otherwise an IDLE one with every label, never-used ones first by id, then the one used longest ago |
| Scheduler.OrderIrrelevantExactly | internal/scheduler/scheduler.go:31-61 | The choice is the same for every order of the pool iff the best candidates are not tied |
| Scheduler.DistinctStampsNoTie | internal/scheduler/scheduler.go:50-61 | Distinct ids and distinct non-nil stamps exclude ties |
| Scheduler.BypassBounded | internal/scheduler/scheduler.go:20-28 | A runner that is eligible every time, last assigned in an earlier tick or never, is passed over at most once per other runner in the table |
| Scheduler.ChosenDistinct | internal/scheduler/scheduler.go:31-61 | While a runner is passed over no other runner is chosen twice |
| Fairness.RunsAreConsistent | internal/scheduler/service.go:78-104 | In every run of the whole system in which Schedule makes the choices and the clock does not run backwards, each pool still shows the stamps in the table when its assignment commits, and each commit stamps the chosen runner alone, whatever ran between listing and commit |
| Fairness.EveryCommitCounts | internal/store/store.go:143-152 | Every committed assignment of the run is one of the decisions the bound counts |
| Fairness.BypassBoundedInRuns | internal/scheduler/scheduler.go:20-28 | In every such run a stretch of assignments at which a runner was eligible and passed over, itself last assigned in an earlier tick or never, is no longer than the number of other runners |
| LogStream.StreamConserved | internal/runner/logstream.go:48-78 | For every interleaving of writers, ticks and Close: sent chunks, chunk in hand and buffer are exactly what was written, in order; numbers are 1..n and no chunk is empty |
| LogStream.FlushDelivers | internal/runner/logstream.go:54-78 | When a flush or Close returns, everything written before it began has been sent |
| LogStream.Streamer.Flush | internal/runner/logstream.go:54-70 | Everything buffered leaves as one numbered chunk |
| LogStream.Streamer.Close | internal/runner/logstream.go:73-78 | The first Close flushes, later ones do nothing |
| Logs.StoredIsRecords | internal/store/store.go:196-216 | For any arrivals the stored log grows by exactly the chunks that were a strict running maximum |
| Logs.RedeliveryIsNoOp | internal/store/store.go:196-198 | Redelivering any chunks that arrived changes nothing |
| Logs.DeliveredExactly | internal/api/jobs.go:102-131 | With in-order at-least-once delivery an attempt adds its chunks above the log_seq it found, once and in order, without the oversized ones |
| Logs.WholeExactly | internal/store/store.go:173-216 | An attempt's output is stored whole iff log_seq was 0 (or nothing was sent) and every chunk fits 1 MiB |
| Logs.EndToEnd | internal/runner/logstream.go:48-78 | For a first attempt whose chunks fit, the log after Close and delivery is every byte written, once and in order |
| Logs.HandleIsAppendLog | internal/store/store.go:199-208 | The guarded UPDATE changes the two log columns of one row and nothing else |
| Agent.AgentSafe | internal/runner/agent.go:131-168 | Over unboundedly many jobs: a context is cancelled by the heartbeat thread only after a cancel reply to a heartbeat naming that delivery; at most one result per delivery; none after a check that found the mark |
| Agent.MarkedNeverPosts | internal/runner/agent.go:284-290 | A delivery marked before an abandoned check it reaches never posts a result |
| Agent.PostsExactly | internal/runner/agent.go:205-307 | A delivery that is over has posted a result iff its start was accepted and no abandoned check of it found the mark |
| Agent.PostedAfterWork | internal/runner/agent.go:230-307 | A delivery posts a result only if its checkout failed, its build definition was unreadable, or its build was executed and then checked for a mark |
| Agent.NoLateCapture | internal/runner/agent.go:284-290 | After Execute the active entry is cleared before the check: no heartbeat captured later names the delivery |
| Agent.WorkingIsNamed | internal/runner/agent.go:146-151 | A heartbeat captured while a delivery is started, checked out, parsed or executed names it |
| Agent.RevokedIsStopped | internal/runner/agent.go:160-166 | A cancel reply marks the delivery it was captured for and then cancels its context |
| Agent.MarkedPostsExactly | internal/runner/agent.go:309-316 | A delivery marked at some point posts a result iff its build definition was unreadable or its check ran before the mark |
| Agent.LateReplyIsHarmless | internal/runner/agent.go:146-166 | A late reply touches only the delivery it was captured for |
| Agent.LateClearIsHarmless | internal/runner/agent.go:356-364 | A late clearActive leaves the entry of any other delivery alone |
| Agent.MarkedYetPosts | internal/runner/agent.go:261-266 | A concrete run in which a marked delivery with an unreadable build definition posts a result |
| Agent.Bookkeeping.SetActive | internal/runner/agent.go:350-354 | On the shared objects: realises the activating step of the two-thread machine |
| Agent.Bookkeeping.ClearActive | internal/runner/agent.go:356-364 | On the shared objects, compared by address: realises the clearing steps of the machine, and for a late call on any delivery clears that delivery's entry only |
| Agent.Bookkeeping.CurrentJob | internal/runner/agent.go:366-370 | The captured object is the delivery that the machine's heartbeat request names |
| Agent.Bookkeeping.HandleReply | internal/runner/agent.go:155-167 | The tail of a heartbeat realises answer, mark and cancellation of the captured delivery, whatever is active by then |
| Liveness.NeverReaped | internal/runner/agent.go:131-144 | Calls of at most L, no two failures in a row and 2(T/3) + 3L within T in whole seconds: the runner is never stale, at any point of any run |
| Liveness.AliveExactly | internal/store/store.go:336-345 | That bound is exact: beyond it a run exists in which such a runner is stale |
| Liveness.IntervalIsShorter | internal/runner/agent.go:131-140 | The loop sleeps a third of the timeout, and with a job at most five seconds |
| Liveness.WholeSecondsRoundsDown | internal/store/store.go:345 | The timeout reaches SQL rounded down to whole seconds |
| Alive.NeverStale | internal/store/store.go:336-345 | In every run of the whole system in which the runner's heartbeats come from that loop, its row is never stale |
| Alive.NeverOffline | internal/store/store.go:336-345 | With a reaper that computes its cutoff from the clock, such a runner is never marked OFFLINE |
| Migrate.AlwaysAtPrefix | internal/store/migrate.go:19-144 | In every run of Migrate and Rollback calls, each possibly stopped between transactions, the applied set is a prefix of the sorted files and the schema its fold |
| Migrate.MigrateExtends | internal/store/migrate.go:19-45 | Migrate extends the prefix by the transactions that committed, to the whole list if left to finish |
| Migrate.MigrateIdempotent | internal/store/migrate.go:18-45 | After a completed Migrate every file is applied once, and a further call changes nothing |
| MigrateRaces.PrefixExactly | internal/store/migrate.go:19-84 | For any number of overlapping Migrate and Rollback calls, cut at their statements and stopped anywhere: the applied set is a prefix and the schema its fold at all points iff every transaction was timely (an up file when all before it are still applied, a down file when its version is still the newest) |
| MigrateRaces.StepKeepsExactly | internal/store/migrate.go:117-144 | One statement keeps the prefix iff it is timely |
| MigrateRaces.MigratesNeverClash | cmd/api/main.go:58-61 | Without a rollback, any number of processes may migrate at once and die anywhere: always a prefix with its fold |
| MigrateRaces.ClashRun | cmd/api/main.go:48-61 | A concrete run: a rollback of the second file commits after a Migrate found the third missing; files one and three are applied |
| MigrateRaces.AloneIsMigrate | internal/store/migrate.go:19-45 | The statements of Migrate, left alone, amount to the whole call |
| MigrateRaces.AloneIsRollback | internal/store/migrate.go:50-84 | The statements of Rollback, left alone, amount to the whole call |
| MigrateRaces.CallsAlone | internal/store/migrate.go:19-84 | Both from their first statement on |
| MigrateRaces.SelectExactly | internal/store/migrate.go:54-55 | The SELECT returns the newest applied versions and nothing else |
| Migrate.RollbackShrinks | internal/store/migrate.go:50-84 | Rollback removes a suffix wherever it stops; with all down files it removes exactly the last min(steps, applied), or as many as were committed |
| Migrate.UpMigrations | internal/store/migrate.go:148-161 | Exactly the .sql files that are not .down.sql, in filename order |
| Migrate.Migrator.Migrate | internal/store/migrate.go:19-45 | The loop equals the function that the crash theorems are about |
| Migrate.Migrator.Rollback | internal/store/migrate.go:50-84 | The selection and the loop equal the functions that the crash theorems are about; a negative step count changes nothing |

## Left out

- HTTP decoding, routing, middleware, authentication and configuration: no protocol state. Requests carry a known runner id.
- GitHub status reporting, clone tokens and webhook signatures: network and cryptography; they do not feed back into the tables.
- Docker execution, git checkout and build-definition parsing: foreign calls with nondeterministic outcomes in `Agent`.
- Result requests that are lost on the network: the agent does not repeat them, and the job stays RUNNING as in Obey.DroppedForGood.
- Crashes of API processes and of agents: not actions of their own. A handler or agent that dies is one that takes no more steps, which every run allows; a webhook handler that dies after CreateJob is then counted as owing its push for ever.
- Commands and statements that take effect although their reply is lost: a call either fails without effect or succeeds. EXPIRE of Dispatch is the exception.
- Several scheduler processes at once: the queue is documented as serving one.
- DRAINING: no code sets it; it exists only in the transition table.
- Columns that no modelled statement reads or changes (clone_url, branch, config_ref, names, architecture, created_at), and read-only listings.
- 32-bit range of attempts and log_seq, and UTF-8 validity of log text: numbers are unbounded and logs are bytes.
- Store.JobStore.Transition: states the method without interference; the interleaved form is in Calls and Cluster.
- Calls.ReleaseRefinesExactly: takes write and release back to back; what happens when other clients run between them is Ownership.ServedExactly.
- Ownership.ReleaseRobsExactly: takes a releasing method as one step; the form for every interleaving is Ownership.ServedExactly.
- Losses.OrphanFailureLosesExactly: speaks of the time after the requeue has committed; before that, see Rescue.AttendedExactly.
- Service.Scheduling.Assign: one pass served alone; interference between its calls is in Cluster and Fairness.
