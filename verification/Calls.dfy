/** A store method that goes through `transition`, cut at its SQL statements
    (internal/store/store.go:97-194), optionally behind the ownership check of a
    runner-facing handler (internal/api/middleware.go:121-128). */
module Calls {
  import opened Models
  import opened Sql
  import Tables

  datatype Pc =
    | AtCheck(runner: RunnerId)
    | AtRead
    | AtWrite(from: JobStatus, owner: Option<RunnerId>)
    | AtRelease(runner: RunnerId)
    | Returned(outcome: Outcome)

  datatype Call = Call(job: JobId, change: Change, pc: Pc)

  /** runnerOwnsJob. */
  predicate Owns(db: Db, r: RunnerId, j: JobId) {
    j in db.jobs && db.jobs[j].runnerId == Some(r)
  }

  /** One SQL statement of the call, with the program logic up to the next one. */
  function Advance(db: Db, c: Call): (Db, Call) {
    match c.pc
    case AtCheck(r) =>
      (db, c.(pc := if Owns(db, r, c.job) then AtRead else Returned(Forbidden)))
    case AtRead =>
      if c.job !in db.jobs then (db, c.(pc := Returned(NotFound)))
      else if !db.jobs[c.job].status.CanTransitionTo(c.change.Target()) then (db, c.(pc := Returned(Invalid)))
      else (db, c.(pc := AtWrite(db.jobs[c.job].status, db.jobs[c.job].runnerId)))
    case AtWrite(from, owner) =>
      if !InStatus(db, c.job, from) then (db, c.(pc := Returned(Invalid)))
      else (UpdateJob(db, c.job, from, c.change),
            c.(pc := if owner.Some? && c.change.Releases() then AtRelease(owner.value) else Returned(Ok)))
    case AtRelease(r) => (ReleaseRunner(db, r), c.(pc := Returned(Ok)))
    case Returned(_) => (db, c)
  }

  /** The UPDATE has been committed. */
  predicate Committed(c: Call) {
    c.pc.AtRelease? || c.pc == Returned(Ok)
  }

  /** The guard of a pending UPDATE was checked against the transition table. */
  predicate Checked(c: Call) {
    c.change.Valid() && (c.pc.AtWrite? ==> c.pc.from.CanTransitionTo(c.change.Target()))
  }

  /** The statement that Advance executes, if it writes at all. */
  function StatementOf(c: Call): Option<Tables.Statement> {
    match c.pc
    case AtWrite(from, _) => Some(Tables.Move(c.job, from, c.change))
    case AtRelease(r) => Some(Tables.Release(r))
    case _ => None
  }

  function ExecuteAll(db: Db, st: Option<Tables.Statement>): Db {
    if st.Some? then Tables.Execute(db, st.value) else db
  }

  lemma AdvanceIsLegal(db: Db, c: Call)
    requires Checked(c)
    ensures Checked(Advance(db, c).1)
    ensures Advance(db, c).0 == ExecuteAll(db, StatementOf(c))
    ensures StatementOf(c).Some? ==> Tables.Legal(StatementOf(c).value)
  {
  }

  // ---------- the same methods as single steps ----------

  /** CompleteJob, RequeueJob, CancelJob or StartJob as one atomic step. */
  function Atomically(db: Db, j: JobId, change: Change): (Db, Outcome) {
    if j !in db.jobs then (db, NotFound)
    else if !db.jobs[j].status.CanTransitionTo(change.Target()) then (db, Invalid)
    else
      var moved := UpdateJob(db, j, db.jobs[j].status, change);
      var owner := db.jobs[j].runnerId;
      (if change.Releases() && owner.Some? then ReleaseRunner(moved, owner.value) else moved, Ok)
  }

  /** AssignJob as one atomic step. */
  function AssignAtomically(db: Db, j: JobId, r: RunnerId, now: int): (Db, Outcome) {
    if j !in db.jobs then (db, NotFound)
    else if !db.jobs[j].status.CanTransitionTo(Assigned) then (db, Invalid)
    else if !IsIdle(db, r) then (db, NotIdle)
    else (AssignTx(db, j, r, db.jobs[j].status, now), Ok)
  }

  function AdvanceTimes(db: Db, c: Call, n: nat): (Db, Call)
    decreases n
  {
    if n == 0 then (db, c) else var (db', c') := Advance(db, c); AdvanceTimes(db', c', n - 1)
  }

  /** Left alone, the three statements of a call do exactly what the atomic method does. */
  lemma UninterruptedIsAtomic(db: Db, j: JobId, change: Change)
    ensures
      var (db', c') := AdvanceTimes(db, Call(j, change, AtRead), 3);
      c'.pc.Returned? && (db', c'.pc.outcome) == Atomically(db, j, change)
  {
    var c0 := Call(j, change, AtRead);
    var (db1, c1) := Advance(db, c0);
    var (db2, c2) := Advance(db1, c1);
    var (db3, c3) := Advance(db2, c2);
    assert AdvanceTimes(db2, c2, 1) == AdvanceTimes(db3, c3, 0);
    assert AdvanceTimes(db1, c1, 2) == AdvanceTimes(db2, c2, 1);
  }

  /** Whatever other clients did since the read half, a write half that commits does to
      the jobs table what the atomic method would do at that very instant, and a refusal
      by either half means the atomic method refuses too or the status has changed. */
  lemma CommitRefinesAtomic(db: Db, c: Call)
    requires Checked(c)
    ensures c.pc.AtWrite? && Committed(Advance(db, c).1) ==>
      && Atomically(db, c.job, c.change).1 == Ok
      && Atomically(db, c.job, c.change).0.jobs == Advance(db, c).0.jobs
    ensures c.pc.AtRead? && Advance(db, c).1.pc.Returned? ==>
      Atomically(db, c.job, c.change) == (db, Advance(db, c).1.pc.outcome)
    ensures c.pc.AtWrite? && !Committed(Advance(db, c).1) ==>
      Advance(db, c).0 == db && !InStatus(db, c.job, c.pc.from)
  {
  }

  predicate BusyRunner(db: Db, r: Option<RunnerId>) {
    r.Some? && r.value in db.runners && db.runners[r.value].status == Busy
  }

  /** The runner freed by a committed call is the one its read half saw; the guard does not
      notice that the row has been requeued and assigned to another runner since. The call
      amounts to the atomic method exactly when both name the same runner, or neither of
      the two is BUSY. */
  lemma ReleaseRefinesExactly(db: Db, c: Call)
    requires Checked(c) && c.pc.AtWrite? && InStatus(db, c.job, c.pc.from) && c.change.Releases()
    ensures
      var (db1, c1) := Advance(db, c);
      var (db2, c2) := Advance(db1, c1);
      c2.pc == Returned(Ok)
      && (db2 == Atomically(db, c.job, c.change).0 <==>
          c.pc.owner == db.jobs[c.job].runnerId
          || (!BusyRunner(db, c.pc.owner) && !BusyRunner(db, db.jobs[c.job].runnerId)))
  {
    var (db1, c1) := Advance(db, c);
    var (db2, c2) := Advance(db1, c1);
    var atomic, seen, present := Atomically(db, c.job, c.change).0, c.pc.owner, db.jobs[c.job].runnerId;
    assert db1.runners == db.runners;
    if seen != present {
      if BusyRunner(db, seen) {
        assert db2.runners[seen.value].status == Idle;
        assert atomic.runners[seen.value].status == Busy;
      } else if BusyRunner(db, present) {
        assert atomic.runners[present.value].status == Idle;
        assert db2.runners[present.value].status == Busy;
      }
    }
  }
}
