/** Log chunks from the runner to the stored log (internal/api/jobs.go:108-131,
    internal/store/store.go:199-216, migrations/0002_log_sequence.sql). */
module Logs {
  import opened Models
  import opened Sql
  import opened LogStream

  const MAX_CHUNK := 0x10_0000

  /** What the handler lets through to AppendLogs. */
  predicate Admissible(c: Chunk) {
    c.seqNo > 0 && |c.bytes| <= MAX_CHUNK
  }

  /** The log columns of the row. */
  datatype Log = Log(logs: seq<Byte>, logSeq: int)

  function Handle(log: Log, c: Chunk): Log {
    if Admissible(c) && c.seqNo > log.logSeq then Log(log.logs + c.bytes, c.seqNo) else log
  }

  function HandleAll(log: Log, arrivals: seq<Chunk>): Log {
    if arrivals == [] then log else Handle(HandleAll(log, arrivals[..|arrivals| - 1]), arrivals[|arrivals| - 1])
  }

  function LogOf(job: Job): Log {
    Log(job.logs, job.logSeq)
  }

  /** Handle is what the guarded UPDATE does to the row, and no other column changes. */
  lemma HandleIsAppendLog(db: Db, id: JobId, c: Chunk)
    requires id in db.jobs && Admissible(c)
    ensures
      var after := AppendLog(db, id, c.seqNo, c.bytes);
      LogOf(after.jobs[id]) == Handle(LogOf(db.jobs[id]), c)
      && after == db.(jobs := db.jobs[id := db.jobs[id].(logs := after.jobs[id].logs, logSeq := after.jobs[id].logSeq)])
  {
    assert db.jobs[id := db.jobs[id]] == db.jobs;
  }

  // ---------- running maxima ----------

  /** Arrival i is admissible and numbered above `start` and above every admissible one before it. */
  ghost predicate IsRecord(start: int, arrivals: seq<Chunk>, i: nat)
    requires i < |arrivals|
  {
    && Admissible(arrivals[i]) && arrivals[i].seqNo > start
    && forall k :: 0 <= k < i && Admissible(arrivals[k]) ==> arrivals[k].seqNo < arrivals[i].seqNo
  }

  ghost function Records(start: int, arrivals: seq<Chunk>): seq<Byte> {
    if arrivals == [] then [] else
      var n := |arrivals| - 1;
      Records(start, arrivals[..n]) + (if IsRecord(start, arrivals, n) then arrivals[n].bytes else [])
  }

  /** log_seq is the largest number seen. */
  ghost predicate IsTop(start: int, arrivals: seq<Chunk>, top: int) {
    && top >= start
    && (forall k :: 0 <= k < |arrivals| && Admissible(arrivals[k]) ==> arrivals[k].seqNo <= top)
    && (top == start || exists k :: 0 <= k < |arrivals| && Admissible(arrivals[k]) && arrivals[k].seqNo == top)
  }

  /** For any arrivals in any order, the stored log is the old one followed by exactly the
      chunks that were a strict running maximum when they arrived. */
  lemma {:induction false} StoredIsRecords(log: Log, arrivals: seq<Chunk>)
    ensures HandleAll(log, arrivals).logs == log.logs + Records(log.logSeq, arrivals)
    ensures IsTop(log.logSeq, arrivals, HandleAll(log, arrivals).logSeq)
    decreases |arrivals|
  {
    if arrivals != [] {
      var n := |arrivals| - 1;
      var front, c := arrivals[..n], arrivals[n];
      StoredIsRecords(log, front);
      var top := HandleAll(log, front).logSeq;
      assert forall k :: 0 <= k < n ==> front[k] == arrivals[k];
      if c.seqNo > top && Admissible(c) {
        assert IsRecord(log.logSeq, arrivals, n);
        assert arrivals[n].seqNo == HandleAll(log, arrivals).logSeq;
      } else {
        if top != log.logSeq {
          var k :| 0 <= k < |front| && Admissible(front[k]) && front[k].seqNo == top;
          assert arrivals[k].seqNo == top;
        }
        assert !IsRecord(log.logSeq, arrivals, n);
      }
    }
  }

  /** Redelivering everything once more changes nothing. */
  lemma {:induction false} RedeliveryIsNoOp(log: Log, arrivals: seq<Chunk>, again: seq<Chunk>)
    requires forall c :: c in again ==> c in arrivals
    ensures HandleAll(HandleAll(log, arrivals), again) == HandleAll(log, arrivals)
    decreases |again|
  {
    if again != [] {
      var n := |again| - 1;
      RedeliveryIsNoOp(log, arrivals, again[..n]);
      StoredIsRecords(log, arrivals);
      assert again[n] in arrivals;
    }
  }

  // ---------- in-order, at-least-once delivery ----------

  /** Every arrival is a sent chunk, and when it arrives all chunks numbered below it have
      arrived before. Any chunk may arrive again at any later time. */
  ghost predicate InOrder(sent: seq<Chunk>, arrivals: seq<Chunk>) {
    && (forall i :: 0 <= i < |arrivals| ==>
      1 <= arrivals[i].seqNo <= |sent| && arrivals[i] == sent[arrivals[i].seqNo - 1])
    && forall i, q :: 0 <= i < |arrivals| && 1 <= q < arrivals[i].seqNo ==> Arrived(arrivals[..i], q)
  }

  ghost predicate Arrived(arrivals: seq<Chunk>, q: int) {
    exists k :: 0 <= k < |arrivals| && arrivals[k].seqNo == q
  }

  ghost predicate AllArrived(sent: seq<Chunk>, arrivals: seq<Chunk>) {
    forall q :: 1 <= q <= |sent| ==> Arrived(arrivals, q)
  }

  /** Of the chunks 1..n exactly the first `top` have arrived. */
  ghost predicate ArrivedUpTo(n: nat, arrivals: seq<Chunk>, top: nat) {
    forall q :: 1 <= q <= n ==> (Arrived(arrivals, q) <==> q <= top)
  }

  /** The bytes of the chunks numbered above `start` that are not too large. */
  function Small(start: int, chunks: seq<Chunk>): seq<Byte> {
    if chunks == [] then [] else
      var c := chunks[|chunks| - 1];
      Small(start, chunks[..|chunks| - 1]) + (if c.seqNo > start && |c.bytes| <= MAX_CHUNK then c.bytes else [])
  }

  /** The arrivals so far are those of the first `top` chunks, and the records among them
      are those chunks, in order, without the oversized ones. */
  lemma {:induction false} RecordsInOrder(start: int, sent: seq<Chunk>, arrivals: seq<Chunk>) returns (top: nat)
    requires Numbered(sent) && InOrder(sent, arrivals)
    ensures top <= |sent| && ArrivedUpTo(|sent|, arrivals, top)
    ensures Records(start, arrivals) == Small(start, sent[..top])
    decreases |arrivals|
  {
    if arrivals == [] {
      top := 0;
    } else {
      var n := |arrivals| - 1;
      var front, c := arrivals[..n], arrivals[n];
      InOrderFront(sent, arrivals);
      top := RecordsInOrder(start, sent, front);
      ArrivedSnoc(arrivals);
      if c.seqNo <= top {
        RepeatIsNoRecord(start, sent, arrivals);
      } else {
        NextIsRecord(start, sent, arrivals, top);
        top := top + 1;
      }
    }
  }

  lemma InOrderFront(sent: seq<Chunk>, arrivals: seq<Chunk>)
    requires InOrder(sent, arrivals) && arrivals != []
    ensures InOrder(sent, arrivals[..|arrivals| - 1])
  {
    var front := arrivals[..|arrivals| - 1];
    assert forall i :: 0 <= i < |front| ==> front[i] == arrivals[i] && front[..i] == arrivals[..i];
  }

  lemma ArrivedSnoc(arrivals: seq<Chunk>)
    requires arrivals != []
    ensures forall q :: Arrived(arrivals, q) <==> Arrived(arrivals[..|arrivals| - 1], q) || q == arrivals[|arrivals| - 1].seqNo
  {
    var n := |arrivals| - 1;
    forall q ensures Arrived(arrivals, q) <==> Arrived(arrivals[..n], q) || q == arrivals[n].seqNo {
      if k :| 0 <= k < n && arrivals[..n][k].seqNo == q {
        assert arrivals[k].seqNo == q;
      }
      if k :| 0 <= k <= n && arrivals[k].seqNo == q && k < n {
        assert arrivals[..n][k].seqNo == q;
      }
    }
  }

  lemma RepeatIsNoRecord(start: int, sent: seq<Chunk>, arrivals: seq<Chunk>)
    requires Numbered(sent) && InOrder(sent, arrivals) && arrivals != []
    requires Arrived(arrivals[..|arrivals| - 1], arrivals[|arrivals| - 1].seqNo)
    ensures !IsRecord(start, arrivals, |arrivals| - 1)
  {
    var n := |arrivals| - 1;
    var k :| 0 <= k < n && arrivals[..n][k].seqNo == arrivals[n].seqNo;
    assert arrivals[k] == arrivals[n];
  }

  lemma NextIsRecord(start: int, sent: seq<Chunk>, arrivals: seq<Chunk>, top: nat)
    requires Numbered(sent) && InOrder(sent, arrivals) && arrivals != [] && top <= |sent|
    requires ArrivedUpTo(|sent|, arrivals[..|arrivals| - 1], top)
    requires arrivals[|arrivals| - 1].seqNo > top
    ensures arrivals[|arrivals| - 1] == sent[top]
    ensures IsRecord(start, arrivals, |arrivals| - 1) <==> sent[top].seqNo > start && |sent[top].bytes| <= MAX_CHUNK
    ensures Small(start, sent[..top + 1]) ==
      Small(start, sent[..top]) + (if IsRecord(start, arrivals, |arrivals| - 1) then sent[top].bytes else [])
  {
    var n := |arrivals| - 1;
    assert arrivals[n].seqNo > top + 1 ==> Arrived(arrivals[..n], top + 1);
    forall k | 0 <= k < n ensures arrivals[k].seqNo <= top {
      assert arrivals[..n][k] == arrivals[k];
      assert Arrived(arrivals[..n], arrivals[k].seqNo);
    }
    assert sent[..top + 1][..top] == sent[..top];
  }

  /** What an attempt adds to the log: its chunks numbered above the log_seq it found, in
      order and once each, without the oversized ones. */
  lemma DeliveredExactly(log: Log, sent: seq<Chunk>, arrivals: seq<Chunk>)
    requires Numbered(sent) && InOrder(sent, arrivals) && AllArrived(sent, arrivals)
    ensures HandleAll(log, arrivals).logs == log.logs + Small(log.logSeq, sent)
  {
    StoredIsRecords(log, arrivals);
    var top := RecordsInOrder(log.logSeq, sent, arrivals);
    assert top < |sent| ==> Arrived(arrivals, top + 1);
    assert sent[..top] == sent;
  }

  lemma {:induction false} SmallLength(start: int, chunks: seq<Chunk>)
    requires forall c :: c in chunks ==> c.bytes != []
    ensures |Small(start, chunks)| <= |Concat(chunks)|
    ensures Small(start, chunks) == Concat(chunks) <==> forall c :: c in chunks ==> c.seqNo > start && |c.bytes| <= MAX_CHUNK
    ensures Small(start, chunks) != Concat(chunks) ==> |Small(start, chunks)| < |Concat(chunks)|
    decreases |chunks|
  {
    if chunks != [] {
      var front, c := chunks[..|chunks| - 1], chunks[|chunks| - 1];
      assert chunks == front + [c];
      SmallLength(start, front);
    }
  }

  /** An attempt's output is stored whole exactly when it found log_seq 0 or sent nothing,
      and never let more than 1 MiB pile up in the buffer. In particular a retry after a
      requeue, which numbers its chunks from 1 again while log_seq is kept, loses output. */
  lemma WholeExactly(log: Log, sent: seq<Chunk>, arrivals: seq<Chunk>)
    requires Numbered(sent) && InOrder(sent, arrivals) && AllArrived(sent, arrivals) && log.logSeq >= 0
    ensures HandleAll(log, arrivals).logs == log.logs + Concat(sent) <==>
      (log.logSeq == 0 || sent == []) && forall c :: c in sent ==> |c.bytes| <= MAX_CHUNK
  {
    DeliveredExactly(log, sent, arrivals);
    SmallLength(log.logSeq, sent);
    if sent != [] {
      assert sent[0] in sent && sent[0].seqNo == 1;
    }
  }

  /** First attempt, end to end: in every interleaving of writers, ticks and Close, if no
      byte was written after Close began and every chunk fits, then once all chunks have
      arrived, in order and possibly repeatedly, the log is exactly what was written. */
  lemma EndToEnd(ss: seq<State>, actions: seq<Action>, closer: nat, arrivals: seq<Chunk>)
    requires IsRun(ss, actions)
    requires var s := ss[|ss| - 1];
      && PcOf(s, closer).Flushed? && PcOf(s, closer).mark == |s.written|
      && InOrder(s.sent, arrivals) && AllArrived(s.sent, arrivals)
      && forall c :: c in s.sent ==> |c.bytes| <= MAX_CHUNK
    ensures HandleAll(Log([], 0), arrivals).logs == ss[|ss| - 1].written
  {
    var i := |ss| - 1;
    FlushDelivers(ss, actions, i, closer);
    StreamConserved(ss, actions, i);
    WholeExactly(Log([], 0), ss[i].sent, arrivals);
    assert [] + Concat(ss[i].sent) == ss[i].written;
  }
}
