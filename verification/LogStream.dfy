/** The runner's log buffer under its two locks (internal/runner/logstream.go). */
module LogStream {
  import opened Models

  datatype Chunk = Chunk(seqNo: int, bytes: seq<Byte>)

  function Concat(chunks: seq<Chunk>): seq<Byte> {
    if chunks == [] then [] else Concat(chunks[..|chunks| - 1]) + chunks[|chunks| - 1].bytes
  }

  /** Sequence numbers are 1..n without gaps, and no chunk is empty. */
  ghost predicate Numbered(chunks: seq<Chunk>) {
    forall i :: 0 <= i < |chunks| ==> chunks[i].seqNo == i + 1 && chunks[i].bytes != []
  }

  // ---------- the object on its own ----------

  class Streamer {
    var buf: seq<Byte>
    var lastSeq: nat
    var sent: seq<Chunk>
    var closed: bool

    ghost predicate Valid()
      reads this
    {
      Numbered(sent) && lastSeq == |sent|
    }

    constructor ()
      ensures Valid() && buf == [] && sent == [] && !closed
    {
      buf, lastSeq, sent, closed := [], 0, [], false;
    }

    method Write(p: seq<Byte>)
      requires Valid()
      modifies this`buf
      ensures Valid() && buf == old(buf) + p
    {
      buf := buf + p;
    }

    /** Everything buffered leaves as one chunk; nothing leaves if there is nothing. */
    method Flush()
      requires Valid()
      modifies this`buf, this`lastSeq, this`sent
      ensures Valid() && buf == []
      ensures sent == old(sent) + (if old(buf) == [] then [] else [Chunk(|old(sent)| + 1, old(buf))])
      ensures Concat(sent) == Concat(old(sent)) + old(buf)
    {
      if buf == [] {
        return;
      }
      var chunk := buf;
      buf := [];
      lastSeq := lastSeq + 1;
      assert (sent + [Chunk(lastSeq, chunk)])[..|sent|] == sent;
      sent := sent + [Chunk(lastSeq, chunk)];
    }

    /** A second Close does nothing. */
    method Close()
      requires Valid()
      modifies this
      ensures Valid() && closed
      ensures old(closed) ==> buf == old(buf) && sent == old(sent)
      ensures !old(closed) ==> buf == [] && Concat(sent) == Concat(old(sent)) + old(buf)
    {
      if !closed {
        closed := true;
        Flush();
      }
    }
  }

  // ---------- any number of writers and flushers ----------

  /** A thread, named by what it does next. `mark` is how much had been written when its
      flush (a tick, or Close) began. */
  datatype Pc =
    | Resting
    | WriteLock(p: seq<Byte>)                          // wants mu
    | WriteBuf(p: seq<Byte>)                           // holds mu
    | WriteUnlock                                      // holds mu
    | FlushLock(mark: nat)                             // wants sendMu
    | FlushLockBuf(mark: nat)                          // holds sendMu, wants mu
    | FlushCopy(mark: nat)                             // holds both
    | FlushReset(mark: nat, chunk: seq<Byte>)          // holds both, chunk copied
    | FlushUnlockBuf(mark: nat, chunk: seq<Byte>)      // holds both, buffer empty
    | FlushNumber(mark: nat, chunk: seq<Byte>)         // holds sendMu
    | FlushSend(mark: nat, seqNo: int, chunk: seq<Byte>) // holds sendMu
    | FlushUnlock(mark: nat)                           // holds sendMu
    | Flushed(mark: nat)

  predicate HoldsBuf(pc: Pc) {
    pc.WriteBuf? || pc.WriteUnlock? || pc.FlushCopy? || pc.FlushReset? || pc.FlushUnlockBuf?
  }

  predicate HoldsSend(pc: Pc) {
    pc.FlushLockBuf? || pc.FlushCopy? || pc.FlushReset? || pc.FlushUnlockBuf? || pc.FlushNumber? || pc.FlushSend?
    || pc.FlushUnlock?
  }

  datatype State = State(
    written: seq<Byte>,          // every byte, in the order the writers got the lock
    buf: seq<Byte>,
    lastSeq: int,
    sent: seq<Chunk>,
    mu: Option<nat>,
    sendMu: Option<nat>,
    threads: map<nat, Pc>)

  const INIT := State([], [], 0, [], None, None, map[])

  datatype Action = Write(t: nat, p: seq<Byte>) | Flush(t: nat) | Run(t: nat)

  function PcOf(s: State, t: nat): Pc {
    if t in s.threads then s.threads[t] else Resting
  }

  function Next(s: State, a: Action): State {
    match a
    case Write(t, p) => if PcOf(s, t).Resting? then s.(threads := s.threads[t := WriteLock(p)]) else s
    case Flush(t) => if PcOf(s, t).Resting? then s.(threads := s.threads[t := FlushLock(|s.written|)]) else s
    case Run(t) => RunNext(s, t, PcOf(s, t))
  }

  /** The next statement of thread t; it waits while the lock it wants is taken. */
  function RunNext(s: State, t: nat, pc: Pc): State {
    match pc
    case Resting => s
    case WriteLock(p) => if s.mu.Some? then s else s.(mu := Some(t), threads := s.threads[t := WriteBuf(p)])
    case WriteBuf(p) => s.(written := s.written + p, buf := s.buf + p, threads := s.threads[t := WriteUnlock])
    case WriteUnlock => s.(mu := None, threads := s.threads[t := Resting])
    case FlushLock(m) => if s.sendMu.Some? then s else s.(sendMu := Some(t), threads := s.threads[t := FlushLockBuf(m)])
    case FlushLockBuf(m) => if s.mu.Some? then s else s.(mu := Some(t), threads := s.threads[t := FlushCopy(m)])
    case FlushCopy(m) =>
      if s.buf == [] then s.(mu := None, threads := s.threads[t := FlushUnlock(m)])
      else s.(threads := s.threads[t := FlushReset(m, s.buf)])
    case FlushReset(m, chunk) => s.(buf := [], threads := s.threads[t := FlushUnlockBuf(m, chunk)])
    case FlushUnlockBuf(m, chunk) => s.(mu := None, threads := s.threads[t := FlushNumber(m, chunk)])
    case FlushNumber(m, chunk) =>
      s.(lastSeq := s.lastSeq + 1, threads := s.threads[t := FlushSend(m, s.lastSeq + 1, chunk)])
    case FlushSend(m, k, chunk) => s.(sent := s.sent + [Chunk(k, chunk)], threads := s.threads[t := FlushUnlock(m)])
    case FlushUnlock(m) => s.(sendMu := None, threads := s.threads[t := Flushed(m)])
    case Flushed(_) => s.(threads := s.threads[t := Resting])
  }

  ghost predicate IsRun(ss: seq<State>, actions: seq<Action>) {
    && |ss| == |actions| + 1
    && ss[0] == INIT
    && forall i {:trigger actions[i]} :: 0 <= i < |actions| ==> ss[i + 1] == Next(ss[i], actions[i])
  }

  /** The chunk that has left the buffer but has not been sent. */
  function InHand(s: State): seq<Byte> {
    if s.sendMu.None? then [] else
      match PcOf(s, s.sendMu.value)
      case FlushUnlockBuf(_, chunk) => chunk
      case FlushNumber(_, chunk) => chunk
      case FlushSend(_, _, chunk) => chunk
      case _ => []
  }

  ghost predicate LocksHeld(s: State) {
    && (forall t :: t in s.threads && HoldsBuf(s.threads[t]) ==> s.mu == Some(t))
    && (forall t :: t in s.threads && HoldsSend(s.threads[t]) ==> s.sendMu == Some(t))
  }

  /** The chunk of the flusher agrees with the buffer, and its number is the next one. */
  ghost predicate FlusherFits(s: State) {
    && s.lastSeq == |s.sent| + (if s.sendMu.Some? && PcOf(s, s.sendMu.value).FlushSend? then 1 else 0)
    && (s.sendMu.Some? ==>
      var pc := PcOf(s, s.sendMu.value);
      && (pc.FlushReset? ==> pc.chunk == s.buf)
      && (pc.FlushReset? || pc.FlushUnlockBuf? || pc.FlushNumber? || pc.FlushSend? ==> pc.chunk != [])
      && (pc.FlushSend? ==> pc.seqNo == s.lastSeq))
  }

  ghost predicate Conserved(s: State) {
    Concat(s.sent) + InHand(s) + s.buf == s.written
  }

  /** A flush that has been through the buffer has taken along all it found there. */
  predicate MarkCovered(pc: Pc, written: nat, sent: nat) {
    && (HoldsSend(pc) || pc.FlushLock? || pc.Flushed? ==> pc.mark <= written)
    && (pc.FlushUnlockBuf? || pc.FlushNumber? || pc.FlushSend? ==> pc.mark <= sent + |pc.chunk|)
    && (pc.FlushUnlock? || pc.Flushed? ==> pc.mark <= sent)
  }

  ghost predicate MarksCovered(s: State) {
    forall t :: t in s.threads ==> MarkCovered(s.threads[t], |s.written|, |Concat(s.sent)|)
  }

  ghost predicate Inv(s: State) {
    LocksHeld(s) && FlusherFits(s) && Numbered(s.sent) && Conserved(s) && MarksCovered(s)
  }

  lemma ConcatSnoc(chunks: seq<Chunk>, c: Chunk)
    ensures Concat(chunks + [c]) == Concat(chunks) + c.bytes
  {
    assert (chunks + [c])[..|chunks|] == chunks;
  }

  lemma BufLockKeeps(s: State, t: nat)
    requires Inv(s)
    ensures var u := RunNext(s, t, PcOf(s, t)); forall k :: k in u.threads && HoldsBuf(u.threads[k]) ==> u.mu == Some(k)
  {
  }

  lemma SendLockKeeps(s: State, t: nat)
    requires Inv(s)
    ensures var u := RunNext(s, t, PcOf(s, t));
      forall k :: k in u.threads && HoldsSend(u.threads[k]) ==> u.sendMu == Some(k)
  {
  }

  lemma FlusherKeeps(s: State, t: nat)
    requires Inv(s)
    ensures FlusherFits(RunNext(s, t, PcOf(s, t)))
  {
  }

  lemma NumbersKeep(s: State, t: nat)
    requires Inv(s)
    ensures Numbered(RunNext(s, t, PcOf(s, t)).sent)
  {
  }

  lemma HandKeeps(s: State, t: nat)
    requires Inv(s) && !PcOf(s, t).FlushSend? && !PcOf(s, t).FlushReset?
    ensures InHand(RunNext(s, t, PcOf(s, t))) == InHand(s)
  {
    assert s.sendMu.Some? && s.sendMu.value != t ==> !HoldsSend(PcOf(s, t));
  }

  lemma BytesKeep(s: State, t: nat)
    requires !PcOf(s, t).FlushSend? && !PcOf(s, t).FlushReset? && !PcOf(s, t).WriteBuf?
    ensures var u := RunNext(s, t, PcOf(s, t)); u.sent == s.sent && u.buf == s.buf && u.written == s.written
  {
  }

  lemma SendConserves(s: State, t: nat)
    requires Inv(s) && PcOf(s, t).FlushSend?
    ensures Conserved(RunNext(s, t, PcOf(s, t)))
  {
    var pc, u := PcOf(s, t), RunNext(s, t, PcOf(s, t));
    ConcatSnoc(s.sent, Chunk(pc.seqNo, pc.chunk));
    assert InHand(s) == pc.chunk && InHand(u) == [];
    assert Concat(s.sent) + pc.chunk + [] == Concat(s.sent) + pc.chunk;
  }

  lemma ResetConserves(s: State, t: nat)
    requires Inv(s) && PcOf(s, t).FlushReset?
    ensures Conserved(RunNext(s, t, PcOf(s, t)))
  {
    var u := RunNext(s, t, PcOf(s, t));
    assert InHand(s) == [] && InHand(u) == s.buf && u.buf == [];
    assert Concat(s.sent) + [] + s.buf == Concat(s.sent) + s.buf + [];
  }

  lemma WriteConserves(s: State, t: nat)
    requires Inv(s) && PcOf(s, t).WriteBuf?
    ensures Conserved(RunNext(s, t, PcOf(s, t)))
  {
    var p, u := PcOf(s, t).p, RunNext(s, t, PcOf(s, t));
    HandKeeps(s, t);
    var head := Concat(s.sent) + InHand(s);
    assert head + (s.buf + p) == head + s.buf + p;
  }

  lemma ConservedKeeps(s: State, t: nat)
    requires Inv(s)
    ensures Conserved(RunNext(s, t, PcOf(s, t)))
  {
    var pc := PcOf(s, t);
    if pc.FlushSend? {
      SendConserves(s, t);
    } else if pc.FlushReset? {
      ResetConserves(s, t);
    } else if pc.WriteBuf? {
      WriteConserves(s, t);
    } else {
      HandKeeps(s, t);
      BytesKeep(s, t);
    }
  }

  lemma GrowthKeeps(s: State, t: nat)
    requires Inv(s)
    ensures var u := RunNext(s, t, PcOf(s, t));
      |u.written| >= |s.written| && |Concat(u.sent)| >= |Concat(s.sent)|
  {
    var pc := PcOf(s, t);
    if pc.FlushSend? {
      ConcatSnoc(s.sent, Chunk(pc.seqNo, pc.chunk));
    } else if !pc.FlushReset? && !pc.WriteBuf? {
      BytesKeep(s, t);
    }
  }

  /** Before the reset, everything written is sent or in the buffer. */
  lemma NothingInHand(s: State, t: nat)
    requires Inv(s) && (PcOf(s, t).FlushCopy? || PcOf(s, t).FlushReset?)
    ensures |s.written| == |Concat(s.sent)| + |s.buf| && (PcOf(s, t).FlushReset? ==> PcOf(s, t).chunk == s.buf)
  {
    assert s.sendMu == Some(t);
    assert InHand(s) == [];
  }

  lemma SendMarkKeeps(s: State, t: nat)
    requires MarksCovered(s) && PcOf(s, t).FlushSend?
    ensures var u := RunNext(s, t, PcOf(s, t)); MarkCovered(PcOf(u, t), |u.written|, |Concat(u.sent)|)
  {
    ConcatSnoc(s.sent, Chunk(PcOf(s, t).seqNo, PcOf(s, t).chunk));
  }

  lemma FlushMarkKeeps(s: State, t: nat)
    requires Inv(s) && (PcOf(s, t).FlushCopy? || PcOf(s, t).FlushReset?)
    ensures var u := RunNext(s, t, PcOf(s, t)); MarkCovered(PcOf(u, t), |u.written|, |Concat(u.sent)|)
  {
    NothingInHand(s, t);
  }

  lemma OwnMarkKeeps(s: State, t: nat)
    requires Inv(s)
    ensures var u := RunNext(s, t, PcOf(s, t)); MarkCovered(PcOf(u, t), |u.written|, |Concat(u.sent)|)
  {
    var pc := PcOf(s, t);
    if pc.FlushSend? {
      SendMarkKeeps(s, t);
    } else if pc.FlushCopy? || pc.FlushReset? {
      FlushMarkKeeps(s, t);
    } else {
      OtherMarkKeeps(s, t);
    }
  }

  lemma OtherMarkKeeps(s: State, t: nat)
    requires MarksCovered(s) && !PcOf(s, t).FlushSend? && !PcOf(s, t).FlushCopy? && !PcOf(s, t).FlushReset?
    ensures var u := RunNext(s, t, PcOf(s, t)); MarkCovered(PcOf(u, t), |u.written|, |Concat(u.sent)|)
  {
    assert MarkCovered(PcOf(s, t), |s.written|, |Concat(s.sent)|);
  }

  lemma OthersKeep(s: State, t: nat, k: nat)
    requires k != t
    ensures PcOf(RunNext(s, t, PcOf(s, t)), k) == PcOf(s, k)
  {
  }

  lemma MarksKeep(s: State, t: nat)
    requires Inv(s)
    ensures MarksCovered(RunNext(s, t, PcOf(s, t)))
  {
    var u := RunNext(s, t, PcOf(s, t));
    GrowthKeeps(s, t);
    OwnMarkKeeps(s, t);
    forall k | k in u.threads && k != t ensures MarkCovered(u.threads[k], |u.written|, |Concat(u.sent)|) {
      OthersKeep(s, t, k);
      assert MarkCovered(PcOf(s, k), |s.written|, |Concat(s.sent)|);
    }
  }

  lemma StepKeeps(s: State, a: Action)
    requires Inv(s)
    ensures Inv(Next(s, a))
  {
    match a
    case Write(_, _) =>
    case Flush(_) =>
    case Run(t) =>
      BufLockKeeps(s, t);
      SendLockKeeps(s, t);
      FlusherKeeps(s, t);
      NumbersKeep(s, t);
      ConservedKeeps(s, t);
      MarksKeep(s, t);
  }

  lemma {:induction false} InvHolds(ss: seq<State>, actions: seq<Action>, i: nat)
    requires IsRun(ss, actions) && i < |ss|
    ensures Inv(ss[i])
  {
    if i > 0 {
      InvHolds(ss, actions, i - 1);
      StepKeeps(ss[i - 1], actions[i - 1]);
    }
  }

  /** For every interleaving of writers, ticks and Close: the sent chunks, the chunk in the
      flusher's hand and the buffer are together exactly what was written, in order, and
      the chunks are numbered 1..n with none empty. */
  lemma StreamConserved(ss: seq<State>, actions: seq<Action>, i: nat)
    requires IsRun(ss, actions) && i < |ss|
    ensures Conserved(ss[i]) && Numbered(ss[i].sent)
  {
    InvHolds(ss, actions, i);
  }

  /** When a flush returns, everything written before it began has been sent. */
  lemma FlushDelivers(ss: seq<State>, actions: seq<Action>, i: nat, t: nat)
    requires IsRun(ss, actions) && i < |ss| && PcOf(ss[i], t).Flushed?
    ensures PcOf(ss[i], t).mark <= |Concat(ss[i].sent)| && Concat(ss[i].sent) <= ss[i].written
  {
    InvHolds(ss, actions, i);
    assert Concat(ss[i].sent) + InHand(ss[i]) + ss[i].buf == Concat(ss[i].sent) + (InHand(ss[i]) + ss[i].buf);
  }
}
