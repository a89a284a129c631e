/** The reliable queue over two Redis lists and the runner mailboxes (internal/queue/redis.go). */
module Queue {
  import opened Models
  import opened Lists

  /** The contents of the lists. */
  datatype View = View(pending: seq<JobId>, inflight: seq<JobId>, mail: map<RunnerId, seq<JobId>>)

  /** Every id the two lists hold, with multiplicity. */
  function Tokens(v: View): multiset<JobId> {
    multiset(v.pending) + multiset(v.inflight)
  }

  /** The ids in the order in which Dequeue would hand them out. */
  function DequeueOrder(v: View): seq<JobId> {
    Reverse(v.pending)
  }

  /** LPUSH: the id is dequeued after all that are waiting. */
  function Enqueued(v: View, id: JobId): (w: View)
    ensures DequeueOrder(w) == DequeueOrder(v) + [id] && w.inflight == v.inflight && w.mail == v.mail
  {
    v.(pending := [id] + v.pending)
  }

  /** BLMOVE right left: the id that has waited longest becomes the newest in-flight entry. */
  function Dequeued(v: View): (w: View)
    requires v.pending != []
    ensures DequeueOrder(v) == [DequeueOrder(v)[0]] + DequeueOrder(w)
    ensures w.inflight == [DequeueOrder(v)[0]] + v.inflight && w.mail == v.mail
  {
    var n := |v.pending| - 1;
    ReverseSnoc(v.pending[..n], v.pending[n]);
    assert v.pending[..n] + [v.pending[n]] == v.pending;
    v.(pending := v.pending[..n], inflight := [v.pending[n]] + v.inflight)
  }

  function Acked(v: View, id: JobId): (w: View)
    ensures w == v.(inflight := w.inflight) && multiset(w.inflight) == multiset(v.inflight) - multiset{id}
  {
    RemoveFirstMultiset(v.inflight, id);
    v.(inflight := RemoveFirst(v.inflight, id))
  }

  function BoxOf(v: View, r: RunnerId): seq<JobId> {
    if r in v.mail then v.mail[r] else []
  }

  /** The entries of a mailbox in the order in which Receive hands them out. */
  function ReceiveOrder(v: View, r: RunnerId): seq<JobId> {
    Reverse(BoxOf(v, r))
  }

  function Dispatched(v: View, r: RunnerId, id: JobId): (w: View)
    ensures ReceiveOrder(w, r) == ReceiveOrder(v, r) + [id]
    ensures (forall q :: q != r ==> BoxOf(w, q) == BoxOf(v, q)) && w.pending == v.pending && w.inflight == v.inflight
  {
    v.(mail := v.mail[r := [id] + BoxOf(v, r)])
  }

  function Received(v: View, r: RunnerId): (w: View)
    requires BoxOf(v, r) != []
    ensures ReceiveOrder(v, r) == [ReceiveOrder(v, r)[0]] + ReceiveOrder(w, r)
    ensures (forall q :: q != r ==> BoxOf(w, q) == BoxOf(v, q)) && w.pending == v.pending && w.inflight == v.inflight
  {
    var box := BoxOf(v, r);
    var n := |box| - 1;
    ReverseSnoc(box[..n], box[n]);
    assert box[..n] + [box[n]] == box;
    v.(mail := v.mail[r := box[..n]])
  }

  function Recovered(v: View): View {
    v.(pending := Reverse(v.inflight) + v.pending, inflight := [])
  }

  function Requeued(v: View, id: JobId): View {
    Enqueued(Acked(v, id), id)
  }

  /** Recover loses nothing and invents nothing, duplicates included; what was already
      waiting is dequeued first, then the recovered ids, the newest first. */
  lemma RecoverIsExact(v: View)
    ensures Tokens(Recovered(v)) == Tokens(v)
    ensures DequeueOrder(Recovered(v)) == DequeueOrder(v) + v.inflight
    ensures Recovered(Recovered(v)) == Recovered(v)
  {
    ReverseMultiset(v.inflight);
    ReverseAppend(Reverse(v.inflight), v.pending);
    ReverseTwice(v.inflight);
    assert Reverse<JobId>([]) + Recovered(v).pending == Recovered(v).pending;
  }

  /** Requeue of an id that is in flight moves one token, and only then conserves them. */
  lemma RequeueConserves(v: View, id: JobId)
    ensures Tokens(Requeued(v, id)) == Tokens(v) <==> id in v.inflight
  {
    RemoveFirstMultiset(v.inflight, id);
    assert multiset([id] + v.pending) == multiset{id} + multiset(v.pending);
    if id in v.inflight {
      assert multiset(v.inflight) - multiset{id} + multiset{id} == multiset(v.inflight);
    } else {
      assert id !in multiset(v.inflight);
      assert Tokens(Requeued(v, id))[id] == Tokens(v)[id] + 1;
    }
  }

  /** One round of Recover: the id is the leftmost in-flight entry. */
  lemma RecoverOne(ids: seq<JobId>, i: nat, pending: seq<JobId>)
    requires i < |ids|
    ensures RemoveFirst(ids[i..], ids[i]) == ids[i + 1..]
    ensures [ids[i]] + (Reverse(ids[..i]) + pending) == Reverse(ids[..i + 1]) + pending
  {
    ReverseSnoc(ids[..i], ids[i]);
    assert ids[..i + 1] == ids[..i] + [ids[i]];
    assert ids[i..][0] == ids[i] && ids[i..][1..] == ids[i + 1..];
  }

  class RedisQueue {
    var pending: seq<JobId>
    var inflight: seq<JobId>
    var mail: map<RunnerId, seq<JobId>>

    function Contents(): View
      reads this
    {
      View(pending, inflight, mail)
    }

    constructor ()
      ensures Contents() == View([], [], map[])
    {
      pending, inflight, mail := [], [], map[];
    }

    method Enqueue(id: JobId)
      modifies this
      ensures Contents() == Enqueued(old(Contents()), id)
    {
      pending := [id] + pending;
    }

    /** BLMOVE right left; None is ErrEmpty. */
    method Dequeue() returns (id: Option<JobId>)
      modifies this
      ensures old(pending) == [] ==> id == None && Contents() == old(Contents())
      ensures old(pending) != [] ==>
        id == Some(DequeueOrder(old(Contents()))[0]) && Contents() == Dequeued(old(Contents()))
      ensures Tokens(Contents()) == Tokens(old(Contents()))
    {
      if pending == [] {
        return None;
      }
      var n := |pending| - 1;
      ReverseSnoc(pending[..n], pending[n]);
      assert pending[..n] + [pending[n]] == pending;
      id := Some(pending[n]);
      inflight := [pending[n]] + inflight;
      pending := pending[..n];
    }

    method Ack(id: JobId)
      modifies this
      ensures Contents() == Acked(old(Contents()), id)
    {
      inflight := RemoveFirst(inflight, id);
    }

    method Requeue(id: JobId)
      modifies this
      ensures Contents() == Requeued(old(Contents()), id)
    {
      Ack(id);
      Enqueue(id);
    }

    /** The loop over a snapshot of the in-flight list. */
    method Recover() returns (n: nat)
      modifies this
      ensures Contents() == Recovered(old(Contents()))
      ensures n == |old(inflight)|
    {
      var ids := inflight;
      for i := 0 to |ids|
        invariant ids == old(inflight)
        invariant inflight == ids[i..] && mail == old(mail)
        invariant pending == Reverse(ids[..i]) + old(pending)
      {
        RecoverOne(ids, i, old(pending));
        Requeue(ids[i]);
      }
      assert ids[..|ids|] == ids;
      n := |ids|;
    }

    function Box(r: RunnerId): seq<JobId>
      reads this
    {
      BoxOf(Contents(), r)
    }

    method Dispatch(r: RunnerId, id: JobId)
      modifies this
      ensures Contents() == Dispatched(old(Contents()), r, id)
    {
      mail := mail[r := [id] + Box(r)];
    }

    /** BRPOP: mailboxes are first in, first out. */
    method Receive(r: RunnerId) returns (id: Option<JobId>)
      modifies this
      ensures old(Box(r)) == [] ==> id == None && Contents() == old(Contents())
      ensures old(Box(r)) != [] ==>
        id == Some(ReceiveOrder(old(Contents()), r)[0]) && Contents() == Received(old(Contents()), r)
    {
      var box := Box(r);
      if box == [] {
        return None;
      }
      var n := |box| - 1;
      ReverseSnoc(box[..n], box[n]);
      assert box[..n] + [box[n]] == box;
      id := Some(box[n]);
      mail := mail[r := box[..n]];
    }
  }
}
