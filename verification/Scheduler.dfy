/** The capability scheduler: filter by labels, then least recently used
    (internal/scheduler/scheduler.go, internal/models/runner.go:46-57). */
module Scheduler {
  import opened Models
  import Text

  datatype Candidate = Candidate(id: RunnerId, row: Runner)

  predicate Capable(have: seq<string>, required: seq<string>) {
    forall l :: l in required ==> l in have
  }

  /** CanRun: fill a set of labels, then look every requirement up. */
  method CanRun(labels: seq<string>, required: seq<string>) returns (ok: bool)
    ensures ok <==> Capable(labels, required)
    ensures ok <==> forall l :: l in required ==> l in labels
  {
    var have: map<string, bool> := map[];
    for i := 0 to |labels|
      invariant forall l :: l in have <==> l in labels[..i]
    {
      have := have[labels[i] := true];
    }
    assert labels[..|labels|] == labels;
    for i := 0 to |required|
      invariant forall k :: 0 <= k < i ==> required[k] in labels
    {
      if required[i] !in have {
        return false;
      }
    }
    ok := true;
  }

  predicate Eligible(c: Candidate, required: seq<string>) {
    c.row.status == Idle && Capable(c.row.labels, required)
  }

  /** lessRecentlyUsed: a is preferred over b. */
  predicate Preferred(a: Candidate, b: Candidate) {
    match (a.row.lastAssigned, b.row.lastAssigned)
    case (None, None) => Text.Less(a.id, b.id)
    case (None, Some(_)) => true
    case (Some(_), None) => false
    case (Some(s), Some(t)) => s < t
  }

  /** What the loop of Schedule computes: on a tie the earlier candidate stays. */
  function Choice(required: seq<string>, pool: seq<Candidate>): Option<Candidate> {
    if pool == [] then None else
      var best, c := Choice(required, pool[..|pool| - 1]), pool[|pool| - 1];
      if Eligible(c, required) && (best.None? || Preferred(c, best.value)) then Some(c) else best
  }

  method Schedule(required: seq<string>, pool: seq<Candidate>) returns (best: Option<Candidate>)
    ensures best == Choice(required, pool)
    ensures IsBest(required, pool, best)
    ensures best.Some? ==> LeastRecentlyUsed(required, pool, best.value)
    ensures best.None? <==> forall c :: c in pool && c.row.status == Idle ==> exists l :: l in required && l !in c.row.labels
  {
    best := None;
    for i := 0 to |pool|
      invariant best == Choice(required, pool[..i])
    {
      var c := pool[i];
      assert pool[..i + 1][..i] == pool[..i];
      var capable := CanRun(c.row.labels, required);
      if c.row.status == Idle && capable {
        if best.None? || Preferred(c, best.value) {
          best := Some(c);
        }
      }
    }
    assert pool[..|pool|] == pool;
    ChoiceIsBest(required, pool);
    if best.Some? {
      BestIsLeastRecentlyUsed(required, pool, best.value);
    } else {
      forall c | c in pool && c.row.status == Idle ensures exists l :: l in required && l !in c.row.labels {
        assert !Eligible(c, required);
      }
    }
  }

  /** b is IDLE and has every label. Nobody who could run the job and has never been used is
      passed over for one who has, nor for a later id; nobody used longer ago is passed over. */
  ghost predicate LeastRecentlyUsed(required: seq<string>, pool: seq<Candidate>, b: Candidate) {
    && b in pool && b.row.status == Idle && (forall l :: l in required ==> l in b.row.labels)
    && forall c :: c in pool && c.row.status == Idle && (forall l :: l in required ==> l in c.row.labels) ==>
      if c.row.lastAssigned.None?
      then b.row.lastAssigned.None? && (b.id == c.id || Text.Less(b.id, c.id))
      else b.row.lastAssigned.None? || b.row.lastAssigned.value <= c.row.lastAssigned.value
  }

  lemma BestIsLeastRecentlyUsed(required: seq<string>, pool: seq<Candidate>, b: Candidate)
    requires IsBest(required, pool, Some(b))
    ensures LeastRecentlyUsed(required, pool, b)
  {
    forall c | c in pool && c.row.status == Idle && (forall l :: l in required ==> l in c.row.labels)
      ensures if c.row.lastAssigned.None?
              then b.row.lastAssigned.None? && (b.id == c.id || Text.Less(b.id, c.id))
              else b.row.lastAssigned.None? || b.row.lastAssigned.value <= c.row.lastAssigned.value
    {
      assert Eligible(c, required);
      Text.LessTotal(b.id, c.id);
    }
  }

  // ---------- minimality ----------

  /** No runner iff nobody is eligible; otherwise an eligible one with none preferred over it. */
  ghost predicate IsBest(required: seq<string>, pool: seq<Candidate>, best: Option<Candidate>) {
    match best
    case None => forall c :: c in pool ==> !Eligible(c, required)
    case Some(b) =>
      b in pool && Eligible(b, required) && forall c :: c in pool && Eligible(c, required) ==> !Preferred(c, b)
  }

  lemma PreferredTransitive(a: Candidate, b: Candidate, c: Candidate)
    requires Preferred(a, b) && Preferred(b, c)
    ensures Preferred(a, c)
  {
    if a.row.lastAssigned.None? && b.row.lastAssigned.None? && c.row.lastAssigned.None? {
      Text.LessTransitive(a.id, b.id, c.id);
    }
  }

  lemma {:induction false} ChoiceIsBest(required: seq<string>, pool: seq<Candidate>)
    ensures IsBest(required, pool, Choice(required, pool))
    decreases |pool|
  {
    if pool != [] {
      var front, c := pool[..|pool| - 1], pool[|pool| - 1];
      ChoiceIsBest(required, front);
      assert pool == front + [c];
      var before, after := Choice(required, front), Choice(required, pool);
      if after.Some? {
        forall d | d in pool && Eligible(d, required) ensures !Preferred(d, after.value) {
          if d == c && after == Some(c) {
            if Preferred(c, c) && c.row.lastAssigned.None? {
              Text.LessIrreflexive(c.id);
            }
          } else if d in front && after == Some(c) && before.Some? && Preferred(d, c) {
            PreferredTransitive(d, c, before.value);
          }
        }
      }
    }
  }

  // ---------- order independence ----------

  ghost predicate Permutation(p: seq<Candidate>, q: seq<Candidate>) {
    multiset(p) == multiset(q)
  }

  lemma SameMembers(p: seq<Candidate>, q: seq<Candidate>, c: Candidate)
    requires Permutation(p, q) && c in p
    ensures c in q
  {
    assert c in multiset(p);
  }

  /** At most one candidate has nobody preferred over it. */
  ghost predicate NoTie(required: seq<string>, pool: seq<Candidate>) {
    forall a, b :: IsBest(required, pool, Some(a)) && IsBest(required, pool, Some(b)) ==> a == b
  }

  /** Distinct ids and distinct non-nil stamps exclude ties. */
  lemma DistinctStampsNoTie(required: seq<string>, pool: seq<Candidate>)
    requires forall a, b :: a in pool && b in pool && a != b ==>
      a.id != b.id && (a.row.lastAssigned.Some? ==> a.row.lastAssigned != b.row.lastAssigned)
    ensures NoTie(required, pool)
  {
    forall a, b | IsBest(required, pool, Some(a)) && IsBest(required, pool, Some(b)) ensures a == b {
      if a != b {
        Text.LessTotal(a.id, b.id);
      }
    }
  }

  lemma BestOfPermutation(required: seq<string>, p: seq<Candidate>, q: seq<Candidate>, b: Candidate)
    requires Permutation(p, q) && IsBest(required, p, Some(b))
    ensures IsBest(required, q, Some(b))
  {
    SameMembers(p, q, b);
    forall c | c in q && Eligible(c, required) ensures !Preferred(c, b) {
      SameMembers(q, p, c);
    }
  }

  /** The first of the best wins. */
  lemma {:induction false} FirstBestWins(required: seq<string>, pool: seq<Candidate>, n: nat)
    requires 0 < n <= |pool| && IsBest(required, pool, Some(pool[0]))
    ensures Choice(required, pool[..n]) == Some(pool[0])
  {
    var p := pool[..n];
    assert p[..n - 1] == pool[..n - 1];
    if n > 1 {
      FirstBestWins(required, pool, n - 1);
      assert pool[n - 1] in pool;
    } else {
      assert Choice(required, p[..0]) == None;
      assert p[0] == pool[0];
    }
  }

  /** Schedule gives the same answer for every order of the pool exactly when the best
      candidates are not tied. */
  lemma OrderIrrelevantExactly(required: seq<string>, pool: seq<Candidate>)
    ensures (forall q :: Permutation(pool, q) ==> Choice(required, q) == Choice(required, pool)) <==> NoTie(required, pool)
  {
    if NoTie(required, pool) {
      forall q | Permutation(pool, q) ensures Choice(required, q) == Choice(required, pool) {
        NoTieSameChoice(required, pool, q);
      }
    } else {
      var a, b :| IsBest(required, pool, Some(a)) && IsBest(required, pool, Some(b)) && a != b;
      var pa, pb := MoveToFront(pool, a), MoveToFront(pool, b);
      BestOfPermutation(required, pool, pa, a);
      BestOfPermutation(required, pool, pb, b);
      FirstBestWins(required, pa, |pa|);
      FirstBestWins(required, pb, |pb|);
      assert pa[..|pa|] == pa && pb[..|pb|] == pb;
      assert Permutation(pool, pa) && Permutation(pool, pb);
      assert Choice(required, pa) != Choice(required, pb);
    }
  }

  lemma NoTieSameChoice(required: seq<string>, p: seq<Candidate>, q: seq<Candidate>)
    requires NoTie(required, p) && Permutation(p, q)
    ensures Choice(required, q) == Choice(required, p)
  {
    ChoiceIsBest(required, p);
    ChoiceIsBest(required, q);
    var x, y := Choice(required, p), Choice(required, q);
    if y.Some? {
      BestOfPermutation(required, q, p, y.value);
    } else if x.Some? {
      BestOfPermutation(required, p, q, x.value);
    }
  }

  ghost function MoveToFront(pool: seq<Candidate>, c: Candidate): (q: seq<Candidate>)
    requires c in pool
    ensures q != [] && q[0] == c && Permutation(pool, q)
  {
    var i :| 0 <= i < |pool| && pool[i] == c;
    assert pool == pool[..i] + [c] + pool[i + 1..];
    [c] + pool[..i] + pool[i + 1..]
  }

  // ---------- bounded bypass ----------

  /** One assignment: the pool it chose from, the runner it chose, the stamp it wrote. */
  datatype Decision = Decision(required: seq<string>, pool: seq<Candidate>, chosen: Candidate, now: int)

  type Stamps = map<RunnerId, Option<int>>

  /** stamps[i] holds last_assigned_at before decision i. Assignment stamps never decrease;
      runners may register at any time. */
  ghost predicate Consistent(ds: seq<Decision>, stamps: seq<Stamps>) {
    && |stamps| == |ds| + 1
    && (forall i, c :: 0 <= i < |ds| && c in ds[i].pool ==>
          c.id in stamps[i] && stamps[i][c.id] == c.row.lastAssigned)
    && (forall i :: 0 <= i < |ds| ==> IsBest(ds[i].required, ds[i].pool, Some(ds[i].chosen)))
    && (forall i :: 0 <= i < |ds| ==> Stamped(stamps[i], ds[i], stamps[i + 1]))
    && (forall i, k :: 0 <= i < k < |ds| ==> ds[i].now <= ds[k].now)
  }

  ghost predicate Stamped(before: Stamps, d: Decision, after: Stamps) {
    && before.Keys <= after.Keys
    && d.chosen.id in before && after[d.chosen.id] == Some(d.now)
    && forall r :: r in before && r != d.chosen.id ==> after[r] == before[r]
  }

  /** r is a candidate every time and is passed over every time. */
  ghost predicate Bypassed(ds: seq<Decision>, r: RunnerId) {
    forall i :: 0 <= i < |ds| ==>
      ds[i].chosen.id != r && exists c :: c in ds[i].pool && c.id == r && Eligible(c, ds[i].required)
  }

  /** r was last assigned before the tick of the first decision, or never. */
  predicate Behind(ds: seq<Decision>, stamps: seq<Stamps>, r: RunnerId)
    requires |stamps| == |ds| + 1
  {
    ds != [] && r in stamps[0] && stamps[0][r].Some? ==> stamps[0][r].value < ds[0].now
  }

  lemma {:induction false} StampsAfter(ds: seq<Decision>, stamps: seq<Stamps>, i: nat, k: nat)
    requires Consistent(ds, stamps) && i < k <= |ds|
    ensures ds[i].chosen.id in stamps[k] && stamps[k][ds[i].chosen.id].Some?
    ensures stamps[k][ds[i].chosen.id].value >= ds[i].now
    decreases k
  {
    assert Stamped(stamps[k - 1], ds[k - 1], stamps[k]);
    if i + 1 < k {
      StampsAfter(ds, stamps, i, k - 1);
    }
  }

  lemma {:induction false} StampOfBypassed(ds: seq<Decision>, stamps: seq<Stamps>, r: RunnerId, k: nat)
    requires Consistent(ds, stamps) && Bypassed(ds, r) && k < |ds|
    ensures r in stamps[0] && r in stamps[k] && stamps[k][r] == stamps[0][r]
  {
    if k == 0 {
      var c :| c in ds[0].pool && c.id == r;
    } else {
      StampOfBypassed(ds, stamps, r, k - 1);
      assert Stamped(stamps[k - 1], ds[k - 1], stamps[k]);
    }
  }

  /** While r is passed over, no other runner is chosen twice. */
  lemma ChosenDistinct(ds: seq<Decision>, stamps: seq<Stamps>, r: RunnerId, i: nat, k: nat)
    requires Consistent(ds, stamps) && Bypassed(ds, r) && Behind(ds, stamps, r) && i < k < |ds|
    ensures ds[i].chosen.id != ds[k].chosen.id
  {
    if ds[i].chosen.id == ds[k].chosen.id {
      StampsAfter(ds, stamps, i, k);
      StampOfBypassed(ds, stamps, r, k);
      var c :| c in ds[k].pool && c.id == r && Eligible(c, ds[k].required);
    }
  }

  lemma {:induction false} DistinctCount(ids: seq<RunnerId>, within: set<RunnerId>)
    requires forall i, k :: 0 <= i < k < |ids| ==> ids[i] != ids[k]
    requires forall i :: 0 <= i < |ids| ==> ids[i] in within
    ensures |ids| <= |within|
    decreases |ids|
  {
    if ids != [] {
      var n := |ids| - 1;
      DistinctCount(ids[..n], within - {ids[n]});
    }
  }

  /** So an eligible runner is passed over at most once per other runner that exists. */
  lemma BypassBounded(ds: seq<Decision>, stamps: seq<Stamps>, r: RunnerId)
    requires Consistent(ds, stamps) && Bypassed(ds, r) && Behind(ds, stamps, r)
    ensures |ds| <= |stamps[|ds|].Keys - {r}|
  {
    var ids := seq(|ds|, i requires 0 <= i < |ds| => ds[i].chosen.id);
    forall i, k | 0 <= i < k < |ids| ensures ids[i] != ids[k] {
      ChosenDistinct(ds, stamps, r, i, k);
    }
    forall i | 0 <= i < |ids| ensures ids[i] in stamps[|ds|].Keys - {r} {
      StampsAfter(ds, stamps, i, |ds|);
    }
    DistinctCount(ids, stamps[|ds|].Keys - {r});
  }
}
