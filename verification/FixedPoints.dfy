/** Least fixed points over finitely many indices, computed in any order, and
    paths in a finite graph. */
module FixedPoints {

  /** Whether an index belongs, given those that already do. */
  type Rule = (nat, set<nat>) -> bool

  ghost predicate Monotone(rule: Rule) {
    forall i, s, t :: s <= t && rule(i, s) ==> rule(i, t)
  }

  /** Indices that joined before time `r`. */
  function Before(rank: map<nat, nat>, r: nat): set<nat> {
    set i | i in rank && rank[i] < r
  }

  /** Everything in the set was justified by what joined earlier. */
  ghost predicate Founded(rule: Rule, s: set<nat>, rank: map<nat, nat>) {
    rank.Keys == s && forall i :: i in s ==> rule(i, Before(rank, rank[i]))
  }

  ghost predicate Closed(rule: Rule, n: nat, s: set<nat>) {
    forall i :: 0 <= i < n && rule(i, s) ==> i in s
  }

  ghost predicate Least(rule: Rule, n: nat, s: set<nat>, rank: map<nat, nat>) {
    (forall i :: i in s ==> 0 <= i < n) && Founded(rule, s, rank) && Closed(rule, n, s)
  }

  lemma {:induction false} FoundedInClosed(rule: Rule, n: nat, s: set<nat>, rank: map<nat, nat>, t: set<nat>, i: nat)
    requires Monotone(rule) && Founded(rule, s, rank) && Closed(rule, n, t)
    requires i in s && forall k :: k in s ==> k < n
    ensures i in t
    decreases rank[i]
  {
    forall k | k in Before(rank, rank[i])
      ensures k in t
    {
      FoundedInClosed(rule, n, s, rank, t, k);
    }
    assert Before(rank, rank[i]) <= t;
    assert rule(i, t);
  }

  /** A founded set is inside every closed one. */
  lemma BelowClosed(rule: Rule, n: nat, s: set<nat>, rank: map<nat, nat>)
    requires Monotone(rule) && Founded(rule, s, rank) && forall k :: k in s ==> k < n
    ensures forall t :: Closed(rule, n, t) ==> s <= t
  {
    hide Monotone, Founded, Closed;
    forall t, i | Closed(rule, n, t) && i in s
      ensures i in t
    {
      FoundedInClosed(rule, n, s, rank, t, i);
    }
  }

  /** The order in which members were found does not matter. */
  lemma LeastUnique(rule: Rule, n: nat, s: set<nat>, sRank: map<nat, nat>, t: set<nat>, tRank: map<nat, nat>)
    requires Monotone(rule) && Least(rule, n, s, sRank) && Least(rule, n, t, tRank)
    ensures s == t
  {
    forall i | i in s
      ensures i in t
    {
      FoundedInClosed(rule, n, s, sRank, t, i);
    }
    forall i | i in t
      ensures i in s
    {
      FoundedInClosed(rule, n, t, tRank, s, i);
    }
  }

  /** Joining at time `now`, after everything else. */
  lemma FoundedJoin(rule: Rule, s: set<nat>, rank: map<nat, nat>, i: nat, now: nat)
    requires Founded(rule, s, rank) && i !in s && rule(i, s) && forall k :: k in rank ==> rank[k] < now
    ensures Founded(rule, s + {i}, rank[i := now])
  {
    var later := rank[i := now];
    assert Before(later, now) == s;
    forall k | k in s
      ensures rule(k, Before(later, later[k]))
    {
      assert Before(later, later[k]) == Before(rank, rank[k]);
    }
  }

  function Range(n: nat): (r: set<nat>)
    ensures forall i: nat :: i in r <==> i < n
    ensures |r| == n
  {
    if n == 0 then {} else Range(n - 1) + {n - 1}
  }

  lemma BoundedSize(s: set<nat>, n: nat)
    requires forall i :: i in s ==> i < n
    ensures |s| <= n
  {
    SubsetSize(s, Range(n));
  }

  lemma {:induction false} SubsetSize<T>(s: set<T>, t: set<T>)
    requires s <= t
    ensures |s| <= |t|
  {
    if x :| x in s {
      SubsetSize(s - {x}, t - {x});
    }
  }

  /** Passes over all indices until none joins any more. */
  method Saturate(rule: Rule, n: nat) returns (s: set<nat>, ghost rank: map<nat, nat>)
    requires Monotone(rule)
    ensures Least(rule, n, s, rank) && Closed(rule, n, s)
    ensures forall t :: Closed(rule, n, t) ==> s <= t
  {
    hide Founded, Closed;
    s, rank := {}, map[];
    assert Founded(rule, s, rank) by { EmptyFounded(rule); }
    ghost var now := 0;
    var changed := true;
    while changed
      invariant forall i :: i in s ==> 0 <= i < n
      invariant Founded(rule, s, rank) && forall k :: k in rank ==> rank[k] < now
      invariant !changed ==> Closed(rule, n, s)
      decreases n - |s|, changed
    {
      changed := false;
      ghost var was := s;
      for i := 0 to n
        invariant forall k :: k in s ==> 0 <= k < n
        invariant Founded(rule, s, rank) && forall k :: k in rank ==> rank[k] < now
        invariant was <= s && (changed ==> was < s)
        invariant !changed ==> s == was && forall k :: 0 <= k < i && rule(k, s) ==> k in s
      {
        if i !in s && rule(i, s) {
          FoundedJoin(rule, s, rank, i, now);
          rank := rank[i := now];
          now := now + 1;
          s := s + {i};
          changed := true;
        }
      }
      if !changed { ClosedNow(rule, n, s); }
      BoundedSize(s, n);
      Smaller(was, s);
    }
    BelowClosed(rule, n, s, rank);
  }

  lemma ClosedNow(rule: Rule, n: nat, s: set<nat>)
    requires forall i :: 0 <= i < n && rule(i, s) ==> i in s
    ensures Closed(rule, n, s)
  {
  }

  lemma EmptyFounded(rule: Rule)
    ensures Founded(rule, {}, map[])
  {
  }

  lemma Smaller<T>(s: set<T>, t: set<T>)
    requires s <= t
    ensures s < t ==> |s| < |t|
    ensures |s| <= |t|
  {
    SubsetSize(s, t);
    if x :| x in t && x !in s {
      SubsetSize(s, t - {x});
    }
  }

  // ----- paths ------------------------------------------------------------------

  type Edges = seq<seq<nat>>

  predicate ValidEdges(e: Edges) {
    forall i, k :: 0 <= i < |e| && 0 <= k < |e[i]| ==> e[i][k] < |e|
  }

  ghost predicate PathIn(e: Edges, a: nat, b: nat, steps: nat)
    decreases steps
  {
    if steps == 0 then a == b
    else a < |e| && exists c :: c in e[a] && PathIn(e, c, b, steps - 1)
  }

  ghost predicate Path(e: Edges, a: nat, b: nat) {
    exists steps: nat :: PathIn(e, a, b, steps)
  }

  lemma PathHere(e: Edges, a: nat)
    ensures Path(e, a, a)
  {
    assert PathIn(e, a, a, 0);
  }

  lemma PathAhead(e: Edges, a: nat, c: nat, b: nat)
    requires a < |e| && c in e[a] && Path(e, c, b)
    ensures Path(e, a, b)
  {
    var steps: nat :| PathIn(e, c, b, steps);
    assert PathIn(e, a, b, steps + 1);
  }

  lemma {:induction false} PathTransIn(e: Edges, a: nat, b: nat, c: nat, steps: nat)
    requires PathIn(e, a, b, steps) && Path(e, b, c)
    ensures Path(e, a, c)
    decreases steps
  {
    if steps > 0 {
      var d :| d in e[a] && PathIn(e, d, b, steps - 1);
      PathTransIn(e, d, b, c, steps - 1);
      PathAhead(e, a, d, c);
    }
  }

  lemma PathTrans(e: Edges, a: nat, b: nat, c: nat)
    requires Path(e, a, b) && Path(e, b, c)
    ensures Path(e, a, c)
  {
    var steps: nat :| PathIn(e, a, b, steps);
    PathTransIn(e, a, b, c, steps);
  }

  lemma {:induction false} ClosedPath(e: Edges, s: set<nat>, a: nat, b: nat, steps: nat)
    requires forall i, k :: i in s && i < |e| && 0 <= k < |e[i]| ==> e[i][k] in s
    requires a in s && PathIn(e, a, b, steps)
    ensures b in s
    decreases steps
  {
    if steps > 0 {
      var c :| c in e[a] && PathIn(e, c, b, steps - 1);
      ClosedPath(e, s, c, b, steps - 1);
    }
  }

  /** Depth-first search (candidate_layout.rs reaches). */
  method Reaches(e: Edges, start: nat, target: nat) returns (r: bool)
    requires ValidEdges(e) && start < |e| && target < |e|
    ensures r <==> Path(e, start, target)
  {
    hide Path;
    var seen: set<nat> := {};
    var todo: seq<nat> := [start];
    PathHere(e, start);
    while todo != []
      invariant forall i :: i in seen ==> i < |e|
      invariant forall k :: 0 <= k < |todo| ==> todo[k] < |e| && Path(e, start, todo[k])
      invariant target !in seen && (start in seen || start in todo)
      invariant forall i, k :: i in seen && 0 <= k < |e[i]| ==> e[i][k] in seen || e[i][k] in todo
      decreases |e| - |seen|, |todo|
    {
      var i := todo[|todo| - 1];
      ghost var was: seq<nat> := todo;
      todo := todo[..|todo| - 1];
      assert was == todo + [i];
      if i == target {
        return true;
      }
      if i !in seen {
        forall k | 0 <= k < |e[i]|
          ensures Path(e, start, e[i][k])
        {
          PathHere(e, e[i][k]);
          PathAhead(e, i, e[i][k], e[i][k]);
          PathTrans(e, start, i, e[i][k]);
        }
        BoundedSize(seen + {i}, |e|);
        seen := seen + {i};
        todo := todo + e[i];
      }
    }
    NoPath(e, seen, start, target);
    return false;
  }

  lemma NoPath(e: Edges, seen: set<nat>, start: nat, target: nat)
    requires forall i :: i in seen ==> i < |e|
    requires forall i, k :: i in seen && 0 <= k < |e[i]| ==> e[i][k] in seen
    requires start in seen && target !in seen
    ensures !Path(e, start, target)
  {
    forall steps: nat
      ensures !PathIn(e, start, target, steps)
    {
      assert PathIn(e, start, target, steps) ==> target in seen by {
        if PathIn(e, start, target, steps) { ClosedPath(e, seen, start, target, steps); }
      }
    }
  }
}
