/** The layout builder (candidate_layout.rs Builder): its passes over the type
    graph, and the memoised size recursion. */
module LayoutBuilder {
  import opened FixedPoints
  import opened LayoutGraph
  import opened LayoutSize
  import opened Wrappers

  /** A runtime type with a compile-time member, found before any layout. */
  ghost predicate Misplaced(g: Graph, templates: set<nat>, i: nat) {
    i < |g.types| && i !in templates && i !in g.modules && exists p ::
      p in Members(g.types[i]) && p < |g.types| && IsCompileTime(g.types[p].kind)
  }

  function Members(t: Type): seq<nat> {
    t.fields + Payloads(t.variants)
  }

  /** For every type, the types that mention it. */
  ghost predicate Lists(g: Graph, users: seq<seq<nat>>) {
    && |users| == |g.types|
    && (forall i, k :: 0 <= i < |users| && 0 <= k < |users[i]| ==> users[i][k] < |g.types|)
    && (forall i: nat, j: nat :: i < |g.types| && j < |g.types| ==> (i in users[j] <==> j in Uses(g.types[i])))
  }

  class Builder {
    const g: Graph
    var templates: set<nat>
    var inhabited: set<nat>
    var plain: set<nat>
    var indirect: set<(nat, nat)>
    var states: seq<Option<State>>
    ghost var inhabitedAt: map<nat, nat>
    ghost var plainAt: map<nat, nat>

    ghost function Found(): Facts
      reads this`templates, this`inhabited, this`inhabitedAt, this`plain, this`plainAt, this`indirect
    {
      Facts(g, templates, inhabited, inhabitedAt, plain, plainAt, indirect)
    }

    /** Remembered layouts are the ones the type graph determines. */
    ghost predicate Valid()
      reads this
    {
      && Established(Found()) && |states| == |g.types|
      && forall i :: 0 <= i < |states| && states[i].Some? ==> ValueOf(Found(), i) == Ok(states[i].value)
    }

    constructor (g: Graph)
      ensures this.g == g && states == seq(|g.types|, i => None)
    {
      this.g := g;
      templates, inhabited, plain, indirect := {}, {}, {}, {};
      states := seq(|g.types|, i => None);
    }

    // ----- templates ----------------------------------------------------------------

    method ListUsers() returns (users: seq<seq<nat>>)
      requires WellFormed(g)
      ensures Lists(g, users)
    {
      users := seq(|g.types|, i => []);
      for i := 0 to |g.types|
        invariant |users| == |g.types|
        invariant forall j, k :: 0 <= j < |users| && 0 <= k < |users[j]| ==> users[j][k] < |g.types|
        invariant forall u: nat, j: nat :: u < |g.types| && j < |g.types| ==>
          (u in users[j] <==> u < i && j in Uses(g.types[u]))
      {
        var uses := Uses(g.types[i]);
        UsesInside(g, i);
        ghost var before := users;
        for k := 0 to |uses|
          invariant |users| == |g.types|
          invariant forall j, m :: 0 <= j < |users| && 0 <= m < |users[j]| ==> users[j][m] < |g.types|
          invariant forall u: nat, j: nat :: u < |g.types| && j < |g.types| ==>
            (u in users[j] <==> u in before[j] || (u == i && j in uses[..k]))
        {
          var j := uses[k];
          assert uses[..k + 1] == uses[..k] + [j];
          users := users[j := users[j] + [i]];
        }
        assert uses[..|uses|] == uses;
      }
    }

    /** Parameters themselves are open from the start. */
    method Seeds(bound: bool) returns (open: set<nat>, queue: seq<nat>)
      ensures open == set k: nat | k < |g.types| && Free(g.types[k].kind, bound)
      ensures forall k :: k in queue <==> k in open
    {
      open, queue := {}, [];
      for i := 0 to |g.types|
        invariant open == set k: nat | k < i && Free(g.types[k].kind, bound)
        invariant forall k :: k in queue <==> k in open
      {
        if Free(g.types[i].kind, bound) {
          open := open + {i};
          queue := queue + [i];
        }
      }
    }

    /** Worklist: a type is open if it mentions an open one. */
    method OpenTypes(bound: bool, users: seq<seq<nat>>) returns (open: set<nat>, ghost rank: map<nat, nat>)
      requires WellFormed(g) && Lists(g, users)
      ensures Least(OpenRule(g, bound), |g.types|, open, rank) && Closed(OpenRule(g, bound), |g.types|, open)
      ensures forall t :: Closed(OpenRule(g, bound), |g.types|, t) ==> open <= t
    {
      hide WellFormed, Lists, Opening, Least, Founded, Closed;
      var queue;
      open, queue := Seeds(bound);
      rank := map i | i in open :: 0;
      ghost var now := 1;
      SeedsOpening(g, bound, users, open, queue, rank);
      while queue != []
        invariant Opening(g, bound, users, open, queue, {}, rank, now)
        invariant forall i: nat :: i < |g.types| && Free(g.types[i].kind, bound) ==> i in open
        decreases |g.types| - |open|, |queue|
      {
        var i := queue[|queue| - 1];
        ghost var was := open;
        OpeningPop(g, bound, users, open, queue, rank, now);
        queue := queue[..|queue| - 1];
        open, queue, rank, now := OpenUsers(bound, users, i, open, queue, rank, now);
        OpeningSize(g, bound, users, open, queue, rank, now);
        Smaller(was, open);
      }
      OpenClosed(g, bound, users, open, rank, now);
      LeastBelow(g, bound, open, rank);
    }

    /** Opens the users of one type. */
    method OpenUsers(bound: bool, users: seq<seq<nat>>, i: nat, from: set<nat>, waiting: seq<nat>,
                     ghost rankFrom: map<nat, nat>, ghost start: nat)
      returns (open: set<nat>, queue: seq<nat>, ghost rank: map<nat, nat>, ghost now: nat)
      requires Lists(g, users) && i in from && Opening(g, bound, users, from, waiting, {i}, rankFrom, start)
      ensures from <= open && (open == from ==> queue == waiting)
      ensures Opening(g, bound, users, open, queue, {}, rank, now)
    {
      hide Founded;
      open, queue, rank, now := from, waiting, rankFrom, start;
      for k := 0 to |users[i]|
        invariant from <= open && (open == from ==> queue == waiting) && (forall j :: j in waiting ==> j in queue)
        invariant (forall j :: j in open ==> j < |g.types|) && (forall j :: j in queue ==> j in open)
        invariant Founded(OpenRule(g, bound), open, rank) && forall m :: m in rank ==> rank[m] < now
        invariant forall j :: j in open ==> j in from || j in queue
        invariant forall m :: 0 <= m < k ==> Passes(g, bound, users[i][m], open)
      {
        var u := users[i][k];
        if !(bound && g.types[u].kind.Quantified?) && u !in open {
          assert u in users[i];
          assert OpenRule(g, bound)(u, open);
          FoundedJoin(OpenRule(g, bound), open, rank, u, now);
          rank := rank[u := now];
          now := now + 1;
          open := open + {u};
          queue := queue + [u];
        }
      }
      forall j, u | j in open && j !in queue && u in users[j]
        ensures Passes(g, bound, u, open)
      {
        if j != i { assert Passes(g, bound, u, from); }
      }
    }

    // ----- the passes (Builder::new) --------------------------------------------------

    /** Everything layouts depend on; refused if a runtime type has a compile-time
        member. */
    method Prepare() returns (ok: bool)
      requires WellFormed(g) && states == seq(|g.types|, i => None)
      modifies this
      ensures ok ==> Valid()
      ensures Templates(g, templates) && (!ok <==> exists i :: Misplaced(g, templates, i))
    {
      hide Least, WellFormed, Lists;
      var users := ListUsers();
      var free, freeAt := OpenTypes(false, users);
      var bound, boundAt := OpenTypes(true, users);
      templates := free + bound;
      assert Templates(g, templates);
      ok := CheckMembers();
      if !ok {
        return;
      }
      InhabitMonotone(g, templates);
      ghost var rank;
      inhabited, rank := Saturate(InhabitRule(g, templates), |g.types|);
      inhabitedAt := rank;
      BoxCycles();
      PlainMonotone(g, inhabited);
      plain, rank := Saturate(PlainRule(g, inhabited), |g.types|);
      plainAt := rank;
      assert InhabitedLeast(Found()) && PlainLeast(Found()) && CyclesBoxed(Found());
    }

    method CheckMembers() returns (ok: bool)
      requires WellFormed(g)
      ensures !ok <==> exists i :: Misplaced(g, templates, i)
    {
      for i := 0 to |g.types|
        invariant forall k: nat :: k < i ==> !Misplaced(g, templates, k)
      {
        if i !in templates && i !in g.modules {
          var ms := Members(g.types[i]);
          MembersInside(g, i);
          for k := 0 to |ms|
            invariant forall m :: 0 <= m < k ==> !IsCompileTime(g.types[ms[m]].kind)
          {
            if IsCompileTime(g.types[ms[k]].kind) {
              assert ms[k] in ms;
              assert Misplaced(g, templates, i);
              return false;
            }
          }
        }
      }
      return true;
    }

    /** Boxes exactly the variants that lead back to their own type. */
    method BoxCycles()
      requires WellFormed(g)
      modifies this`indirect
      ensures CyclesBoxed(Found())
    {
      hide Path, WellFormed;
      EdgesValid(g);
      indirect := {};
      for i := 0 to |g.types|
        invariant forall a: nat, k: nat :: (a, k) in indirect <==> a < i && OnCycle(g, a, k)
      {
        for k := 0 to |g.types[i].variants|
          invariant forall a: nat, b: nat :: (a, b) in indirect <==> (a < i || (a == i && b < k)) && OnCycle(g, a, b)
        {
          var p := g.types[i].variants[k];
          if p.Some? {
            VariantInside(g, i, k);
            var back := Reaches(EdgesOf(g), p.value, i);
            if back {
              indirect := indirect + {(i, k)};
            }
          }
        }
      }
    }

    // ----- sizes (Builder::value) -----------------------------------------------------

    /** The layout of one type; the memo only ever holds finished layouts. */
    method Value(i: nat) returns (r: LayoutSize.Result<State>)
      requires Valid() && i < |g.types|
      modifies this`states
      ensures Valid() && r == ValueOf(Found(), i)
      ensures r.Ok? ==> states[i] == Some(r.value)
      ensures forall j :: 0 <= j < |g.types| && old(states[j]).Some? ==> states[j] == old(states[j])
      decreases Rank(Found(), i), 1
    {
      hide Established, Rank, ShapeOf;
      if states[i].Some? {
        return Ok(states[i].value);
      }
      var t := g.types[i];
      if i in g.modules || IsCompileTime(t.kind) {
        r := Ok(Static);
      } else if i in templates {
        r := Ok(Template);
      } else if i !in inhabited {
        r := Ok(Uninhabited);
      } else if i in plain && t.kind.Aggregate? && !t.kind.unit {
        r := FieldsValue(i);
      } else if t.kind.Unchecked? {
        UncheckedLess(Found(), i);
        r := Value(t.arguments[0]);
      } else if t.kind.Enum? {
        r := EnumValue(i);
      } else {
        r := FixedShape(t.kind);
      }
      if r.Ok? {
        states := states[i := Some(r.value)];
      }
    }

    method FieldsValue(i: nat) returns (r: LayoutSize.Result<State>)
      requires Valid() && InlineAggregate(Found(), i)
      modifies this`states
      ensures Valid() && forall j :: 0 <= j < |g.types| && old(states[j]).Some? ==> states[j] == old(states[j])
      ensures r ==
        Shaped(FieldOffset(Found(), i, |g.types[i].fields|), 8,
          Some(if g.types[i].kind.wrapper then NewtypeTable else RecordTable), true)
      decreases Rank(Found(), i), 0
    {
      hide Established, Rank, ShapeOf, ValueOf;
      var t := g.types[i];
      var bytes := 8;
      for k := 0 to |t.fields|
        invariant Valid() && FieldOffset(Found(), i, k) == Ok(bytes)
        invariant forall j :: 0 <= j < |g.types| && old(states[j]).Some? ==> states[j] == old(states[j])
      {
        FieldLess(Found(), i, k);
        var field := Value(t.fields[k]);
        var next := Sum(Ok(bytes), InlineBytes(field, NoFiniteLayout));
        if next.Err? {
          FieldErrorStays(Found(), i, k + 1, |t.fields|);
          return Err(next.error);
        }
        bytes := next.value;
      }
      r := ShapeOf(bytes, 8, Some(if t.kind.wrapper then NewtypeTable else RecordTable), true);
    }

    method EnumValue(i: nat) returns (r: LayoutSize.Result<State>)
      requires Valid() && LiveEnum(Found(), i)
      modifies this`states
      ensures Valid() && forall j :: 0 <= j < |g.types| && old(states[j]).Some? ==> states[j] == old(states[j])
      ensures r == Shaped(Sum(Ok(8), LargestPayload(Found(), i, |g.types[i].variants|)), 8, None, false)
      decreases Rank(Found(), i), 0
    {
      hide Established, Rank, ShapeOf, ValueOf;
      var t := g.types[i];
      var max := 0;
      for k := 0 to |t.variants|
        invariant Valid() && LargestPayload(Found(), i, k) == Ok(max)
        invariant forall j :: 0 <= j < |g.types| && old(states[j]).Some? ==> states[j] == old(states[j])
      {
        var p := t.variants[k];
        if p.Some? && p.value in inhabited {
          var size := 4;
          if (i, k) !in indirect {
            PayloadLess(Found(), i, k);
            var payload := Value(p.value);
            var inner := InlineBytes(payload, NotMaterializable);
            if inner.Err? {
              PayloadErrorStays(Found(), i, k + 1, |t.variants|);
              return Err(inner.error);
            }
            size := inner.value;
          }
          max := if size > max then size else max;
        }
      }
      r := Shaped(Add(8, max), 8, None, false);
    }

    /** Every type; the first one that fails decides. */
    method Calculate() returns (r: LayoutSize.Result<seq<State>>)
      requires Valid()
      modifies this`states
      ensures Valid()
      ensures r.Ok? ==> |r.value| == |g.types| && forall i :: 0 <= i < |g.types| ==>
        ValueOf(Found(), i) == Ok(r.value[i])
      ensures r.Err? ==> exists i: nat :: i < |g.types| && ValueOf(Found(), i) == Err(r.error)
    {
      hide Established, ValueOf;
      var all: seq<State> := [];
      for i := 0 to |g.types|
        invariant Valid() && |all| == i && forall k :: 0 <= k < i ==> ValueOf(Found(), k) == Ok(all[k])
      {
        var s := Value(i);
        if s.Err? {
          return Err(s.error);
        }
        all := all + [s.value];
      }
      return Ok(all);
    }
  }

  lemma {:induction false} FieldErrorStays(f: Facts, i: nat, k: nat, n: nat)
    requires Established(f) && InlineAggregate(f, i) && k <= n <= |f.g.types[i].fields| && FieldOffset(f, i, k).Err?
    ensures FieldOffset(f, i, n) == FieldOffset(f, i, k)
    decreases n
  {
    hide Established, FieldBytes;
    if k < n {
      FieldErrorStays(f, i, k, n - 1);
    }
  }

  lemma {:induction false} PayloadErrorStays(f: Facts, i: nat, k: nat, n: nat)
    requires Established(f) && LiveEnum(f, i) && k <= n <= |f.g.types[i].variants| && LargestPayload(f, i, k).Err?
    ensures LargestPayload(f, i, n) == LargestPayload(f, i, k)
    decreases n
  {
    hide Established, PayloadBytes;
    if k < n {
      PayloadErrorStays(f, i, k, n - 1);
    }
  }

  // ----- the worklist ---------------------------------------------------------------------

  lemma UsesInside(g: Graph, i: nat)
    requires WellFormed(g) && i < |g.types|
    ensures forall k :: 0 <= k < |Uses(g.types[i])| ==> Uses(g.types[i])[k] < |g.types|
  {
    var t := g.types[i];
    assert WellFormedType(g, t);
    forall k | 0 <= k < |Uses(t)|
      ensures Uses(t)[k] < |g.types|
    {
      assert Uses(t)[k] in Uses(t);
    }
  }

  lemma MembersInside(g: Graph, i: nat)
    requires WellFormed(g) && i < |g.types|
    ensures forall k :: 0 <= k < |Members(g.types[i])| ==> Members(g.types[i])[k] < |g.types|
  {
    var t := g.types[i];
    assert WellFormedType(g, t);
    forall k | 0 <= k < |Members(t)|
      ensures Members(t)[k] < |g.types|
    {
      assert Members(t)[k] in Members(t);
    }
  }

  lemma VariantInside(g: Graph, i: nat, k: nat)
    requires WellFormed(g) && i < |g.types| && k < |g.types[i].variants| && g.types[i].variants[k].Some?
    ensures g.types[i].variants[k].value < |g.types|
  {
    assert WellFormedType(g, g.types[i]);
  }

  /** The user needs no further visit. */
  predicate Passes(g: Graph, bound: bool, u: nat, open: set<nat>) {
    u < |g.types| ==> u in open || (bound && g.types[u].kind.Quantified?)
  }

  /** Open types are justified, and the users of those that neither wait nor are at
      work have been visited. */
  ghost predicate Opening(g: Graph, bound: bool, users: seq<seq<nat>>, open: set<nat>, queue: seq<nat>,
                          working: set<nat>, rank: map<nat, nat>, now: nat) {
    && |users| == |g.types| && (forall j :: j in open ==> j < |g.types|) && (forall j :: j in queue ==> j in open)
    && Founded(OpenRule(g, bound), open, rank) && (forall k :: k in rank ==> rank[k] < now)
    && forall j, u :: j in open && j !in queue && j !in working && u in users[j] ==> Passes(g, bound, u, open)
  }

  lemma SeedsOpening(g: Graph, bound: bool, users: seq<seq<nat>>, open: set<nat>, queue: seq<nat>, rank: map<nat, nat>)
    requires Lists(g, users) && open == set i: nat | i < |g.types| && Free(g.types[i].kind, bound)
    requires rank == (map i | i in open :: 0) && forall k :: k in queue <==> k in open
    ensures Opening(g, bound, users, open, queue, {}, rank, 1)
  {
  }

  lemma OpeningPop(g: Graph, bound: bool, users: seq<seq<nat>>, open: set<nat>, queue: seq<nat>, rank: map<nat, nat>,
                   now: nat)
    requires Opening(g, bound, users, open, queue, {}, rank, now) && queue != []
    ensures var n := |queue| - 1; queue[n] in open && Opening(g, bound, users, open, queue[..n], {queue[n]}, rank, now)
  {
    hide Founded, Passes;
    var n := |queue| - 1;
    assert queue[n] in queue;
    assert queue == queue[..n] + [queue[n]];
  }

  lemma OpeningSize(g: Graph, bound: bool, users: seq<seq<nat>>, open: set<nat>, queue: seq<nat>, rank: map<nat, nat>,
                    now: nat)
    requires Opening(g, bound, users, open, queue, {}, rank, now)
    ensures |open| <= |g.types|
  {
    hide Founded, Passes;
    BoundedSize(open, |g.types|);
  }

  lemma LeastBelow(g: Graph, bound: bool, open: set<nat>, rank: map<nat, nat>)
    requires Least(OpenRule(g, bound), |g.types|, open, rank)
    ensures Closed(OpenRule(g, bound), |g.types|, open)
    ensures forall t :: Closed(OpenRule(g, bound), |g.types|, t) ==> open <= t
  {
    hide Founded, Closed;
    OpenMonotone(g, bound);
    BelowClosed(OpenRule(g, bound), |g.types|, open, rank);
  }

  lemma OpenClosed(g: Graph, bound: bool, users: seq<seq<nat>>, open: set<nat>, rank: map<nat, nat>, now: nat)
    requires Lists(g, users) && Opening(g, bound, users, open, [], {}, rank, now)
    requires forall i: nat :: i < |g.types| && Free(g.types[i].kind, bound) ==> i in open
    ensures Least(OpenRule(g, bound), |g.types|, open, rank)
  {
    hide Founded;
    forall i: nat | i < |g.types| && Opens(g, bound, i, open)
      ensures i in open
    {
      if !Free(g.types[i].kind, bound) {
        var k :| k in Uses(g.types[i]) && k in open;
        assert i in users[k];
        assert Passes(g, bound, i, open);
      }
    }
  }
}
