/** The type graph behind layout calculation (candidate_layout.rs): templates,
    inhabited and plain types, and the edges that must be boxed. */
module LayoutGraph {
  import opened FixedPoints
  import opened Wrappers

  /** Aggregates are tuples, records, structs, newtypes and units; `unit` is a
      tuple or struct without a representation of its own. */
  datatype Kind =
    | Scalar
    | TypeValue
    | Text
    | Array
    | Dict
    | Aggregate(unit: bool, wrapper: bool)
    | Enum
    | Unchecked
    | Function
    | Quantified
    | Dyn
    | Native(known: bool)
    | Never
    | CompileTime
    | Bound
    | Parameter
    | NoRule

  datatype Type = Type(kind: Kind, arguments: seq<nat>, fields: seq<nat>, variants: seq<Option<nat>>)

  /** Sealed types, and which of them are export records of modules. */
  datatype Graph = Graph(types: seq<Type>, modules: set<nat>)

  predicate WellFormed(g: Graph) {
    forall i :: 0 <= i < |g.types| ==> WellFormedType(g, g.types[i])
  }

  predicate WellFormedType(g: Graph, t: Type) {
    && (forall k :: 0 <= k < |t.arguments| ==> t.arguments[k] < |g.types|)
    && (forall k :: 0 <= k < |t.fields| ==> t.fields[k] < |g.types|)
    && (forall k :: 0 <= k < |t.variants| && t.variants[k].Some? ==> t.variants[k].value < |g.types|)
    && (t.kind.Unchecked? ==> |t.arguments| > 0)
    && (!t.kind.Aggregate? ==> t.fields == [])
    && (!t.kind.Enum? ==> t.variants == [])
  }

  predicate IsCompileTime(k: Kind) {
    k.CompileTime? || k.Bound?
  }

  // ----- templates --------------------------------------------------------------

  function Payloads(variants: seq<Option<nat>>): (ps: seq<nat>)
    ensures forall p :: p in ps <==> Some(p) in variants
  {
    if variants == [] then []
    else
      var rest := Payloads(variants[1..]);
      assert forall v :: v in variants <==> v == variants[0] || v in variants[1..];
      if variants[0].Some? then [variants[0].value] + rest else rest
  }

  /** Everything a type mentions. */
  function Uses(t: Type): seq<nat> {
    t.arguments + t.fields + Payloads(t.variants)
  }

  predicate Free(k: Kind, bound: bool) {
    if bound then k.Bound? else k.Parameter?
  }

  /** A quantified contract closes over bound parameters, never over free ones. */
  predicate Opens(g: Graph, bound: bool, i: nat, open: set<nat>) {
    i < |g.types| &&
    (Free(g.types[i].kind, bound)
     || (!(bound && g.types[i].kind.Quantified?) && exists k :: k in Uses(g.types[i]) && k in open))
  }

  function OpenRule(g: Graph, bound: bool): Rule {
    (i: nat, open: set<nat>) => Opens(g, bound, i, open)
  }

  lemma OpenMonotone(g: Graph, bound: bool)
    ensures Monotone(OpenRule(g, bound))
  {
  }

  // ----- inhabited types ----------------------------------------------------------

  predicate Excluded(g: Graph, templates: set<nat>, i: nat)
    requires i < |g.types|
  {
    i in templates || IsCompileTime(g.types[i].kind) || i in g.modules
  }

  /** Some finite constructor has only inhabited members. Empty containers and
      functions are values whatever their element types are. */
  predicate Inhabits(g: Graph, templates: set<nat>, i: nat, s: set<nat>) {
    i < |g.types| && !Excluded(g, templates, i) &&
    var t := g.types[i];
    if t.kind.Enum? then exists k :: 0 <= k < |t.variants| && (t.variants[k].None? || t.variants[k].value in s)
    else if t.kind.Aggregate? then forall k :: 0 <= k < |t.fields| ==> t.fields[k] in s
    else if t.kind.Unchecked? then t.arguments != [] && t.arguments[0] in s
    else !t.kind.Never?
  }

  function InhabitRule(g: Graph, templates: set<nat>): Rule {
    (i: nat, s: set<nat>) => Inhabits(g, templates, i, s)
  }

  lemma InhabitMonotone(g: Graph, templates: set<nat>)
    ensures Monotone(InhabitRule(g, templates))
  {
    forall i: nat, s: set<nat>, t: set<nat> | s <= t && Inhabits(g, templates, i, s)
      ensures Inhabits(g, templates, i, t)
    {
      var ty := g.types[i];
      if ty.kind.Enum? {
        var k :| 0 <= k < |ty.variants| && (ty.variants[k].None? || ty.variants[k].value in s);
        assert ty.variants[k].None? || ty.variants[k].value in t;
      }
    }
  }

  /** A finite value, as the constructors it is built with. */
  datatype Value = Leaf | Branch(tag: nat, payload: Option<Value>) | Fields(members: seq<Value>) | Wrapped(inner: Value)

  predicate Has(g: Graph, templates: set<nat>, i: nat, v: Value)
    decreases v
  {
    i < |g.types| && !Excluded(g, templates, i) &&
    var t := g.types[i];
    if t.kind.Enum? then
      v.Branch? && v.tag < |t.variants| &&
      (if t.variants[v.tag].None? then v.payload.None?
       else v.payload.Some? && Has(g, templates, t.variants[v.tag].value, v.payload.value))
    else if t.kind.Aggregate? then
      v.Fields? && |v.members| == |t.fields| && forall k :: 0 <= k < |t.fields| ==>
        Has(g, templates, t.fields[k], v.members[k])
    else if t.kind.Unchecked? then
      t.arguments != [] && v.Wrapped? && Has(g, templates, t.arguments[0], v.inner)
    else v.Leaf? && !t.kind.Never?
  }

  ghost predicate HasValue(g: Graph, templates: set<nat>, i: nat) {
    exists v :: Has(g, templates, i, v)
  }

  lemma {:induction false} ValueInhabits(g: Graph, templates: set<nat>, s: set<nat>, i: nat, v: Value)
    requires Closed(InhabitRule(g, templates), |g.types|, s) && Has(g, templates, i, v)
    ensures i in s
    decreases v
  {
    var t := g.types[i];
    if t.kind.Enum? {
      if v.payload.Some? {
        ValueInhabits(g, templates, s, t.variants[v.tag].value, v.payload.value);
      }
    } else if t.kind.Aggregate? {
      forall k | 0 <= k < |t.fields|
        ensures t.fields[k] in s
      {
        ValueInhabits(g, templates, s, t.fields[k], v.members[k]);
      }
    } else if t.kind.Unchecked? {
      ValueInhabits(g, templates, s, t.arguments[0], v.inner);
    }
    assert InhabitRule(g, templates)(i, s);
  }

  ghost function SomeValue(g: Graph, templates: set<nat>, i: nat): Value
    requires HasValue(g, templates, i)
  {
    var v :| Has(g, templates, i, v); v
  }

  lemma {:induction false} InhabitedHasValue(g: Graph, templates: set<nat>, s: set<nat>, rank: map<nat, nat>, i: nat)
    requires Founded(InhabitRule(g, templates), s, rank) && i in s
    ensures HasValue(g, templates, i)
    decreases rank[i]
  {
    var earlier := Before(rank, rank[i]);
    assert Inhabits(g, templates, i, earlier) by { assert InhabitRule(g, templates)(i, earlier); }
    var t := g.types[i];
    forall k | k in earlier
      ensures HasValue(g, templates, k)
    {
      InhabitedHasValue(g, templates, s, rank, k);
    }
    var v: Value;
    if t.kind.Enum? {
      var k :| 0 <= k < |t.variants| && (t.variants[k].None? || t.variants[k].value in earlier);
      v := Branch(k, if t.variants[k].None? then None else Some(SomeValue(g, templates, t.variants[k].value)));
    } else if t.kind.Aggregate? {
      v := Fields(seq(|t.fields|, k requires 0 <= k < |t.fields| => SomeValue(g, templates, t.fields[k])));
    } else if t.kind.Unchecked? {
      v := Wrapped(SomeValue(g, templates, t.arguments[0]));
    } else {
      v := Leaf;
    }
    assert Has(g, templates, i, v);
  }

  /** Inhabited means what it says: a finite value can be built. */
  lemma InhabitedExactly(g: Graph, templates: set<nat>, s: set<nat>, rank: map<nat, nat>, i: nat)
    requires Least(InhabitRule(g, templates), |g.types|, s, rank)
    ensures i in s <==> HasValue(g, templates, i)
  {
    if i in s {
      InhabitedHasValue(g, templates, s, rank, i);
    }
    if HasValue(g, templates, i) {
      ValueInhabits(g, templates, s, i, SomeValue(g, templates, i));
    }
  }

  // ----- boxing -------------------------------------------------------------------

  /** Inline edges: enum payloads and checked-off wrappers. */
  function InlineEdges(t: Type): seq<nat> {
    if t.kind.Enum? then Payloads(t.variants)
    else if t.kind.Unchecked? && t.arguments != [] then [t.arguments[0]]
    else []
  }

  function EdgesOf(g: Graph): (e: Edges)
    ensures |e| == |g.types| && forall i :: 0 <= i < |e| ==> e[i] == InlineEdges(g.types[i])
  {
    seq(|g.types|, i requires 0 <= i < |g.types| => InlineEdges(g.types[i]))
  }

  lemma EdgesValid(g: Graph)
    requires WellFormed(g)
    ensures ValidEdges(EdgesOf(g))
  {
    forall i, k | 0 <= i < |g.types| && 0 <= k < |EdgesOf(g)[i]|
      ensures EdgesOf(g)[i][k] < |g.types|
    {
      var t := g.types[i];
      assert WellFormedType(g, t);
      assert EdgesOf(g)[i][k] in InlineEdges(t);
    }
  }

  /** The variant's payload leads back to its own type without leaving the value. */
  ghost predicate OnCycle(g: Graph, i: nat, k: nat) {
    && i < |g.types| && k < |g.types[i].variants| && g.types[i].variants[k].Some?
    && Path(EdgesOf(g), g.types[i].variants[k].value, i)
  }

  // ----- plain types ----------------------------------------------------------------

  predicate Plain(g: Graph, inhabited: set<nat>, i: nat, s: set<nat>) {
    i < |g.types| && i in inhabited && i !in g.modules &&
    var t := g.types[i];
    if t.kind.Aggregate? then forall k :: 0 <= k < |t.fields| ==> t.fields[k] in s
    else if t.kind.Enum? then forall k :: 0 <= k < |t.variants| && t.variants[k].Some? ==> t.variants[k].value in s
    else if t.kind.Unchecked? then t.arguments != [] && t.arguments[0] in s
    else t.kind.Scalar? || t.kind.TypeValue?
  }

  function PlainRule(g: Graph, inhabited: set<nat>): Rule {
    (i: nat, s: set<nat>) => Plain(g, inhabited, i, s)
  }

  lemma PlainMonotone(g: Graph, inhabited: set<nat>)
    ensures Monotone(PlainRule(g, inhabited))
  {
  }

  /** Everything stored inside a value of the type: fields too. */
  function Expansion(t: Type): seq<nat> {
    if t.kind.Aggregate? then t.fields else InlineEdges(t)
  }

  function ExpansionsOf(g: Graph): (e: Edges)
    ensures |e| == |g.types| && forall i :: 0 <= i < |e| ==> e[i] == Expansion(g.types[i])
  {
    seq(|g.types|, i requires 0 <= i < |g.types| => Expansion(g.types[i]))
  }

  // ----- what the builder has established -------------------------------------------

  /** Results of the builder's passes; the ranks say when each type joined. */
  datatype Facts = Facts(
    g: Graph, templates: set<nat>,
    inhabited: set<nat>, inhabitedAt: map<nat, nat>,
    plain: set<nat>, plainAt: map<nat, nat>,
    indirect: set<(nat, nat)>)

  ghost predicate Templates(g: Graph, templates: set<nat>) {
    exists free, freeAt, bound, boundAt ::
      && Least(OpenRule(g, false), |g.types|, free, freeAt)
      && Least(OpenRule(g, true), |g.types|, bound, boundAt)
      && templates == free + bound
  }

  ghost predicate InhabitedLeast(f: Facts) {
    Least(InhabitRule(f.g, f.templates), |f.g.types|, f.inhabited, f.inhabitedAt)
  }

  ghost predicate PlainLeast(f: Facts) {
    Least(PlainRule(f.g, f.inhabited), |f.g.types|, f.plain, f.plainAt)
  }

  /** Exactly the variants on an inline cycle are boxed. */
  ghost predicate CyclesBoxed(f: Facts) {
    forall i: nat, k: nat :: (i, k) in f.indirect <==> OnCycle(f.g, i, k)
  }

  ghost predicate Established(f: Facts) {
    WellFormed(f.g) && Templates(f.g, f.templates) && InhabitedLeast(f) && PlainLeast(f) && CyclesBoxed(f)
  }

  lemma TemplatesUnique(g: Graph, s: set<nat>, t: set<nat>)
    requires Templates(g, s) && Templates(g, t)
    ensures s == t
  {
    hide Least;
    var f1, fa1, b1, ba1 :| Least(OpenRule(g, false), |g.types|, f1, fa1)
      && Least(OpenRule(g, true), |g.types|, b1, ba1) && s == f1 + b1;
    var f2, fa2, b2, ba2 :| Least(OpenRule(g, false), |g.types|, f2, fa2)
      && Least(OpenRule(g, true), |g.types|, b2, ba2) && t == f2 + b2;
    OpenMonotone(g, false);
    OpenMonotone(g, true);
    LeastUnique(OpenRule(g, false), |g.types|, f1, fa1, f2, fa2);
    LeastUnique(OpenRule(g, true), |g.types|, b1, ba1, b2, ba2);
  }

  /** The passes have one possible outcome, whatever order they visit types in. */
  lemma FactsUnique(f: Facts, h: Facts)
    requires Established(f) && Established(h) && f.g == h.g
    ensures f.templates == h.templates && f.inhabited == h.inhabited && f.plain == h.plain && f.indirect == h.indirect
  {
    hide Least, Templates, OnCycle, WellFormed, InhabitRule, PlainRule;
    TemplatesUnique(f.g, f.templates, h.templates);
    InhabitMonotone(f.g, f.templates);
    LeastUnique(InhabitRule(f.g, f.templates), |f.g.types|, f.inhabited, f.inhabitedAt, h.inhabited, h.inhabitedAt);
    PlainMonotone(f.g, f.inhabited);
    LeastUnique(PlainRule(f.g, f.inhabited), |f.g.types|, f.plain, f.plainAt, h.plain, h.plainAt);
    forall e
      ensures e in f.indirect <==> e in h.indirect
    {
      assert (e.0, e.1) == e;
      assert (e.0, e.1) in f.indirect <==> OnCycle(f.g, e.0, e.1);
      assert (e.0, e.1) in h.indirect <==> OnCycle(f.g, e.0, e.1);
    }
  }

  // ----- how types decrease -----------------------------------------------------------

  lemma PlainBelow(f: Facts, i: nat)
    requires PlainLeast(f) && i in f.plain
    ensures f.plainAt.Keys == f.plain
    ensures i < |f.g.types| && i in f.inhabited && i !in f.g.modules
    ensures Plain(f.g, f.inhabited, i, Before(f.plainAt, f.plainAt[i]))
  {
    hide Closed;
    assert PlainRule(f.g, f.inhabited)(i, Before(f.plainAt, f.plainAt[i]));
  }

  lemma InhabitedBelow(f: Facts, i: nat)
    requires InhabitedLeast(f) && i in f.inhabited
    ensures f.inhabitedAt.Keys == f.inhabited
    ensures i < |f.g.types| && Inhabits(f.g, f.templates, i, Before(f.inhabitedAt, f.inhabitedAt[i]))
  {
    hide Closed;
    assert InhabitRule(f.g, f.templates)(i, Before(f.inhabitedAt, f.inhabitedAt[i]));
  }

  /** Along inline edges from a plain type there are only plain types, and they
      joined ever earlier. */
  lemma {:induction false} PlainPath(f: Facts, i: nat, j: nat, steps: nat)
    requires PlainLeast(f) && f.plainAt.Keys == f.plain && i in f.plain && PathIn(EdgesOf(f.g), i, j, steps)
    ensures j in f.plain && f.plainAt[j] <= f.plainAt[i] && (steps > 0 ==> f.plainAt[j] < f.plainAt[i])
    decreases steps
  {
    hide PlainLeast;
    if steps > 0 {
      PlainBelow(f, i);
      var c :| c in EdgesOf(f.g)[i] && PathIn(EdgesOf(f.g), c, j, steps - 1);
      assert c in Before(f.plainAt, f.plainAt[i]);
      PlainPath(f, c, j, steps - 1);
    }
  }

  lemma CycleThrough(g: Graph, i: nat, k: nat) returns (steps: nat)
    requires WellFormed(g) && OnCycle(g, i, k)
    ensures PathIn(EdgesOf(g), i, i, steps + 1)
  {
    var p := g.types[i].variants[k].value;
    steps :| PathIn(EdgesOf(g), p, i, steps);
    assert WellFormedType(g, g.types[i]);
    assert Some(p) in g.types[i].variants;
    assert p in EdgesOf(g)[i];
  }

  /** A plain type has no boxed variant. */
  lemma PlainNotIndirect(f: Facts, i: nat, k: nat)
    requires Established(f) && i in f.plain
    ensures (i, k) !in f.indirect
  {
    hide Templates, PlainLeast, WellFormed, OnCycle;
    PlainBelow(f, i);
    if OnCycle(f.g, i, k) {
      var steps := CycleThrough(f.g, i, k);
      PlainPath(f, i, i, steps + 1);
    }
  }

  /** Nowhere in the inline expansion of a plain type is there a boxed variant or
      a type that is represented by a reference. */
  lemma {:induction false} PlainExpansion(f: Facts, i: nat, j: nat, k: nat, steps: nat)
    requires Established(f) && i in f.plain && PathIn(ExpansionsOf(f.g), i, j, steps)
    ensures j in f.plain && (j, k) !in f.indirect
    ensures var kind := f.g.types[j].kind;
      kind.Aggregate? || kind.Enum? || kind.Unchecked? || kind.Scalar? || kind.TypeValue?
    decreases steps
  {
    hide Templates, PlainLeast, WellFormed, CyclesBoxed, PathIn;
    PlainBelow(f, i);
    if steps == 0 {
      PathZero(ExpansionsOf(f.g), i, j);
      PlainNotIndirect(f, j, k);
    } else {
      var c := PathFirst(ExpansionsOf(f.g), i, j, steps);
      assert c in Expansion(f.g.types[i]);
      assert c in Before(f.plainAt, f.plainAt[i]);
      PlainExpansion(f, c, j, k, steps - 1);
    }
  }

  lemma PathZero(e: Edges, a: nat, b: nat)
    ensures PathIn(e, a, b, 0) <==> a == b
  {
  }

  lemma PathFirst(e: Edges, a: nat, b: nat, steps: nat) returns (c: nat)
    requires steps > 0 && PathIn(e, a, b, steps)
    ensures a < |e| && c in e[a] && PathIn(e, c, b, steps - 1)
  {
    c :| c in e[a] && PathIn(e, c, b, steps - 1);
  }
}
