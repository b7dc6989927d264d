/** What the layout passes and sizes mean, said without their own definitions:
    which types mention a parameter, which have a finite expansion, and what lies
    where in a value. */
module LayoutMeaning {
  import opened FixedPoints
  import opened LayoutGraph
  import opened LayoutSize
  import opened Wrappers

  // ----- templates ----------------------------------------------------------------

  /** Type `i` names type `j`: as an argument, a field or a payload. */
  ghost predicate Names(g: Graph, i: nat, j: nat) {
    i < |g.types| &&
    (j in g.types[i].arguments || j in g.types[i].fields || Some(j) in g.types[i].variants)
  }

  /** In so many steps the type leads to a free parameter; or to a bound one, without
      passing a quantified contract. */
  ghost predicate LeadsTo(g: Graph, bound: bool, i: nat, steps: nat)
    decreases steps
  {
    && i < |g.types|
    && if steps == 0 then (if bound then g.types[i].kind.Bound? else g.types[i].kind.Parameter?)
       else !(bound && g.types[i].kind.Quantified?) && exists j :: Names(g, i, j) && LeadsTo(g, bound, j, steps - 1)
  }

  ghost predicate MentionsParameter(g: Graph, bound: bool, i: nat) {
    exists steps: nat :: LeadsTo(g, bound, i, steps)
  }

  lemma NamesUses(g: Graph, i: nat, j: nat)
    requires i < |g.types|
    ensures Names(g, i, j) <==> j in Uses(g.types[i])
  {
  }

  lemma {:induction false} LeadsOpen(g: Graph, bound: bool, open: set<nat>, i: nat, steps: nat)
    requires Closed(OpenRule(g, bound), |g.types|, open) && LeadsTo(g, bound, i, steps)
    ensures i in open
    decreases steps
  {
    if steps > 0 {
      var j :| Names(g, i, j) && LeadsTo(g, bound, j, steps - 1);
      LeadsOpen(g, bound, open, j, steps - 1);
      NamesUses(g, i, j);
    }
    assert OpenRule(g, bound)(i, open);
  }

  lemma {:induction false} OpenLeads(g: Graph, bound: bool, open: set<nat>, rank: map<nat, nat>, i: nat)
    requires Founded(OpenRule(g, bound), open, rank) && i in open
    ensures MentionsParameter(g, bound, i)
    decreases rank[i]
  {
    var earlier := Before(rank, rank[i]);
    assert Opens(g, bound, i, earlier) by { assert OpenRule(g, bound)(i, earlier); }
    if Free(g.types[i].kind, bound) {
      assert LeadsTo(g, bound, i, 0);
    } else {
      var j :| j in Uses(g.types[i]) && j in earlier;
      NamesUses(g, i, j);
      OpenLeads(g, bound, open, rank, j);
      var steps: nat :| LeadsTo(g, bound, j, steps);
      assert LeadsTo(g, bound, i, steps + 1);
    }
  }

  /** A template is a type that mentions a parameter of its surroundings. */
  lemma TemplateExactly(f: Facts, i: nat)
    requires Templates(f.g, f.templates)
    ensures i in f.templates <==> MentionsParameter(f.g, false, i) || MentionsParameter(f.g, true, i)
  {
    hide OpenRule, LeadsTo;
    var free, freeAt, bound, boundAt :| Least(OpenRule(f.g, false), |f.g.types|, free, freeAt)
      && Least(OpenRule(f.g, true), |f.g.types|, bound, boundAt) && f.templates == free + bound;
    if i in free { OpenLeads(f.g, false, free, freeAt, i); }
    if i in bound { OpenLeads(f.g, true, bound, boundAt, i); }
    if steps: nat :| LeadsTo(f.g, false, i, steps) { LeadsOpen(f.g, false, free, i, steps); }
    if steps: nat :| LeadsTo(f.g, true, i, steps) { LeadsOpen(f.g, true, bound, i, steps); }
  }

  // ----- plain types ----------------------------------------------------------------

  /** The type expands into numbers, truth values and type ids, in so many levels. */
  ghost predicate Expands(f: Facts, i: nat, levels: nat)
    decreases levels
  {
    levels > 0 && i < |f.g.types| && i in f.inhabited && i !in f.g.modules &&
    var t := f.g.types[i];
    match t.kind
    case Scalar => true
    case TypeValue => true
    case Aggregate(_, _) => forall k :: 0 <= k < |t.fields| ==> Expands(f, t.fields[k], levels - 1)
    case Enum =>
      forall k :: 0 <= k < |t.variants| ==> t.variants[k].None? || Expands(f, t.variants[k].value, levels - 1)
    case Unchecked => t.arguments != [] && Expands(f, t.arguments[0], levels - 1)
    case _ => false
  }

  lemma {:induction false} ExpandsPlain(f: Facts, i: nat, levels: nat)
    requires PlainLeast(f) && Expands(f, i, levels)
    ensures i in f.plain
    decreases levels
  {
    var t := f.g.types[i];
    if t.kind.Aggregate? {
      forall k | 0 <= k < |t.fields|
        ensures t.fields[k] in f.plain
      {
        ExpandsPlain(f, t.fields[k], levels - 1);
      }
    } else if t.kind.Enum? {
      forall k | 0 <= k < |t.variants| && t.variants[k].Some?
        ensures t.variants[k].value in f.plain
      {
        ExpandsPlain(f, t.variants[k].value, levels - 1);
      }
    } else if t.kind.Unchecked? {
      ExpandsPlain(f, t.arguments[0], levels - 1);
    }
    assert PlainRule(f.g, f.inhabited)(i, f.plain);
  }

  lemma {:induction false} ExpandsMore(f: Facts, i: nat, few: nat, many: nat)
    requires Expands(f, i, few) && few <= many
    ensures Expands(f, i, many)
    decreases few
  {
    var t := f.g.types[i];
    match t.kind
    case Aggregate(_, _) =>
      forall k | 0 <= k < |t.fields|
        ensures Expands(f, t.fields[k], many - 1)
      {
        ExpandsMore(f, t.fields[k], few - 1, many - 1);
      }
    case Enum =>
      forall k | 0 <= k < |t.variants| && t.variants[k].Some?
        ensures Expands(f, t.variants[k].value, many - 1)
      {
        ExpandsMore(f, t.variants[k].value, few - 1, many - 1);
      }
    case Unchecked => ExpandsMore(f, t.arguments[0], few - 1, many - 1);
    case _ =>
  }

  lemma {:induction false} PlainExpands(f: Facts, i: nat)
    requires PlainLeast(f) && i in f.plain
    ensures i in f.plainAt && Expands(f, i, f.plainAt[i] + 1)
    decreases if i in f.plainAt then f.plainAt[i] else 0
  {
    PlainBelow(f, i);
    var earlier := Before(f.plainAt, f.plainAt[i]);
    forall j | j in earlier
      ensures Expands(f, j, f.plainAt[i])
    {
      PlainExpands(f, j);
      ExpandsMore(f, j, f.plainAt[j] + 1, f.plainAt[i]);
    }
  }

  /** A type is plain exactly if its expansion is finite and holds nothing that is
      represented by a reference. */
  lemma PlainExactly(f: Facts, i: nat)
    requires PlainLeast(f)
    ensures i in f.plain <==> exists levels: nat :: Expands(f, i, levels)
  {
    hide PlainLeast, Expands;
    if i in f.plain {
      PlainExpands(f, i);
      var levels := f.plainAt[i] + 1;
      assert Expands(f, i, levels);
    }
    if levels: nat :| Expands(f, i, levels) { ExpandsPlain(f, i, levels); }
  }

  // ----- what lies where in a value -----------------------------------------------------

  /** Bytes of a full value of the type, if it has a layout. */
  ghost predicate Takes(f: Facts, i: nat, bytes: nat)
    requires Established(f) && i < |f.g.types|
  {
    ValueOf(f, i).Ok? && ValueOf(f, i).value.Known? && ValueOf(f, i).value.shape.valueBytes == bytes
  }

  /** A variant that some value can have, with a payload. */
  predicate Live(f: Facts, i: nat, k: nat)
    requires i < |f.g.types|
  {
    k < |f.g.types[i].variants| && f.g.types[i].variants[k].Some? && f.g.types[i].variants[k].value in f.inhabited
  }

  /** The payload takes up `bytes` behind the tag: a reference of four bytes if it
      leads back to the type without leaving the value, otherwise its whole value. */
  ghost predicate PayloadTakes(f: Facts, i: nat, k: nat, bytes: nat)
    requires Established(f) && i < |f.g.types| && Live(f, i, k)
  {
    var p := f.g.types[i].variants[k].value;
    if Path(EdgesOf(f.g), p, i) then bytes == 4 else p < |f.g.types| && Takes(f, p, bytes)
  }

  lemma PayloadSized(f: Facts, i: nat, k: nat)
    requires Established(f) && LiveEnum(f, i) && Live(f, i, k) && PayloadBytes(f, i, k).Ok?
    ensures PayloadTakes(f, i, k, PayloadBytes(f, i, k).value)
    ensures forall bytes :: PayloadTakes(f, i, k, bytes) ==> bytes == PayloadBytes(f, i, k).value
  {
    hide ValueOf, Templates, InhabitedLeast, PlainLeast, Path, WellFormed;
    assert (i, k) in f.indirect <==> OnCycle(f.g, i, k);
    if (i, k) !in f.indirect {
      PayloadLess(f, i, k);
      assert PayloadBytes(f, i, k) == InlineBytes(ValueOf(f, f.g.types[i].variants[k].value), NotMaterializable);
    }
  }

  /** The largest payload is that of some live variant, if it takes room at all. */
  lemma {:induction false} SomePayload(f: Facts, i: nat, n: nat) returns (k: nat)
    requires Established(f) && LiveEnum(f, i) && n <= |f.g.types[i].variants| && LargestPayload(f, i, n).Ok?
    ensures LargestPayload(f, i, n).value > 0 ==>
      k < n && Live(f, i, k) && PayloadBytes(f, i, k) == Ok(LargestPayload(f, i, n).value)
    decreases n
  {
    hide Established, ValueOf, PayloadBytes, LargestPayload;
    LargestNext(f, i, n);
    k := 0;
    if n > 0 {
      if !Live(f, i, n - 1) { NoPayload(f, i, n - 1); }
      k := SomePayload(f, i, n - 1);
      if LargestPayload(f, i, n) != LargestPayload(f, i, n - 1) {
        k := n - 1;
      }
    }
  }

  lemma LargestNext(f: Facts, i: nat, n: nat)
    requires Established(f) && LiveEnum(f, i) && n <= |f.g.types[i].variants|
    ensures n == 0 ==> LargestPayload(f, i, n) == Ok(0)
    ensures n > 0 ==> LargestPayload(f, i, n) == Largest(LargestPayload(f, i, n - 1), PayloadBytes(f, i, n - 1))
  {
    hide Established, ValueOf, PayloadBytes;
  }

  lemma NoPayload(f: Facts, i: nat, k: nat)
    requires Established(f) && LiveEnum(f, i) && k < |f.g.types[i].variants| && !Live(f, i, k)
    ensures PayloadBytes(f, i, k) == Ok(0)
  {
    hide Established, ValueOf;
  }

  /** Header, tag and padding, and the payload of variant `k`, if it can be had. */
  ghost predicate Room(f: Facts, i: nat, k: nat, bytes: nat)
    requires Established(f) && i < |f.g.types|
  {
    bytes >= 16 && (Live(f, i, k) ==> exists b: nat :: PayloadTakes(f, i, k, b) && 8 + 8 + b <= bytes)
  }

  /** Tag and padding, then the payload: every live payload fits, and no smaller
      multiple of eight has room for all of them. */
  lemma EnumLaid(f: Facts, i: nat, bytes: nat)
    requires Established(f) && LiveEnum(f, i) && Takes(f, i, bytes)
    ensures bytes % 8 == 0 && bytes >= 16 && forall k: nat :: Room(f, i, k, bytes)
    ensures forall m: nat :: m % 8 == 0 && m >= 16 && (forall k: nat :: Room(f, i, k, m)) ==> bytes <= m
  {
    hide Established, LargestPayload, PayloadBytes, ShapeOf, PayloadTakes, Path;
    LiveKind(f, i);
    var n := |f.g.types[i].variants|;
    var largest := LargestPayload(f, i, n);
    assert largest.Ok?;
    ShapeExact(8 + largest.value, 8, None, false);
    forall k: nat
      ensures Room(f, i, k, bytes)
    {
      if Live(f, i, k) {
        PayloadAtMost(f, i, k, n);
        PayloadSized(f, i, k);
        assert PayloadTakes(f, i, k, PayloadBytes(f, i, k).value);
      }
    }
    var top := SomePayload(f, i, n);
    forall m: nat | m % 8 == 0 && m >= 16 && forall k: nat :: Room(f, i, k, m)
      ensures bytes <= m
    {
      if largest.value > 0 {
        PayloadSized(f, i, top);
        assert Room(f, i, top, m);
      }
      assert m >= 16 + largest.value;
    }
  }

  function Total(sizes: seq<nat>): nat {
    if sizes == [] then 0 else Total(sizes[..|sizes| - 1]) + sizes[|sizes| - 1]
  }

  /** The sizes of the first `n` fields. */
  ghost predicate FieldSizes(f: Facts, i: nat, sizes: seq<nat>)
    requires Established(f) && i < |f.g.types| && |sizes| <= |f.g.types[i].fields|
  {
    forall k :: 0 <= k < |sizes| ==> f.g.types[i].fields[k] < |f.g.types| && Takes(f, f.g.types[i].fields[k], sizes[k])
  }

  lemma {:induction false} OffsetSized(f: Facts, i: nat, n: nat) returns (sizes: seq<nat>)
    requires Established(f) && InlineAggregate(f, i) && n <= |f.g.types[i].fields| && FieldOffset(f, i, n).Ok?
    ensures |sizes| == n && FieldSizes(f, i, sizes) && FieldOffset(f, i, n).value == 8 + Total(sizes)
    decreases n
  {
    hide Established, ValueOf;
    if n == 0 {
      sizes := [];
    } else {
      var front := OffsetSized(f, i, n - 1);
      FieldLess(f, i, n - 1);
      sizes := front + [FieldBytes(f, i, n - 1).value];
      assert sizes[..n - 1] == front;
    }
  }

  /** A marker of eight bytes, then the full values of all fields, and no more. */
  lemma AggregateLaid(f: Facts, i: nat, bytes: nat) returns (sizes: seq<nat>)
    requires Established(f) && InlineAggregate(f, i) && Takes(f, i, bytes)
    ensures |sizes| == |f.g.types[i].fields| && FieldSizes(f, i, sizes)
    ensures bytes % 8 == 0 && 8 + 8 + Total(sizes) <= bytes < 8 + 8 + Total(sizes) + 8
  {
    hide Established, FieldOffset, ShapeOf, FieldSizes;
    InlineLive(f, i);
    var t := f.g.types[i];
    var r := FieldOffset(f, i, |t.fields|);
    assert r.Ok?;
    sizes := OffsetSized(f, i, |t.fields|);
    ShapeExact(r.value, 8, Some(if t.kind.wrapper then NewtypeTable else RecordTable), true);
  }

  /** A checked value is its argument. */
  lemma UncheckedLaid(f: Facts, i: nat, bytes: nat)
    requires Established(f) && i < |f.g.types| && i in f.inhabited && f.g.types[i].kind.Unchecked?
    ensures f.g.types[i].arguments != [] && f.g.types[i].arguments[0] < |f.g.types|
    ensures Takes(f, i, bytes) <==> Takes(f, f.g.types[i].arguments[0], bytes)
  {
    hide Templates, InhabitedLeast, PlainLeast, CyclesBoxed, WellFormed, Rank, FixedShape, FieldOffset, LargestPayload;
    LiveKind(f, i);
    UncheckedLess(f, i);
  }

  // ----- encodings -----------------------------------------------------------------------

  /** Widths of the parts of a value that is not stored inline, as its encoding
      lists them: a scalar's bits; a type id; raw storage, bounds and tag of a byte
      view; reference, bounds and kind of an array; both columns, length and a
      reserved word of a dict; an object's reference; function and environment;
      type, storage kind and payload of a `Dyn`; a resource's slot. */
  function Encoding(kind: Kind): seq<nat> {
    match kind
    case Scalar => [8]
    case TypeValue => [4]
    case Text => [4, 4, 4, 3, 1]
    case Array => [4, 4, 4, 4]
    case Dict => [4, 4, 4, 4]
    case Aggregate(true, _) => []
    case Aggregate(false, _) => [4]
    case Function => [4, 4]
    case Quantified => [4, 4]
    case Dyn => [4, 4, 16]
    case Native(_) => [4]
    case _ => []
  }

  lemma EncodedTotal(kind: Kind)
    ensures Total(Encoding(kind)) == match kind
      case Scalar => 8
      case TypeValue => 4
      case Text => 16
      case Array => 16
      case Dict => 16
      case Aggregate(unit, _) => if unit then 0 else 4
      case Function => 8
      case Quantified => 8
      case Dyn => 24
      case Native(_) => 4
      case _ => 0
  {
    TotalOf([8]);
    TotalOf([4]);
    TotalOf([4, 4]);
    TotalOf([4, 4, 16]);
    TotalOf([4, 4, 4, 4]);
    TotalOf([4, 4, 4, 3, 1]);
  }

  lemma TotalOf(s: seq<nat>)
    requires 1 <= |s| <= 5
    ensures Total(s) == s[0] + (if |s| > 1 then s[1] else 0) + (if |s| > 2 then s[2] else 0)
      + (if |s| > 3 then s[3] else 0) + (if |s| > 4 then s[4] else 0)
  {
    assert forall n :: 0 < n <= |s| ==> s[..n][..n - 1] == s[..n - 1] && s[..n][n - 1] == s[n - 1];
    assert s[..|s|] == s && Total(s[..0]) == 0;
    if |s| > 1 { assert Total(s[..1]) == s[0]; }
    if |s| > 2 { assert Total(s[..2]) == s[0] + s[1]; }
    if |s| > 3 { assert Total(s[..3]) == s[0] + s[1] + s[2]; }
    if |s| > 4 { assert Total(s[..4]) == s[0] + s[1] + s[2] + s[3]; }
  }

  /** Every other type with a layout takes up its encoding, padded to eight bytes,
      behind the header. */
  lemma FixedLaid(f: Facts, i: nat, bytes: nat)
    requires Established(f) && i < |f.g.types| && i in f.inhabited && Takes(f, i, bytes)
    requires !InlineAggregate(f, i) && !f.g.types[i].kind.Enum? && !f.g.types[i].kind.Unchecked?
    ensures bytes % 8 == 0
    ensures var n := Total(Encoding(f.g.types[i].kind)); 8 + n <= bytes < 8 + n + 8
    ensures ValueOf(f, i).value.shape.dataBytes == Total(Encoding(f.g.types[i].kind))
  {
    hide Established, Encoding, Total;
    LiveKind(f, i);
    EncodedTotal(f.g.types[i].kind);
  }
}
