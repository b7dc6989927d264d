/** Sizes of values (candidate_layout.rs value, object): a recursion over the type
    graph that ends on every graph because inline cycles are boxed. */
module LayoutSize {
  import opened FixedPoints
  import opened LayoutGraph
  import opened Wrappers

  const VALUE_HEADER_BYTES: nat := 8
  const U64_MAX: nat := 0xffff_ffff_ffff_ffff

  datatype Error = Overflow | NoContract | MissingRule | NotMaterializable | NoFiniteLayout

  type Result<+T> = Wrappers.Result<T, Error>

  datatype Table = ContentTable | ArrayTable | RecordTable | NewtypeTable | ClosureTable | ValueTable | ResourceTable

  datatype Shape = Shape(inlineFields: bool, dataBytes: nat, alignment: nat, valueBytes: nat, table: Option<Table>)

  datatype State = Known(shape: Shape) | Template | Static | Uninhabited

  // ----- checked sizes --------------------------------------------------------------

  function Add(a: nat, b: nat): Result<nat> {
    if a + b <= U64_MAX then Ok(a + b) else Err(Overflow)
  }

  function Align(n: nat, a: nat): Result<nat>
    requires a > 0
  {
    match Add(n, a - 1)
    case Ok(m) => Ok(m / a * a)
    case Err(e) => Err(e)
  }

  function ShapeOf(bytes: nat, alignment: nat, table: Option<Table>, inlineFields: bool): Result<State> {
    match Align(bytes, 8)
    case Err(e) => Err(e)
    case Ok(padded) =>
      match Add(VALUE_HEADER_BYTES, padded)
      case Err(e) => Err(e)
      case Ok(value) => Ok(Known(Shape(inlineFields, bytes, alignment, value, table)))
  }

  /** A full value is its header and its data, padded to eight bytes; a size is
      refused exactly when it does not fit 64 bits. */
  lemma ShapeExact(bytes: nat, alignment: nat, table: Option<Table>, inlineFields: bool)
    ensures var r := ShapeOf(bytes, alignment, table, inlineFields);
      r.Ok? ==>
        && r.value.Known? && r.value.shape.dataBytes == bytes
        && VALUE_HEADER_BYTES + bytes <= r.value.shape.valueBytes < VALUE_HEADER_BYTES + bytes + 8
        && r.value.shape.valueBytes % 8 == 0 && r.value.shape.valueBytes <= U64_MAX
    ensures ShapeOf(bytes, alignment, table, inlineFields).Err? <==>
      bytes + 7 > U64_MAX || 8 + (bytes + 7) / 8 * 8 > U64_MAX
  {
  }

  // ----- the measure ------------------------------------------------------------------

  /** Types reachable along inline edges. */
  ghost function Reach(f: Facts, i: nat): set<nat> {
    set j: nat | j < |f.g.types| && Path(EdgesOf(f.g), i, j)
  }

  ghost function Tier(f: Facts, i: nat): nat { if i in f.plain then 0 else 1 }

  ghost function Breadth(f: Facts, i: nat): nat {
    if i in f.plain then (if i in f.plainAt then f.plainAt[i] else 0) else |Reach(f, i)|
  }

  ghost function Depth(f: Facts, i: nat): nat {
    if i in f.inhabitedAt then f.inhabitedAt[i] else 0
  }

  /** `j` comes before `i`: plain types first, by the pass that found them; then
      by what is reachable inline; then by the pass that found them inhabited. */
  ghost predicate Less(f: Facts, j: nat, i: nat) {
    || Tier(f, j) < Tier(f, i)
    || (Tier(f, j) == Tier(f, i) && Breadth(f, j) < Breadth(f, i))
    || (Tier(f, j) == Tier(f, i) && Breadth(f, j) == Breadth(f, i) && Depth(f, j) < Depth(f, i))
  }

  /** How many types come before this one. */
  ghost function Rank(f: Facts, i: nat): nat {
    |set j: nat | j < |f.g.types| && Less(f, j, i)|
  }

  lemma LessTrans(f: Facts, a: nat, b: nat, c: nat)
    ensures Less(f, a, b) && Less(f, b, c) ==> Less(f, a, c)
    ensures !Less(f, a, a)
  {
    hide Tier, Breadth, Depth;
  }

  lemma RankLess(f: Facts, j: nat, i: nat)
    requires Less(f, j, i) && j < |f.g.types|
    ensures Rank(f, j) < Rank(f, i)
  {
    hide Less;
    var s, t := set k: nat | k < |f.g.types| && Less(f, k, j), set k: nat | k < |f.g.types| && Less(f, k, i);
    forall k | k in s
      ensures k in t
    {
      LessTrans(f, k, j, i);
    }
    LessTrans(f, j, j, j);
    assert j in t && j !in s;
    Smaller(s, t);
  }

  lemma FieldLess(f: Facts, i: nat, k: nat)
    requires Established(f) && i in f.plain && i < |f.g.types| && f.g.types[i].kind.Aggregate?
    requires k < |f.g.types[i].fields|
    ensures var j := f.g.types[i].fields[k];
      j in f.plain && j in f.inhabited && j < |f.g.types| && Rank(f, j) < Rank(f, i)
  {
    hide PlainLeast, Templates, WellFormed, InhabitedLeast, CyclesBoxed, Rank;
    PlainBelow(f, i);
    var j := f.g.types[i].fields[k];
    assert j in Before(f.plainAt, f.plainAt[i]);
    PlainBelow(f, j);
    RankLess(f, j, i);
  }

  lemma ReachShrinks(f: Facts, i: nat, j: nat)
    requires WellFormed(f.g) && i < |f.g.types| && j in EdgesOf(f.g)[i]
    ensures Reach(f, j) <= Reach(f, i) && |Reach(f, j)| <= |Reach(f, i)|
    ensures !Path(EdgesOf(f.g), j, i) ==> |Reach(f, j)| < |Reach(f, i)|
  {
    hide Path, PathIn;
    var e := EdgesOf(f.g);
    forall b | b in Reach(f, j)
      ensures b in Reach(f, i)
    {
      PathAhead(e, i, j, b);
    }
    PathHere(e, i);
    Smaller(Reach(f, j), Reach(f, i));
    if !Path(e, j, i) {
      assert i in Reach(f, i) && i !in Reach(f, j);
    }
  }

  /** A live payload that is not boxed. */
  lemma PayloadLess(f: Facts, i: nat, k: nat)
    requires Established(f) && i < |f.g.types| && f.g.types[i].kind.Enum? && k < |f.g.types[i].variants|
    requires f.g.types[i].variants[k].Some? && (i, k) !in f.indirect
    ensures var j := f.g.types[i].variants[k].value; j < |f.g.types| && Rank(f, j) < Rank(f, i)
  {
    hide PlainLeast, Templates, InhabitedLeast, Reach, Path, Rank;
    var t := f.g.types[i];
    var j := t.variants[k].value;
    assert WellFormedType(f.g, t);
    assert t.variants[k] in t.variants && j in EdgesOf(f.g)[i];
    ReachShrinks(f, i, j);
    assert !Path(EdgesOf(f.g), j, i) by { assert !OnCycle(f.g, i, k); }
    if i in f.plain {
      PlainBelow(f, i);
      assert j in Before(f.plainAt, f.plainAt[i]);
    }
    RankLess(f, j, i);
  }

  lemma UncheckedLess(f: Facts, i: nat)
    requires Established(f) && i in f.inhabited && i < |f.g.types| && f.g.types[i].kind.Unchecked?
    ensures f.g.types[i].arguments != [] && f.g.types[i].arguments[0] < |f.g.types|
    ensures var j := f.g.types[i].arguments[0]; j in f.inhabited && Rank(f, j) < Rank(f, i)
  {
    hide PlainLeast, Templates, InhabitedLeast, Reach, Path, CyclesBoxed, Rank;
    var t := f.g.types[i];
    assert WellFormedType(f.g, t);
    InhabitedBelow(f, i);
    var j := t.arguments[0];
    assert j in Before(f.inhabitedAt, f.inhabitedAt[i]);
    assert j in EdgesOf(f.g)[i];
    ReachShrinks(f, i, j);
    if i in f.plain {
      PlainBelow(f, i);
      assert j in Before(f.plainAt, f.plainAt[i]);
    }
    RankLess(f, j, i);
  }

  // ----- the sizes ----------------------------------------------------------------------

  function InlineBytes(r: Result<State>, otherwise: Error): Result<nat> {
    if r.Err? then Err(r.error)
    else if r.value.Known? then Ok(r.value.shape.valueBytes)
    else Err(otherwise)
  }

  function Sum(a: Result<nat>, b: Result<nat>): Result<nat> {
    if a.Err? then a else if b.Err? then b else Add(a.value, b.value)
  }

  function Largest(a: Result<nat>, b: Result<nat>): Result<nat> {
    if a.Err? then a else if b.Err? then b else if b.value > a.value then b else a
  }

  function Shaped(bytes: Result<nat>, alignment: nat, table: Option<Table>, inlineFields: bool): Result<State> {
    if bytes.Err? then Err(bytes.error) else ShapeOf(bytes.value, alignment, table, inlineFields)
  }

  /** Types that are not stored inline as a whole. */
  function FixedShape(kind: Kind): Result<State> {
    match kind
    case Scalar => ShapeOf(8, 8, None, false)
    case TypeValue => ShapeOf(4, 4, None, false)
    case Text => ShapeOf(16, 8, Some(ContentTable), false)
    case Array => ShapeOf(16, 4, Some(ArrayTable), false)
    case Dict => ShapeOf(16, 4, Some(ArrayTable), false)
    case Aggregate(true, _) => ShapeOf(0, 1, None, false)
    case Aggregate(false, wrapper) => ShapeOf(4, 4, Some(if wrapper then NewtypeTable else RecordTable), false)
    case Function => ShapeOf(8, 4, Some(ClosureTable), false)
    case Quantified => ShapeOf(8, 4, Some(ClosureTable), false)
    case Dyn => ShapeOf(24, 8, Some(ValueTable), false)
    case Native(known) => if known then ShapeOf(4, 4, Some(ResourceTable), false) else Err(NoContract)
    case _ => Err(MissingRule)
  }

  predicate InlineAggregate(f: Facts, i: nat) {
    i < |f.g.types| && i in f.plain && f.g.types[i].kind.Aggregate? && !f.g.types[i].kind.unit
  }

  predicate LiveEnum(f: Facts, i: nat) {
    i < |f.g.types| && i in f.inhabited && f.g.types[i].kind.Enum?
  }

  /** Offset of the `k`th field of an inline aggregate, behind its marker. */
  ghost function FieldOffset(f: Facts, i: nat, k: nat): Result<nat>
    requires Established(f) && InlineAggregate(f, i) && k <= |f.g.types[i].fields|
    decreases Rank(f, i), 0, k
  {
    if k == 0 then Ok(8) else Sum(FieldOffset(f, i, k - 1), FieldBytes(f, i, k - 1))
  }

  ghost function FieldBytes(f: Facts, i: nat, k: nat): Result<nat>
    requires Established(f) && InlineAggregate(f, i) && k < |f.g.types[i].fields|
    decreases Rank(f, i), 0, k, 0
  {
    FieldLess(f, i, k);
    InlineBytes(ValueOf(f, f.g.types[i].fields[k]), NoFiniteLayout)
  }

  /** What the payload of a variant takes up in its enum: nothing if it has none
      or can never be built. */
  ghost function PayloadBytes(f: Facts, i: nat, k: nat): Result<nat>
    requires Established(f) && LiveEnum(f, i) && k < |f.g.types[i].variants|
    decreases Rank(f, i), 0, k, 0
  {
    var p := f.g.types[i].variants[k];
    if p.None? || p.value !in f.inhabited then Ok(0)
    else if (i, k) in f.indirect then Ok(4)
    else
      PayloadLess(f, i, k);
      InlineBytes(ValueOf(f, p.value), NotMaterializable)
  }

  /** The largest of the first `k` payloads. */
  ghost function LargestPayload(f: Facts, i: nat, k: nat): Result<nat>
    requires Established(f) && LiveEnum(f, i) && k <= |f.g.types[i].variants|
    decreases Rank(f, i), 0, k
  {
    if k == 0 then Ok(0) else Largest(LargestPayload(f, i, k - 1), PayloadBytes(f, i, k - 1))
  }

  /** The layout of a type, as a function of the type graph alone. */
  ghost function ValueOf(f: Facts, i: nat): Result<State>
    requires Established(f) && i < |f.g.types|
    decreases Rank(f, i), 1
  {
    var t := f.g.types[i];
    if i in f.g.modules || IsCompileTime(t.kind) then Ok(Static)
    else if i in f.templates then Ok(Template)
    else if i !in f.inhabited then Ok(Uninhabited)
    else if InlineAggregate(f, i) then
      Shaped(FieldOffset(f, i, |t.fields|), 8, Some(if t.kind.wrapper then NewtypeTable else RecordTable), true)
    else if t.kind.Unchecked? then
      UncheckedLess(f, i);
      ValueOf(f, t.arguments[0])
    else if t.kind.Enum? then Shaped(Sum(Ok(8), LargestPayload(f, i, |t.variants|)), 8, None, false)
    else FixedShape(t.kind)
  }

  // ----- what the sizes guarantee ---------------------------------------------------

  /** Failures that a caller has to expect: too large, an unknown native type, or
      a constructor without a rule. */
  predicate Expected(r: Result<nat>) {
    r.Err? ==> r.error.Overflow? || r.error.NoContract? || r.error.MissingRule?
  }

  predicate Answers(f: Facts, i: nat, r: Result<State>) {
    if r.Ok? then (r.value.Known? <==> i in f.inhabited)
    else i in f.inhabited && (r.error.Overflow? || r.error.NoContract? || r.error.MissingRule?)
  }

  lemma LiveKind(f: Facts, i: nat)
    requires Established(f) && i in f.inhabited
    ensures i < |f.g.types| && i !in f.templates && i !in f.g.modules && !IsCompileTime(f.g.types[i].kind)
  {
    hide PlainLeast, Templates, CyclesBoxed, WellFormed;
    InhabitedBelow(f, i);
  }

  lemma ShapedAnswers(f: Facts, i: nat, bytes: Result<nat>, alignment: nat, table: Option<Table>, inlineFields: bool)
    requires Expected(bytes) && i in f.inhabited
    ensures Answers(f, i, Shaped(bytes, alignment, table, inlineFields))
  {
  }

  lemma FixedAnswers(f: Facts, i: nat, kind: Kind)
    requires i in f.inhabited
    ensures Answers(f, i, FixedShape(kind))
  {
  }

  /** A layout is known exactly for the types that have a value; a member of an
      inline value is never without one. */
  lemma {:induction false} Outcome(f: Facts, i: nat)
    requires Established(f) && i < |f.g.types|
    ensures Answers(f, i, ValueOf(f, i))
    decreases Rank(f, i), 1
  {
    hide Established, Rank, Answers, Shaped, FixedShape, FieldOffset, LargestPayload, Sum;
    var t := f.g.types[i];
    if i in f.inhabited {
      LiveKind(f, i);
      if InlineAggregate(f, i) {
        FieldsExpected(f, i, |t.fields|);
        ShapedAnswers(f, i, FieldOffset(f, i, |t.fields|), 8,
          Some(if t.kind.wrapper then NewtypeTable else RecordTable), true);
      } else if t.kind.Unchecked? {
        UncheckedLess(f, i);
        Outcome(f, t.arguments[0]);
        SameAnswers(f, i, t.arguments[0], ValueOf(f, i));
      } else if t.kind.Enum? {
        PayloadsExpected(f, i, |t.variants|);
        SumExpected(Ok(8), LargestPayload(f, i, |t.variants|));
        ShapedAnswers(f, i, Sum(Ok(8), LargestPayload(f, i, |t.variants|)), 8, None, false);
      } else {
        FixedAnswers(f, i, t.kind);
      }
    } else {
      NotInline(f, i);
      NothingAnswers(f, i);
    }
  }

  lemma NotInline(f: Facts, i: nat)
    requires Established(f) && i !in f.inhabited
    ensures i !in f.plain
  {
    hide InhabitedLeast, Templates, CyclesBoxed, WellFormed;
    if i in f.plain { PlainBelow(f, i); }
  }

  lemma NothingAnswers(f: Facts, i: nat)
    requires i !in f.inhabited
    ensures Answers(f, i, Ok(Static)) && Answers(f, i, Ok(Template)) && Answers(f, i, Ok(Uninhabited))
  {
  }

  lemma SameAnswers(f: Facts, i: nat, j: nat, r: Result<State>)
    requires Answers(f, j, r) && i in f.inhabited && j in f.inhabited
    ensures Answers(f, i, r)
  {
  }

  lemma SumExpected(a: Result<nat>, b: Result<nat>)
    ensures Expected(a) && Expected(b) ==> Expected(Sum(a, b)) && Expected(Largest(a, b))
  {
  }

  lemma InlineExpected(f: Facts, i: nat, r: Result<State>, otherwise: Error)
    requires Answers(f, i, r) && i in f.inhabited
    ensures Expected(InlineBytes(r, otherwise))
  {
  }

  lemma {:induction false} FieldsExpected(f: Facts, i: nat, k: nat)
    requires Established(f) && InlineAggregate(f, i) && k <= |f.g.types[i].fields|
    ensures Expected(FieldOffset(f, i, k))
    decreases Rank(f, i), 0, k
  {
    hide Established, Rank, Answers, InlineBytes, Sum, Expected, ValueOf;
    if k == 0 {
      ZeroExpected();
    } else {
      FieldsExpected(f, i, k - 1);
      FieldLess(f, i, k - 1);
      var j := f.g.types[i].fields[k - 1];
      Outcome(f, j);
      InlineExpected(f, j, ValueOf(f, j), NoFiniteLayout);
      SumExpected(FieldOffset(f, i, k - 1), FieldBytes(f, i, k - 1));
    }
  }

  lemma ZeroExpected()
    ensures forall n: nat :: Expected(Ok(n))
  {
  }

  lemma {:induction false} PayloadsExpected(f: Facts, i: nat, k: nat)
    requires Established(f) && LiveEnum(f, i) && k <= |f.g.types[i].variants|
    ensures Expected(LargestPayload(f, i, k))
    decreases Rank(f, i), 0, k
  {
    hide Established, Rank, Answers, InlineBytes, Sum, Largest, Expected, ValueOf;
    ZeroExpected();
    if k > 0 {
      PayloadsExpected(f, i, k - 1);
      var p := f.g.types[i].variants[k - 1];
      if p.Some? && p.value in f.inhabited && (i, k - 1) !in f.indirect {
        PayloadLess(f, i, k - 1);
        Outcome(f, p.value);
        InlineExpected(f, p.value, ValueOf(f, p.value), NotMaterializable);
      }
      SumExpected(LargestPayload(f, i, k - 1), PayloadBytes(f, i, k - 1));
    }
  }

  /** Offsets of the fields of an inline aggregate grow by exactly what each field
      takes up, so fields lie one behind the other. */
  lemma {:induction false} FieldsInOrder(f: Facts, i: nat, a: nat, b: nat)
    requires Established(f) && InlineAggregate(f, i) && a < b <= |f.g.types[i].fields| && FieldOffset(f, i, b).Ok?
    ensures FieldOffset(f, i, a).Ok? && FieldBytes(f, i, a).Ok? && FieldOffset(f, i, a).value >= 8
    ensures FieldOffset(f, i, a).value + FieldBytes(f, i, a).value <= FieldOffset(f, i, b).value
    decreases b
  {
    hide Established, FieldBytes;
    if a < b - 1 {
      FieldsInOrder(f, i, a, b - 1);
    } else {
      OffsetAtLeast(f, i, a);
    }
  }

  lemma {:induction false} OffsetAtLeast(f: Facts, i: nat, k: nat)
    requires Established(f) && InlineAggregate(f, i) && k <= |f.g.types[i].fields| && FieldOffset(f, i, k).Ok?
    ensures FieldOffset(f, i, k).value >= 8
    decreases k
  {
    hide Established, FieldBytes;
    if k > 0 {
      OffsetAtLeast(f, i, k - 1);
    }
  }

  /** Every field of an inline aggregate lies behind the marker and inside the
      value. */
  lemma FieldsFit(f: Facts, i: nat, k: nat)
    requires Established(f) && InlineAggregate(f, i) && k < |f.g.types[i].fields| && ValueOf(f, i).Ok?
    ensures ValueOf(f, i).value.Known? && ValueOf(f, i).value.shape.inlineFields
    ensures FieldOffset(f, i, k).Ok? && FieldBytes(f, i, k).Ok? && FieldOffset(f, i, k).value >= 8
    ensures VALUE_HEADER_BYTES + FieldOffset(f, i, k).value + FieldBytes(f, i, k).value <=
      ValueOf(f, i).value.shape.valueBytes
  {
    hide Established, FieldOffset, FieldBytes, ShapeOf;
    var t := f.g.types[i];
    InlineLive(f, i);
    var r := FieldOffset(f, i, |t.fields|);
    assert r.Ok?;
    FieldsInOrder(f, i, k, |t.fields|);
    ShapeExact(r.value, 8, Some(if t.kind.wrapper then NewtypeTable else RecordTable), true);
    ShapeInline(r.value, 8, Some(if t.kind.wrapper then NewtypeTable else RecordTable), true);
  }

  lemma ShapeInline(bytes: nat, alignment: nat, table: Option<Table>, inlineFields: bool)
    ensures var r := ShapeOf(bytes, alignment, table, inlineFields); r.Ok? ==>
      r.value.Known? && r.value.shape.inlineFields == inlineFields
  {
  }

  lemma InlineLive(f: Facts, i: nat)
    requires Established(f) && i in f.plain
    ensures i in f.inhabited && i < |f.g.types| && i !in f.templates && i !in f.g.modules
    ensures !IsCompileTime(f.g.types[i].kind)
  {
    hide InhabitedLeast, Templates, CyclesBoxed, WellFormed;
    PlainBelow(f, i);
    LiveKind(f, i);
  }

  lemma {:induction false} PayloadAtMost(f: Facts, i: nat, k: nat, n: nat)
    requires Established(f) && LiveEnum(f, i) && k < n <= |f.g.types[i].variants| && LargestPayload(f, i, n).Ok?
    ensures PayloadBytes(f, i, k).Ok? && PayloadBytes(f, i, k).value <= LargestPayload(f, i, n).value
    decreases n
  {
    hide Established, PayloadBytes;
    if k < n - 1 {
      PayloadAtMost(f, i, k, n - 1);
    }
  }

  /** The payload of every live variant fits behind the header and the tag, be it
      stored in place or as a reference. */
  lemma PayloadsFit(f: Facts, i: nat, k: nat)
    requires Established(f) && LiveEnum(f, i) && k < |f.g.types[i].variants| && ValueOf(f, i).Ok?
    ensures ValueOf(f, i).value.Known? && PayloadBytes(f, i, k).Ok?
    ensures VALUE_HEADER_BYTES + 8 + PayloadBytes(f, i, k).value <= ValueOf(f, i).value.shape.valueBytes
  {
    hide Established, LargestPayload, PayloadBytes, ShapeOf;
    LiveKind(f, i);
    var n := |f.g.types[i].variants|;
    var largest := LargestPayload(f, i, n);
    assert largest.Ok?;
    PayloadAtMost(f, i, k, n);
    ShapeExact(8 + largest.value, 8, None, false);
  }

  /** The layout depends on the type graph alone, not on the order in which the
      passes visited it. */
  lemma {:induction false} OrderIndependent(f: Facts, h: Facts, i: nat)
    requires Established(f) && Established(h) && f.g == h.g && i < |f.g.types|
    ensures ValueOf(f, i) == ValueOf(h, i)
    decreases Rank(f, i), 1
  {
    hide Established, Rank, Shaped, FixedShape, FieldOffset, LargestPayload, Sum, IsCompileTime;
    FactsUnique(f, h);
    var t := f.g.types[i];
    if i !in f.inhabited {
      NotInline(f, i);
    } else if InlineAggregate(f, i) {
      FieldsIndependent(f, h, i, |t.fields|);
    } else if t.kind.Unchecked? {
      UncheckedLess(f, i);
      OrderIndependent(f, h, t.arguments[0]);
    } else if t.kind.Enum? {
      PayloadsIndependent(f, h, i, |t.variants|);
    }
  }

  lemma {:induction false} FieldsIndependent(f: Facts, h: Facts, i: nat, k: nat)
    requires Established(f) && Established(h) && f.g == h.g && InlineAggregate(f, i) && k <= |f.g.types[i].fields|
    ensures InlineAggregate(h, i) && FieldOffset(f, i, k) == FieldOffset(h, i, k)
    decreases Rank(f, i), 0, k
  {
    hide Established, Rank, Sum, InlineBytes, ValueOf;
    FactsUnique(f, h);
    if k > 0 {
      FieldsIndependent(f, h, i, k - 1);
      FieldLess(f, i, k - 1);
      OrderIndependent(f, h, f.g.types[i].fields[k - 1]);
    }
  }

  lemma {:induction false} PayloadsIndependent(f: Facts, h: Facts, i: nat, k: nat)
    requires Established(f) && Established(h) && f.g == h.g && LiveEnum(f, i) && k <= |f.g.types[i].variants|
    ensures LiveEnum(h, i) && LargestPayload(f, i, k) == LargestPayload(h, i, k)
    decreases Rank(f, i), 0, k
  {
    hide Established, Rank, Largest, InlineBytes, ValueOf;
    FactsUnique(f, h);
    if k > 0 {
      PayloadsIndependent(f, h, i, k - 1);
      var p := f.g.types[i].variants[k - 1];
      if p.Some? && p.value in f.inhabited && (i, k - 1) !in f.indirect {
        PayloadLess(f, i, k - 1);
        OrderIndependent(f, h, p.value);
      }
    }
  }
}
