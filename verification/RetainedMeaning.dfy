/** The law of retention: any heap that repeats the storage and the slots that are
    left after a collection unfolds every root as before, to every depth. */
module RetainedMeaning {
  import opened HeapGraph
  import opened MarkGraph
  import opened ReferenceWords
  import opened MarkRetention

  /** `k` repeats the heap of `w` outside the words in `lost`, and in the slots in
      `ids`. */
  ghost predicate Repeats(w: World, k: Heap, lost: set<Addr>, ids: set<(nat, int)>) {
    && (forall a :: a !in lost ==> SameAt(w, k, a))
    && (forall tag, id :: (tag, id) in ids ==> SameCell(w, k, tag, id))
  }

  ghost predicate SameAt(w: World, k: Heap, a: Addr) {
    && At(k, a) == At(w.heap, a)
    && (a in w.heap.raws ==> a in k.raws && k.raws[a] == w.heap.raws[a])
  }

  ghost predicate SameCell(w: World, k: Heap, tag: nat, id: int) {
    HasCell(w.heap, tag, id) ==> HasCell(k, tag, id) && Cells(k, tag)[id] == Cells(w.heap, tag)[id]
  }

  ghost predicate SameDeep(w: World, k: Heap, n: Node, fuel: nat) {
    Deep(w.img, k, NULL_ORIGIN, n, fuel) == Deep(w.img, w.heap, NULL_ORIGIN, n, fuel)
  }

  /** The storage `n` means what it meant: fields and elements each on their own. */
  ghost predicate SameTree(w: World, k: Heap, n: Node, fuel: nat) {
    match n
    case Fields(e, _, a) =>
      match e.layout {
        case Record(fields) => SameFields(w, k, fields, a, fuel)
        case InlineRecord(fields) => SameFields(w, k, fields, a, fuel)
        case _ => true
      }
    case Elems(e, count, a) => forall i: nat :: i < count ==> SameElement(w, k, e, a, i, fuel)
    case _ => SameDeep(w, k, n, fuel)
  }

  ghost predicate SameElement(w: World, k: Heap, e: Entry, a: Addr, i: nat, fuel: nat) {
    SameDeep(w, k, Value(e, a + i * e.size), fuel)
  }

  ghost predicate SameFields(w: World, k: Heap, fields: seq<Field>, a: Addr, fuel: nat) {
    DeepFields(w.img, k, NULL_ORIGIN, fields, a, fuel) == DeepFields(w.img, w.heap, NULL_ORIGIN, fields, a, fuel)
  }

  /** What roots name is there, and what they give means what it meant. */
  ghost predicate Unharmed(w: World, r: Roots, k: Heap, lost: set<Addr>) {
    && (forall a :: Named(r, a) ==> a !in lost)
    && (forall n, fuel: nat :: Given(w, r, n) ==> SameTree(w, k, n, fuel))
  }

  // ----- storage that is left -----------------------------------------------------------

  /** `lost` lies in blocks that hold nothing reachable. */
  ghost predicate Released(w: World, blocks: set<set<Addr>>, from: Start, lost: set<Addr>) {
    forall a :: a in lost ==> exists b :: b in blocks && a in b && !Retained(w, from, b)
  }

  /** Every slot that something reachable names is among `ids`. */
  ghost predicate AllListed(w: World, from: Start, ids: set<(nat, int)>) {
    forall n :: Reachable(w, from.nodes, n) && n.Slot? ==> SlotKey(w, n) in ids
  }

  /** All that something reachable needs is repeated. */
  ghost predicate Intact(w: World, from: Start, k: Heap) {
    && WellTyped(w) && from.nodes <= w.ty.nodes
    && forall n :: Reachable(w, from.nodes, n) ==> IntactNode(w, k, n)
  }

  ghost predicate IntactNode(w: World, k: Heap, n: Node) {
    && (forall a :: n.at <= a < n.at + Size(w.heap, n) ==> At(k, a) == At(w.heap, a))
    && (n.Raw? ==> SameAt(w, k, At(w.heap, n.at)))
    && (n.Slot? ==> SameCell(w, k, n.tag, At(w.heap, n.at)))
  }

  lemma NotLost(w: World, blocks: set<set<Addr>>, from: Start, lost: set<Addr>, a: Addr)
    requires Released(w, blocks, from, lost) && Justified(w, from, a)
    ensures a !in lost
  {
    hide Justified;
    assert forall b :: b in blocks && a in b ==> Retained(w, from, b);
  }

  lemma WordLeft(w: World, blocks: set<set<Addr>>, from: Start, lost: set<Addr>, n: Node, a: Addr)
    requires Housed(w, blocks) && Released(w, blocks, from, lost) && n in w.ty.nodes && Reachable(w, from.nodes, n)
    requires n.at <= a < n.at + Size(w.heap, n)
    ensures a !in lost
  {
    hide Reachable, Size;
    assert n.at in Touches(w, n);
    assert Justified(w, from, n.at);
    assert forall b :: b in blocks && a in b ==> n.at in b;
    assert forall b :: b in blocks && a in b ==> Retained(w, from, b);
  }

  lemma AllIntact(w: World, blocks: set<set<Addr>>, from: Start, lost: set<Addr>, ids: set<(nat, int)>, k: Heap)
    requires WellTyped(w) && from.nodes <= w.ty.nodes && Housed(w, blocks)
    requires Released(w, blocks, from, lost) && AllListed(w, from, ids) && Repeats(w, k, lost, ids)
    ensures Intact(w, from, k)
  {
    hide WellTyped, Housed, Reachable, At, Size, Cells, Released;
    forall n | Reachable(w, from.nodes, n)
      ensures IntactNode(w, k, n)
    {
      ReachTyped(w, from.nodes, n);
      forall a | n.at <= a < n.at + Size(w.heap, n)
        ensures At(k, a) == At(w.heap, a)
      {
        WordLeft(w, blocks, from, lost, n, a);
        assert SameAt(w, k, a);
      }
      if n.Raw? {
        assert At(w.heap, n.at) in Touches(w, n);
        NotLost(w, blocks, from, lost, At(w.heap, n.at));
      }
      if n.Slot? {
        assert SlotKey(w, n) in ids;
      }
    }
  }

  // ----- one step of the unfolding -----------------------------------------------------

  /** Everything reachable unfolds as before, to depth `fuel`. */
  ghost predicate AllSame(w: World, from: Start, k: Heap, fuel: nat) {
    && (forall n :: Reachable(w, from.nodes, n) ==> SameDeep(w, k, n, fuel))
    && (forall n :: Reachable(w, from.nodes, n) && n.Data? ==> SameData(w, k, n.e, n.at, fuel))
    && (forall n :: Reachable(w, from.nodes, n) && n.Object? ==> SameObject(w, k, n.table, n.at, fuel))
  }

  ghost predicate SameData(w: World, k: Heap, e: Entry, a: Addr, fuel: nat) {
    DeepData(w.img, k, NULL_ORIGIN, e, a, fuel) == DeepData(w.img, w.heap, NULL_ORIGIN, e, a, fuel)
  }

  ghost predicate SameObject(w: World, k: Heap, t: Table, a: Addr, fuel: nat) {
    DeepObject(w.img, k, NULL_ORIGIN, t, a, fuel) == DeepObject(w.img, w.heap, NULL_ORIGIN, t, a, fuel)
  }

  /** What is known of a reachable node. */
  lemma Known(w: World, from: Start, k: Heap, n: Node)
    requires Intact(w, from, k) && Reachable(w, from.nodes, n)
    ensures ValidNode(w.img, w.heap, n) && IntactNode(w, k, n)
  {
    hide WellTyped, Reachable, ValidNode, IntactNode, Packed, Size, Parts;
    ReachTyped(w, from.nodes, n);
    NodeFits(w, n);
  }

  /** A part of something reachable unfolds as before. */
  lemma PartSame(w: World, from: Start, k: Heap, n: Node, p: Node, fuel: nat)
    requires AllSame(w, from, k, fuel) && Reachable(w, from.nodes, n)
    requires !IsSlot(n) && !IsArray(n) && p in Parts(w.img, w.heap, n)
    ensures Reachable(w, from.nodes, p) && SameDeep(w, k, p, fuel)
  {
    hide Reachable, Parts, Next, IsSlot, SameDeep, SameData, SameObject;
    PartNext(w, n, p);
    ReachStep(w, from.nodes, n, p);
  }

  /** So does what a slot designates. */
  lemma TargetSame(w: World, from: Start, k: Heap, s: Node, n: Node, fuel: nat)
    requires AllSame(w, from, k, fuel) && Reachable(w, from.nodes, s)
    requires IsSlot(s) && !s.Raw? && Designates(w, s, n)
    ensures SameDeep(w, k, n, fuel) && (n.Object? ==> SameObject(w, k, n.table, n.at, fuel))
  {
    hide Reachable, Designates, Next, IsSlot, SameDeep, SameData, SameObject;
    SlotLeads(w, s, n);
    ReachStep(w, from.nodes, s, n);
  }

  lemma SameWords(w: World, k: Heap, a: Addr, count: nat)
    requires forall i :: a <= i < a + count ==> At(k, i) == At(w.heap, i)
    ensures WordsAt(k, a, count) == WordsAt(w.heap, a, count)
  {
    hide At;
    assert forall i :: 0 <= i < count ==> WordsAt(k, a, count)[i] == WordsAt(w.heap, a, count)[i];
  }

  // ----- data -----------------------------------------------------------------------------

  /** The words and slots of the data of a reachable value. */
  ghost predicate DataLeft(w: World, from: Start, k: Heap, e: Entry, a: Addr, fuel: nat) {
    && Intact(w, from, k) && AllSame(w, from, k, fuel) && Reachable(w, from.nodes, Data(e, a))
    && ValidData(w.img, w.heap, e, a) && e.size >= HEADER
    && (forall i :: a <= i < a + e.size - HEADER ==> At(k, i) == At(w.heap, i))
  }

  lemma DataKnown(w: World, from: Start, k: Heap, e: Entry, a: Addr, fuel: nat)
    requires Intact(w, from, k) && AllSame(w, from, k, fuel) && Reachable(w, from.nodes, Data(e, a))
    ensures DataLeft(w, from, k, e, a, fuel)
  {
    hide WellTyped, Reachable, ValidData, At, AllSame, Parts, Intact;
    Known(w, from, k, Data(e, a));
  }

  lemma DataPart(w: World, from: Start, k: Heap, e: Entry, a: Addr, p: Node, fuel: nat)
    requires DataLeft(w, from, k, e, a, fuel) && p in DataParts(w.img, w.heap, e, a)
    ensures Reachable(w, from.nodes, p) && SameDeep(w, k, p, fuel)
  {
    hide Reachable, SameDeep, AllSame, DataParts, Intact, ValidData, At;
    PartSame(w, from, k, Data(e, a), p, fuel);
  }

  lemma ScalarSame(w: World, from: Start, k: Heap, e: Entry, a: Addr, fuel: nat)
    requires DataLeft(w, from, k, e, a, fuel) && (e.layout.Scalar? || e.layout.CompileTime?)
    ensures SameData(w, k, e, a, fuel + 1)
  {
    hide Reachable, AllSame, At, Intact, WordsAt;
    SameWords(w, k, a, Max0(e.size - HEADER));
  }

  lemma ContentSame(w: World, from: Start, k: Heap, e: Entry, a: Addr, fuel: nat)
    requires DataLeft(w, from, k, e, a, fuel) && e.layout.Content?
    ensures SameData(w, k, e, a, fuel + 1)
  {
    hide Reachable, AllSame, At, Intact, WordsAt, DeepContent, SameDeep;
    if At(w.heap, a + 3) == CONTENT_SLICE {
      DataPart(w, from, k, e, a, Raw(a), fuel);
      Known(w, from, k, Raw(a));
    }
    ViewSame(w, k, a);
  }

  /** A view whose words and storage are repeated shows the same bytes. */
  lemma ViewSame(w: World, k: Heap, a: Addr)
    requires forall i :: a <= i < a + 4 ==> At(k, i) == At(w.heap, i)
    requires At(w.heap, a + 3) == CONTENT_SLICE ==> ValidNode(w.img, w.heap, Raw(a)) && IntactNode(w, k, Raw(a))
    ensures DeepContent(k, a) == DeepContent(w.heap, a)
  {
    hide At;
    SameWords(w, k, a, 4);
  }

  lemma HandleSame(w: World, from: Start, k: Heap, e: Entry, a: Addr, fuel: nat)
    requires DataLeft(w, from, k, e, a, fuel) && (e.layout.Record? || e.layout.Newtype? || e.layout.Resource?)
    ensures SameData(w, k, e, a, fuel + 1)
  {
    hide Reachable, AllSame, At, Intact, Deep, ValidData;
    match e.layout
    case Record(_) => DataPart(w, from, k, e, a, Handle(Records, a), fuel);
    case Newtype(_) => DataPart(w, from, k, e, a, Handle(Newtypes, a), fuel);
    case Resource(tag) => DataPart(w, from, k, e, a, Slot(tag, a), fuel);
  }

  lemma InlineSame(w: World, from: Start, k: Heap, e: Entry, a: Addr, fuel: nat)
    requires DataLeft(w, from, k, e, a, fuel) && e.layout.InlineRecord?
    ensures SameData(w, k, e, a, fuel + 1)
  {
    hide Reachable, AllSame, At, Intact, Deep, ValidData, EntryOf;
    var fields := e.layout.fields;
    InlineParts(w.img, w.heap, e, a);
    forall i | 0 <= i < |fields|
      ensures SameDeep(w, k, Value(EntryOf(w.img, fields[i].ty), a + 2 + fields[i].offset), fuel)
    {
      DataPart(w, from, k, e, a, DataParts(w.img, w.heap, e, a)[i], fuel);
    }
    FieldsSame(w, k, fields, a + 2, fuel);
  }

  lemma FieldsSame(w: World, k: Heap, fields: seq<Field>, a: Addr, fuel: nat)
    requires forall i :: 0 <= i < |fields| ==>
      SameDeep(w, k, Value(EntryOf(w.img, fields[i].ty), a + fields[i].offset), fuel)
    ensures SameFields(w, k, fields, a, fuel)
  {
    hide Deep, EntryOf;
    var ts := DeepFields(w.img, k, NULL_ORIGIN, fields, a, fuel);
    var us := DeepFields(w.img, w.heap, NULL_ORIGIN, fields, a, fuel);
    forall i | 0 <= i < |fields|
      ensures ts[i] == us[i]
    {
      assert SameDeep(w, k, Value(EntryOf(w.img, fields[i].ty), a + fields[i].offset), fuel);
    }
  }

  lemma ArraySame(w: World, from: Start, k: Heap, e: Entry, a: Addr, fuel: nat)
    requires DataLeft(w, from, k, e, a, fuel) && e.layout.Array?
    ensures SameData(w, k, e, a, fuel + 1)
  {
    hide Reachable, AllSame, At, Intact, Deep, EntryOf;
    var kind := At(w.heap, a + 3);
    if kind == ARRAY_SINGLE {
      DataPart(w, from, k, e, a, Ref(EntryOf(w.img, e.layout.elem), a), fuel);
    } else if kind == ARRAY_SLICE {
      DataPart(w, from, k, e, a, Handle(Arrays, a), fuel);
    }
    assert DeepArray(w.img, k, NULL_ORIGIN, e.layout.elem, a, fuel)
      == DeepArray(w.img, w.heap, NULL_ORIGIN, e.layout.elem, a, fuel);
  }

  lemma DictSame(w: World, from: Start, k: Heap, e: Entry, a: Addr, fuel: nat)
    requires DataLeft(w, from, k, e, a, fuel) && e.layout.Dict?
    ensures SameData(w, k, e, a, fuel + 1)
  {
    hide Reachable, AllSame, At, Intact, Deep;
    DataPart(w, from, k, e, a, Handle(Arrays, a), fuel);
    DataPart(w, from, k, e, a, Handle(Arrays, a + 2), fuel);
  }

  lemma EnumSame(w: World, from: Start, k: Heap, e: Entry, a: Addr, fuel: nat)
    requires DataLeft(w, from, k, e, a, fuel) && e.layout.Enum?
    ensures SameData(w, k, e, a, fuel + 1)
  {
    hide Reachable, AllSame, At, Intact, Deep, EntryOf;
    var variants, tag := e.layout.variants, At(w.heap, a);
    if variants[tag].Payload? {
      if variants[tag].boxed {
        DataPart(w, from, k, e, a, Handle(Boxes, a + 2), fuel);
      } else {
        DataPart(w, from, k, e, a, Value(EntryOf(w.img, variants[tag].ty), a + 2), fuel);
      }
    }
    assert DeepEnum(w.img, k, NULL_ORIGIN, variants, a, fuel)
      == DeepEnum(w.img, w.heap, NULL_ORIGIN, variants, a, fuel);
  }

  lemma DynSame(w: World, from: Start, k: Heap, e: Entry, a: Addr, fuel: nat)
    requires DataLeft(w, from, k, e, a, fuel) && e.layout.Dyn?
    ensures SameData(w, k, e, a, fuel + 1)
  {
    hide Reachable, AllSame, At, Intact, Deep, EntryOf;
    var payload := EntryOf(w.img, At(w.heap, a));
    if At(w.heap, a + 1) == 1 {
      DataPart(w, from, k, e, a, Handle(Boxes, a + 2), fuel);
    } else if payload.size == HEADER {
      NothingSame(w, k, payload, a + 2, fuel);
    } else {
      DataPart(w, from, k, e, a, Data(payload, a + 2), fuel);
    }
    assert DeepDyn(w.img, k, NULL_ORIGIN, a, fuel) == DeepDyn(w.img, w.heap, NULL_ORIGIN, a, fuel);
  }

  lemma NothingSame(w: World, k: Heap, e: Entry, a: Addr, fuel: nat)
    requires e.size == HEADER && e.layout.Scalar?
    ensures SameDeep(w, k, Data(e, a), fuel) && SameData(w, k, e, a, fuel)
  {
    SameWords(w, k, a, 0);
  }

  lemma FunctionSame(w: World, from: Start, k: Heap, e: Entry, a: Addr, fuel: nat)
    requires DataLeft(w, from, k, e, a, fuel) && e.layout.Function?
    ensures SameData(w, k, e, a, fuel + 1)
  {
    hide Reachable, AllSame, At, Intact, Deep;
    if At(w.heap, a + 1) != 0 {
      DataPart(w, from, k, e, a, Handle(Environments, a + 1), fuel);
    }
    assert DeepFunction(w.img, k, NULL_ORIGIN, a, fuel) == DeepFunction(w.img, w.heap, NULL_ORIGIN, a, fuel);
  }

  lemma DataSame(w: World, from: Start, k: Heap, e: Entry, a: Addr, fuel: nat)
    requires DataLeft(w, from, k, e, a, fuel)
    ensures SameData(w, k, e, a, fuel + 1)
  {
    hide DataLeft, SameData;
    match e.layout
    case Content => ContentSame(w, from, k, e, a, fuel);
    case InlineRecord(_) => InlineSame(w, from, k, e, a, fuel);
    case Array(_) => ArraySame(w, from, k, e, a, fuel);
    case Dict(_, _) => DictSame(w, from, k, e, a, fuel);
    case Enum(_) => EnumSame(w, from, k, e, a, fuel);
    case Dyn => DynSame(w, from, k, e, a, fuel);
    case Function => FunctionSame(w, from, k, e, a, fuel);
    case Record(_) => HandleSame(w, from, k, e, a, fuel);
    case Newtype(_) => HandleSame(w, from, k, e, a, fuel);
    case Resource(_) => HandleSame(w, from, k, e, a, fuel);
    case Scalar => ScalarSame(w, from, k, e, a, fuel);
    case CompileTime => ScalarSame(w, from, k, e, a, fuel);
  }

  // ----- objects --------------------------------------------------------------------------

  lemma RecordSame(w: World, from: Start, k: Heap, a: Addr, fuel: nat)
    requires Intact(w, from, k) && AllSame(w, from, k, fuel) && Reachable(w, from.nodes, Object(Records, a))
    ensures SameObject(w, k, Records, a, fuel + 1)
  {
    hide Reachable, AllSame, At, Intact, Deep, EntryOf, ValidNode, FieldsOf;
    var n := Object(Records, a);
    var e := EntryOf(w.img, At(w.heap, a));
    var f := Fields(e, Max0(At(w.heap, a + 1)), a + 2);
    var fields := FieldsOf(e);
    Known(w, from, k, n);
    PartSame(w, from, k, n, f, fuel);
    FieldParts(w.img, w.heap, e, f.extent, a + 2);
    forall i | 0 <= i < |fields|
      ensures SameDeep(w, k, Value(EntryOf(w.img, fields[i].ty), a + 2 + fields[i].offset), fuel)
    {
      PartSame(w, from, k, f, Parts(w.img, w.heap, f)[i], fuel);
    }
    FieldsSame(w, k, fields, a + 2, fuel);
  }

  lemma BoxSame(w: World, from: Start, k: Heap, t: Table, a: Addr, fuel: nat)
    requires Intact(w, from, k) && AllSame(w, from, k, fuel) && Reachable(w, from.nodes, Object(t, a))
    requires t.Boxes? || t.Newtypes?
    ensures SameObject(w, k, t, a, fuel + 1)
  {
    hide Reachable, AllSame, At, Intact, Deep, EntryOf, ValidNode, InnerOf;
    var n, e := Object(t, a), EntryOf(w.img, At(w.heap, a));
    Known(w, from, k, n);
    PartSame(w, from, k, n, Value(if t.Boxes? then e else InnerOf(w.img, e), a + 2), fuel);
  }

  lemma ArrayObjectSame(w: World, from: Start, k: Heap, a: Addr, fuel: nat)
    requires Intact(w, from, k) && AllSame(w, from, k, fuel) && Reachable(w, from.nodes, Object(Arrays, a))
    ensures SameObject(w, k, Arrays, a, fuel + 1)
  {
    hide Reachable, AllSame, At, Intact, Deep, EntryOf, ValidNode, Next;
    var n, b := Object(Arrays, a), Backing(w.img, w.heap, a);
    Known(w, from, k, n);
    PartNext(w, n, b);
    ReachStep(w, from.nodes, n, b);
    forall i: nat | i < b.count
      ensures SameElement(w, k, b.e, b.at, i, fuel)
    {
      ElementSame(w, from, k, b, i, fuel);
    }
    ElementsSame(w, k, b.e, b.at, b.count, fuel);
  }

  lemma ElementSame(w: World, from: Start, k: Heap, b: Node, i: nat, fuel: nat)
    requires AllSame(w, from, k, fuel) && Reachable(w, from.nodes, b) && b.Elems? && i < b.count
    ensures SameElement(w, k, b.e, b.at, i, fuel)
  {
    hide Reachable, AllSame, Deep;
    ElementParts(w.img, w.heap, b.e, b.count, b.at);
    PartSame(w, from, k, b, Parts(w.img, w.heap, b)[i], fuel);
  }

  lemma ElementsSame(w: World, k: Heap, e: Entry, a: Addr, count: nat, fuel: nat)
    requires forall i: nat :: i < count ==> SameElement(w, k, e, a, i, fuel)
    ensures DeepElements(w.img, k, NULL_ORIGIN, e, a, count, fuel)
      == DeepElements(w.img, w.heap, NULL_ORIGIN, e, a, count, fuel)
  {
    hide Deep;
    var ts := DeepElements(w.img, k, NULL_ORIGIN, e, a, count, fuel);
    var us := DeepElements(w.img, w.heap, NULL_ORIGIN, e, a, count, fuel);
    forall i: nat | i < count
      ensures ts[i] == us[i]
    {
      assert SameElement(w, k, e, a, i, fuel);
    }
  }

  lemma EnvironmentSame(w: World, from: Start, k: Heap, a: Addr, fuel: nat)
    requires Intact(w, from, k) && AllSame(w, from, k, fuel) && Reachable(w, from.nodes, Object(Environments, a))
    ensures SameObject(w, k, Environments, a, fuel + 1)
  {
    hide Reachable, AllSame, At, Intact, Deep, EntryOf, WordsAt;
    var n, count := Object(Environments, a), Max0(At(w.heap, a));
    Known(w, from, k, n);
    CaptureParts(w.img, w.heap, a);
    SameWords(w, k, a + 2 + count, count);
    var ts := DeepCaptures(w.img, k, NULL_ORIGIN, a, count, fuel);
    var us := DeepCaptures(w.img, w.heap, NULL_ORIGIN, a, count, fuel);
    forall i | 0 <= i < count
      ensures ts[i] == us[i]
    {
      PartSame(w, from, k, n, Parts(w.img, w.heap, n)[i], fuel);
    }
    assert ts == us;
  }

  lemma ObjectSame(w: World, from: Start, k: Heap, t: Table, a: Addr, fuel: nat)
    requires Intact(w, from, k) && AllSame(w, from, k, fuel) && Reachable(w, from.nodes, Object(t, a))
    ensures SameObject(w, k, t, a, fuel + 1)
  {
    hide Intact, AllSame, Reachable, SameObject;
    match t
    case Records => RecordSame(w, from, k, a, fuel);
    case Arrays => ArrayObjectSame(w, from, k, a, fuel);
    case Environments => EnvironmentSame(w, from, k, a, fuel);
    case Boxes => BoxSame(w, from, k, t, a, fuel);
    case Newtypes => BoxSame(w, from, k, t, a, fuel);
  }

  // ----- slots and payloads ------------------------------------------------------------------

  lemma ReferenceSame(w: World, from: Start, k: Heap, n: Node, fuel: nat)
    requires Intact(w, from, k) && AllSame(w, from, k, fuel) && Reachable(w, from.nodes, n)
    requires n.Ref? || n.Handle? || n.Owned?
    ensures SameDeep(w, k, n, fuel + 1)
  {
    hide Reachable, AllSame, At, Intact, DeepData, ValidNode, DeepObject;
    Known(w, from, k, n);
    var p := At(w.heap, n.at);
    assert At(k, n.at) == p;
    match n
    case Ref(e, _) => if p > 0 { TargetSame(w, from, k, n, Value(e, p), fuel); }
    case Handle(t, _) => if p > 0 { TargetSame(w, from, k, n, Object(t, p), fuel); }
    case Owned(words, _) => if words > 0 { TargetSame(w, from, k, n, Blob(words, p), fuel); }
  }

  lemma SlotSame(w: World, from: Start, k: Heap, tag: nat, a: Addr, fuel: nat)
    requires Intact(w, from, k) && AllSame(w, from, k, fuel) && Reachable(w, from.nodes, Slot(tag, a))
    ensures SameDeep(w, k, Slot(tag, a), fuel + 1)
  {
    hide Reachable, AllSame, At, Intact, DeepData, DeepObject, Cells;
    Known(w, from, k, Slot(tag, a));
    var id := At(w.heap, a);
    assert At(k, a) == id;
    if tag != REGEXES {
      TargetSame(w, from, k, Slot(tag, a), PacketOf(tag, Cells(w.heap, tag)[id]), fuel);
    }
    assert DeepSlot(w.img, k, NULL_ORIGIN, tag, a, fuel) == DeepSlot(w.img, w.heap, NULL_ORIGIN, tag, a, fuel);
  }

  /** The words of a payload say where its slots are. */
  lemma PartsKept(w: World, k: Heap, tag: nat, words: nat, a: Addr)
    requires ValidPacket(w.heap, tag, words, a) && forall i :: a <= i < a + words ==> At(k, i) == At(w.heap, i)
    ensures PacketParts(w.img, k, tag, a) == PacketParts(w.img, w.heap, tag, a)
  {
    hide At, EntryOf;
    var ps, qs := PacketParts(w.img, k, tag, a), PacketParts(w.img, w.heap, tag, a);
    assert |ps| == |qs|;
    assert forall i :: 0 <= i < |ps| ==> ps[i] == qs[i];
  }

  lemma PacketSame(w: World, from: Start, k: Heap, tag: nat, words: nat, a: Addr, fuel: nat)
    requires Intact(w, from, k) && AllSame(w, from, k, fuel) && Reachable(w, from.nodes, Packet(tag, words, a))
    ensures SameDeep(w, k, Packet(tag, words, a), fuel + 1)
  {
    hide Reachable, AllSame, At, Intact, DeepContent, PacketParts, ValidPacket;
    var n := Packet(tag, words, a);
    Known(w, from, k, n);
    PartsKept(w, k, tag, words, a);
    var ws, vs := OwnWords(w.img, k, tag, words, a), OwnWords(w.img, w.heap, tag, words, a);
    assert ws == vs by { assert forall i :: 0 <= i < words ==> ws[i] == vs[i]; }
    MembersSame(w, from, k, tag, words, a, fuel);
  }

  lemma MembersSame(w: World, from: Start, k: Heap, tag: nat, words: nat, a: Addr, fuel: nat)
    requires Intact(w, from, k) && AllSame(w, from, k, fuel) && Reachable(w, from.nodes, Packet(tag, words, a))
    requires PacketParts(w.img, k, tag, a) == PacketParts(w.img, w.heap, tag, a)
    ensures DeepMembers(w.img, k, NULL_ORIGIN, tag, a, fuel) == DeepMembers(w.img, w.heap, NULL_ORIGIN, tag, a, fuel)
  {
    hide Reachable, AllSame, At, Intact, DeepContent, Deep, PacketParts;
    var n := Packet(tag, words, a);
    if tag == BLAMES {
      BlameSame(w, from, k, words, a, fuel);
    } else {
      var ts := DeepMembers(w.img, k, NULL_ORIGIN, tag, a, fuel);
      var us := DeepMembers(w.img, w.heap, NULL_ORIGIN, tag, a, fuel);
      forall i | 0 <= i < |ts|
        ensures ts[i] == us[i]
      {
        PartSame(w, from, k, n, PacketParts(w.img, w.heap, tag, a)[i], fuel);
      }
      assert ts == us;
    }
  }

  lemma BlameSame(w: World, from: Start, k: Heap, words: nat, a: Addr, fuel: nat)
    requires Intact(w, from, k) && AllSame(w, from, k, fuel) && Reachable(w, from.nodes, Packet(BLAMES, words, a))
    ensures DeepContent(k, a + 2) == DeepContent(w.heap, a + 2)
  {
    hide Reachable, AllSame, At, Intact, DeepContent, Deep;
    Known(w, from, k, Packet(BLAMES, words, a));
    if At(w.heap, a + 5) == CONTENT_SLICE {
      PartSame(w, from, k, Packet(BLAMES, words, a), Raw(a + 2), fuel);
      Known(w, from, k, Raw(a + 2));
    }
    ViewSame(w, k, a + 2);
  }

  lemma ValueSame(w: World, from: Start, k: Heap, e: Entry, a: Addr, fuel: nat)
    requires Intact(w, from, k) && AllSame(w, from, k, fuel) && Reachable(w, from.nodes, Value(e, a))
    ensures SameDeep(w, k, Value(e, a), fuel + 1)
  {
    hide Reachable, At, Intact, DeepData, WordsAt;
    Known(w, from, k, Value(e, a));
    SameWords(w, k, a, HEADER);
    if e.size == HEADER {
      NothingSame(w, k, e, a + HEADER, fuel);
    } else {
      PartSame(w, from, k, Value(e, a), Data(e, a + HEADER), fuel);
      assert SameData(w, k, e, a + HEADER, fuel);
    }
  }

  lemma NodeSame(w: World, from: Start, k: Heap, n: Node, fuel: nat)
    requires Intact(w, from, k) && AllSame(w, from, k, fuel) && Reachable(w, from.nodes, n)
    ensures SameDeep(w, k, n, fuel + 1)
  {
    hide Reachable, At, Intact, DeepData, DeepObject, DeepSlot, DeepMembers, OwnWords;
    match n
    case Value(e, a) => ValueSame(w, from, k, e, a, fuel);
    case Slot(tag, a) => SlotSame(w, from, k, tag, a, fuel);
    case Packet(tag, words, a) => PacketSame(w, from, k, tag, words, a, fuel);
    case Ref(_, _) => ReferenceSame(w, from, k, n, fuel);
    case Handle(_, _) => ReferenceSame(w, from, k, n, fuel);
    case Owned(_, _) => ReferenceSame(w, from, k, n, fuel);
    case Data(e, a) => assert SameData(w, k, e, a, fuel);
    case Object(t, a) => assert SameObject(w, k, t, a, fuel);
    case _ =>
  }

  /** Everything reachable unfolds as before, to every depth. */
  lemma {:induction false} ReachableSame(w: World, from: Start, k: Heap, fuel: nat)
    requires Intact(w, from, k)
    ensures AllSame(w, from, k, fuel)
    decreases fuel
  {
    hide Reachable, Intact, SameDeep, SameData, SameObject;
    if fuel == 0 {
      NothingUnfolded(w, k);
    } else {
      ReachableSame(w, from, k, fuel - 1);
      forall n | Reachable(w, from.nodes, n)
        ensures SameDeep(w, k, n, fuel)
        ensures n.Data? ==> SameData(w, k, n.e, n.at, fuel)
        ensures n.Object? ==> SameObject(w, k, n.table, n.at, fuel)
      {
        NodeSame(w, from, k, n, fuel - 1);
        if n.Data? {
          DataKnown(w, from, k, n.e, n.at, fuel - 1);
          DataSame(w, from, k, n.e, n.at, fuel - 1);
        }
        if n.Object? {
          ObjectSame(w, from, k, n.table, n.at, fuel - 1);
        }
      }
    }
  }

  lemma NothingUnfolded(w: World, k: Heap)
    ensures forall n :: SameDeep(w, k, n, 0)
    ensures forall e, a :: SameData(w, k, e, a, 0)
    ensures forall t, a :: SameObject(w, k, t, a, 0)
  {
  }

  // ----- roots -----------------------------------------------------------------------------

  lemma RootSame(w: World, from: Start, k: Heap, n: Node, fuel: nat)
    requires Intact(w, from, k) && Reachable(w, from.nodes, n)
    ensures SameTree(w, k, n, fuel)
  {
    hide Reachable, Intact, AllSame, Deep, EntryOf;
    ReachableSame(w, from, k, fuel);
    if n.Fields? {
      var fields := FieldsOf(n.e);
      FieldParts(w.img, w.heap, n.e, n.extent, n.at);
      forall i | 0 <= i < |fields|
        ensures SameDeep(w, k, Value(EntryOf(w.img, fields[i].ty), n.at + fields[i].offset), fuel)
      {
        PartSame(w, from, k, n, Parts(w.img, w.heap, n)[i], fuel);
      }
      FieldsSame(w, k, fields, n.at, fuel);
    } else if n.Elems? {
      forall i: nat | i < n.count
        ensures SameElement(w, k, n.e, n.at, i, fuel)
      {
        ElementSame(w, from, k, n, i, fuel);
      }
    } else {
      NodeUnfolded(w, from, k, n, fuel);
    }
  }

  lemma NodeUnfolded(w: World, from: Start, k: Heap, n: Node, fuel: nat)
    requires AllSame(w, from, k, fuel) && Reachable(w, from.nodes, n)
    ensures SameDeep(w, k, n, fuel)
  {
    hide Reachable, SameDeep, SameData, SameObject;
  }

  /** The law of retention. */
  lemma RetentionLaw(w: World, r: Roots, blocks: set<set<Addr>>, lost: set<Addr>, ids: set<(nat, int)>, k: Heap)
    requires Started(w, r) && Housed(w, blocks)
    requires Released(w, blocks, StartOf(w, r), lost) && AllListed(w, StartOf(w, r), ids) && Repeats(w, k, lost, ids)
    ensures Unharmed(w, r, k, lost)
  {
    hide WellTyped, Housed, Released, AllListed, Repeats, Reachable, Given, SameTree, StartNodes, Intact;
    var from := StartOf(w, r);
    AllIntact(w, blocks, from, lost, ids, k);
    forall a | Named(r, a)
      ensures a !in lost
    {
      NamedExactly(r, a);
      NotLost(w, blocks, from, lost, a);
    }
    forall n, fuel: nat | Given(w, r, n)
      ensures SameTree(w, k, n, fuel)
    {
      GivenExactly(w, r, n);
      ReachRoot(w, from.nodes, n);
      RootSame(w, from, k, n, fuel);
    }
  }
}
