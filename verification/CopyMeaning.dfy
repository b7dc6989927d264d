/** A finished copy preserves meaning: every link unfolds to the same tree in
    both heaps, to every depth, through shared and cyclic structure alike. */
module CopyMeaning {
  import opened HeapGraph
  import opened CopyRelation

  ghost predicate Complete(src: Source, c: Copy) {
    Typed(src.img, src.from, src.origin, src.ty) && Inv(src, c) && c.todo == {}
  }

  function DeepOld(src: Source, n: Node, fuel: nat): Tree {
    Deep(src.img, src.from, src.origin, n, fuel)
  }

  function DeepNew(src: Source, c: Copy, n: Node, fuel: nat): Tree {
    Deep(src.img, c.heap, src.origin, n, fuel)
  }

  ghost predicate Linked(c: Copy, n: Node, at: Addr) {
    Link(n, at) in c.links
  }

  lemma NodeFits(src: Source, c: Copy, n: Node, at: Addr)
    requires Complete(src, c) && Linked(c, n, at)
    ensures ValidNode(src.img, src.from, n)
    ensures Packed(src.from, Parts(src.img, src.from, n), n.at, n.at + Size(src.from, n))
  {
    hide ValidNode, Packed, Parts, Size, PartsTyped, TargetsTyped, AllDone, TodoFresh, TodoApart, Present, RawsDone,
         StaticRaws;
    var l := Link(n, at);
    assert l in c.links;
  }

  /** The part of a plain node at position `i` is linked in place. */
  lemma PartLinked(src: Source, c: Copy, n: Node, at: Addr, i: nat)
    requires Complete(src, c) && Linked(c, n, at) && !IsSlot(n) && !IsArray(n)
    requires i < |Parts(src.img, src.from, n)|
    ensures var p := Parts(src.img, src.from, n)[i]; Linked(c, p, at + (p.at - n.at))
  {
    hide Parts, Size, At, Typed, SlotDone, ArrayDone, TodoApart, TodoFresh, Present, RawsDone, StaticRaws;
    var l := Link(n, at);
    assert PlainDone(src, c, l);
    assert PartLink(l, PartsOf(src, l)[i]) in c.links;
  }

  /** A word of a plain node outside all of its parts is unchanged. */
  lemma WordKept(src: Source, c: Copy, n: Node, at: Addr, k: nat)
    requires Complete(src, c) && Linked(c, n, at) && !IsSlot(n) && !IsArray(n)
    requires k < Size(src.from, n)
    requires forall p :: p in Parts(src.img, src.from, n) ==>
      !(p.at <= n.at + k < p.at + Size(src.from, p))
    ensures At(c.heap, at + k) == At(src.from, n.at + k)
  {
    hide Parts, Size, At, Typed, SlotDone, ArrayDone, TodoApart, TodoFresh, Present, RawsDone, StaticRaws;
    var l := Link(n, at);
    assert PlainDone(src, c, l);
    forall i | 0 <= i < |PartsOf(src, l)|
      ensures !Covers(src, PartLink(l, PartsOf(src, l)[i]), at + k)
    {
      assert PartsOf(src, l)[i] in Parts(src.img, src.from, n);
    }
    assert Owns(src, l, at + k);
  }

  lemma SlotKept(src: Source, c: Copy, n: Node, at: Addr)
    requires Complete(src, c) && Linked(c, n, at) && (n.Ref? || n.Handle?)
    ensures At(src.from, n.at) < src.origin ==> At(c.heap, at) == At(src.from, n.at)
    ensures forall t :: t in Target(src.from, src.origin, n) ==> Linked(c, t, At(c.heap, at))
  {
    hide Parts, Size, At, Typed, ArrayDone, TodoApart, TodoFresh, Present, RawsDone, StaticRaws;
    assert SlotDone(src, c, Link(n, at));
  }

  // ----- meaning, by induction on depth -------------------------------------

  lemma {:induction false} SameNode(src: Source, c: Copy, n: Node, at: Addr, fuel: nat)
    requires Complete(src, c) && Linked(c, n, at)
    ensures DeepOld(src, n, fuel) == DeepNew(src, c, Moved(n, at), fuel)
    decreases fuel, 2
  {
    hide At, DeepData, DeepObject, DeepSlot, DeepMembers, OwnWords, Complete, WordsAt;
    if fuel > 0 {
      match n
      case Value(e, a) =>
        SameHeader(src, c, e, a, at);
        ValueShape(src, e, a);
        if e.size == HEADER {
          NodeFits(src, c, n, at);
          SameUnit(src, c, e, a + HEADER, at + HEADER, fuel - 1);
        } else {
          PartLinked(src, c, n, at, 0);
          SameData(src, c, e, a + HEADER, at + HEADER, fuel - 1);
        }
      case Data(e, a) => SameData(src, c, e, a, at, fuel - 1);
      case Ref(e, a) => SameReference(src, c, n, at, fuel);
      case Handle(t, a) => SameReference(src, c, n, at, fuel);
      case Object(t, a) => SameObject(src, c, t, a, at, fuel - 1);
      case Fields(_, _, _) =>
      case Elems(_, _, _) =>
      case Raw(_) =>
      case Slot(tag, a) => SameSlot(src, c, tag, a, at, fuel - 1);
      case Owned(words, a) => SameBelongings(src, c, words, a, at, fuel);
      case Packet(tag, words, a) => SamePacket(src, c, tag, words, a, at, fuel - 1);
    }
  }

  lemma SameUnit(src: Source, c: Copy, e: Entry, a: Addr, b: Addr, fuel: nat)
    requires e.size == HEADER && e.layout.Scalar?
    ensures DeepData(src.img, src.from, src.origin, e, a, fuel) == DeepData(src.img, c.heap, src.origin, e, b, fuel)
  {
  }

  lemma ValueShape(src: Source, e: Entry, a: Addr)
    ensures Size(src.from, Value(e, a)) == e.size
    ensures Parts(src.img, src.from, Value(e, a)) == if e.size == 2 then [] else [Data(e, a + 2)]
    ensures ValidNode(src.img, src.from, Value(e, a)) ==> e.size >= 2 && NoData(e)
  {
  }

  lemma SameHeader(src: Source, c: Copy, e: Entry, a: Addr, at: Addr)
    requires Complete(src, c) && Linked(c, Value(e, a), at)
    ensures WordsAt(src.from, a, HEADER) == WordsAt(c.heap, at, HEADER)
  {
    hide At, Complete, Size, Parts, Linked, Packed, ValidNode;
    NodeFits(src, c, Value(e, a), at);
    ValueShape(src, e, a);
    WordKept(src, c, Value(e, a), at, 0);
    WordKept(src, c, Value(e, a), at, 1);
  }

  /** The referenced node, when the reference is not static. */
  function Referent(src: Source, n: Node): Node
    requires n.Ref? || n.Handle?
  {
    if n.Ref? then Value(n.e, At(src.from, n.at)) else Object(n.table, At(src.from, n.at))
  }

  lemma ReferentLinked(src: Source, c: Copy, n: Node, at: Addr)
    requires Complete(src, c) && Linked(c, n, at) && (n.Ref? || n.Handle?) && At(src.from, n.at) >= src.origin
    ensures Linked(c, Referent(src, n), At(c.heap, at)) && At(c.heap, at) >= src.origin
  {
    hide At, Typed, AllDone, TodoApart, TodoFresh, Present, RawsDone, StaticRaws;
    SlotKept(src, c, n, at);
    assert Referent(src, n) in Target(src.from, src.origin, n);
  }

  lemma {:induction false} SameReference(src: Source, c: Copy, n: Node, at: Addr, fuel: nat)
    requires Complete(src, c) && Linked(c, n, at) && (n.Ref? || n.Handle?) && fuel > 0
    ensures DeepOld(src, n, fuel) == DeepNew(src, c, Moved(n, at), fuel)
    decreases fuel, 0
  {
    hide At, Complete, DeepObject, DeepData, Linked;
    SlotKept(src, c, n, at);
    var p, q := At(src.from, n.at), At(c.heap, at);
    if p >= src.origin {
      ReferentLinked(src, c, n, at);
      if n.Ref? {
        SameNode(src, c, Value(n.e, p), q, fuel - 1);
      } else {
        SameObject(src, c, n.table, p, q, fuel - 1);
      }
    }
  }

  lemma NotNull(src: Source, c: Copy, n: Node, at: Addr)
    requires Complete(src, c) && Linked(c, n, at) && (n.Ref? || n.Handle?) && At(src.from, n.at) != 0
    ensures At(c.heap, at) != 0
  {
    hide At, Linked, Inv, NodesFit, PartsTyped, TargetsTyped;
    SlotKept(src, c, n, at);
    if At(src.from, n.at) >= src.origin {
      ReferentLinked(src, c, n, at);
    }
  }

  // ----- data, layout by layout ---------------------------------------------

  ghost predicate DataLinked(src: Source, c: Copy, e: Entry, a: Addr, b: Addr) {
    Complete(src, c) && Linked(c, Data(e, a), b)
  }

  /** Words before the first part, or of data without parts, are unchanged. */
  lemma DataWord(src: Source, c: Copy, e: Entry, a: Addr, b: Addr, k: nat)
    requires DataLinked(src, c, e, a, b) && k + HEADER < e.size
    requires forall p :: p in DataParts(src.img, src.from, e, a) ==> p.at > a + k || p.at + Size(src.from, p) <= a + k
    ensures At(c.heap, b + k) == At(src.from, a + k)
  {
    hide DataParts, At, Complete;
    WordKept(src, c, Data(e, a), b, k);
  }

  lemma DataPart(src: Source, c: Copy, e: Entry, a: Addr, b: Addr, i: nat)
    requires DataLinked(src, c, e, a, b) && i < |DataParts(src.img, src.from, e, a)|
    ensures var p := DataParts(src.img, src.from, e, a)[i]; Linked(c, p, b + (p.at - a))
  {
    hide DataParts, At, Complete;
    PartLinked(src, c, Data(e, a), b, i);
  }

  /** Data with a single part: the part is linked, the words before it are kept. */
  lemma OnePart(src: Source, c: Copy, e: Entry, a: Addr, b: Addr, p: Node, k: nat)
    requires DataLinked(src, c, e, a, b) && DataParts(src.img, src.from, e, a) == [p] && k < p.at - a
    requires k < e.size - HEADER
    ensures Linked(c, p, b + (p.at - a))
    ensures At(c.heap, b + k) == At(src.from, a + k)
  {
    hide DataParts, At, DataLinked, Linked, Size;
    DataWord(src, c, e, a, b, k);
    DataPart(src, c, e, a, b, 0);
  }

  lemma DataValid(src: Source, c: Copy, e: Entry, a: Addr, b: Addr)
    requires DataLinked(src, c, e, a, b)
    ensures e.size >= HEADER && ValidData(src.img, src.from, e, a)
  {
    hide ValidData, At, Parts, Size, Complete, Packed;
    NodeFits(src, c, Data(e, a), b);
  }

  lemma DataSize(src: Source, c: Copy, e: Entry, a: Addr, b: Addr)
    requires DataLinked(src, c, e, a, b)
    ensures e.layout.Content? || e.layout.Array? || e.layout.Dict? ==> e.size == HEADER + 4
    ensures e.layout.Function? ==> e.size == HEADER + 2
    ensures e.layout.Dyn? ==> e.size == HEADER + 6
    ensures e.layout.Enum? ==> e.size >= HEADER + 2 && 0 <= At(src.from, a) < |e.layout.variants|
  {
    hide DataLinked, At;
    DataValid(src, c, e, a, b);
  }

  lemma SameWords(src: Source, c: Copy, a: Addr, b: Addr, n: nat)
    requires forall k :: 0 <= k < n ==> WordsAt(src.from, a, n)[k] == WordsAt(c.heap, b, n)[k]
    ensures WordsAt(src.from, a, n) == WordsAt(c.heap, b, n)
  {
  }

  lemma SameScalar(src: Source, c: Copy, e: Entry, a: Addr, b: Addr)
    requires DataLinked(src, c, e, a, b) && e.layout.Scalar?
    ensures WordsAt(src.from, a, Max0(e.size - HEADER)) == WordsAt(c.heap, b, Max0(e.size - HEADER))
  {
    hide At, DataLinked, WordsAt;
    var n := Max0(e.size - HEADER);
    forall k | 0 <= k < n
      ensures WordsAt(src.from, a, n)[k] == WordsAt(c.heap, b, n)[k]
    {
      DataWord(src, c, e, a, b, k);
    }
    SameWords(src, c, a, b, n);
  }

  lemma SameContent(src: Source, c: Copy, e: Entry, a: Addr, b: Addr)
    requires DataLinked(src, c, e, a, b) && e.layout.Content?
    ensures DeepContent(src.from, a) == DeepContent(c.heap, b)
  {
    hide At, Complete, DeepContent;
    DataSize(src, c, e, a, b);
    DataWord(src, c, e, a, b, 1);
    DataWord(src, c, e, a, b, 2);
    DataWord(src, c, e, a, b, 3);
    if At(src.from, a + 3) != CONTENT_SLICE {
      DataWord(src, c, e, a, b, 0);
    } else {
      ContentShape(src, e, a);
      DataPart(src, c, e, a, b, 0);
    }
    SameView(src, c, a, b);
  }

  /** A byte view shows the same bytes wherever it lies. */
  lemma SameView(src: Source, c: Copy, a: Addr, b: Addr)
    requires Complete(src, c)
    requires At(c.heap, b + 1) == At(src.from, a + 1) && At(c.heap, b + 2) == At(src.from, a + 2)
    requires At(c.heap, b + 3) == At(src.from, a + 3)
    requires if At(src.from, a + 3) == CONTENT_SLICE then Linked(c, Raw(a), b) else At(c.heap, b) == At(src.from, a)
    ensures DeepContent(src.from, a) == DeepContent(c.heap, b)
  {
    hide At, Complete, Linked;
    if At(src.from, a + 3) != CONTENT_SLICE {
      assert WordsAt(src.from, a, 4) == WordsAt(c.heap, b, 4);
    } else {
      SameRaw(src, c, a, b);
    }
  }

  lemma SameRaw(src: Source, c: Copy, a: Addr, b: Addr)
    requires Complete(src, c) && Linked(c, Raw(a), b)
    ensures var p, q := At(src.from, a), At(c.heap, b);
      && p in src.from.raws && q in c.heap.raws
      && 0 <= At(src.from, a + 1) <= At(src.from, a + 2) <= |src.from.raws[p].bytes|
      && At(src.from, a + 2) <= |c.heap.raws[q].bytes|
      && src.from.raws[p].bytes[At(src.from, a + 1)..At(src.from, a + 2)]
           == c.heap.raws[q].bytes[At(src.from, a + 1)..At(src.from, a + 2)]
  {
    hide At, Complete, Linked;
    RawKept(src, c, a, b);
    var raw := src.from.raws[At(src.from, a)];
    SliceOfPrefix(raw.bytes, c.heap.raws[At(c.heap, b)].bytes, raw.len, At(src.from, a + 1), At(src.from, a + 2));
  }

  lemma ContentShape(src: Source, e: Entry, a: Addr)
    requires e.layout.Content? && At(src.from, a + 3) == CONTENT_SLICE
    ensures DataParts(src.img, src.from, e, a) == [Raw(a)]
  {
    hide At;
  }

  lemma RawKept(src: Source, c: Copy, a: Addr, b: Addr)
    requires Complete(src, c) && Linked(c, Raw(a), b)
    ensures var p, q := At(src.from, a), At(c.heap, b);
      && p in src.from.raws && q in c.heap.raws
      && 0 <= At(src.from, a + 1) <= At(src.from, a + 2) <= src.from.raws[p].len
      && src.from.raws[p].len <= |src.from.raws[p].bytes|
      && src.from.raws[p].len <= |c.heap.raws[q].bytes|
      && src.from.raws[p].bytes[..src.from.raws[p].len] == c.heap.raws[q].bytes[..src.from.raws[p].len]
  {
    hide At, Packed, Parts, Size, Typed, TodoApart, TodoFresh, Present, PlainDone, ArrayDone;
    NodeFits(src, c, Raw(a), b);
    assert Done(src, c, Link(Raw(a), b));
    assert SlotDone(src, c, Link(Raw(a), b));
  }

  lemma SliceOfPrefix(s: seq<int>, t: seq<int>, n: nat, lo: nat, hi: nat)
    requires lo <= hi <= n <= |s| && n <= |t| && s[..n] == t[..n]
    ensures s[lo..hi] == t[lo..hi]
  {
    assert s[lo..hi] == s[..n][lo..hi] && t[lo..hi] == t[..n][lo..hi];
  }

  ghost predicate FieldLinked(src: Source, c: Copy, f: Field, a: Addr, b: Addr) {
    Linked(c, Value(EntryOf(src.img, f.ty), a + f.offset), b + f.offset)
  }

  ghost predicate FieldsLinked(src: Source, c: Copy, fields: seq<Field>, a: Addr, b: Addr) {
    forall i :: 0 <= i < |fields| ==> FieldLinked(src, c, fields[i], a, b)
  }

  lemma {:induction false} SameFields(src: Source, c: Copy, fields: seq<Field>, a: Addr, b: Addr, fuel: nat)
    requires Complete(src, c) && FieldsLinked(src, c, fields, a, b)
    ensures DeepFields(src.img, src.from, src.origin, fields, a, fuel)
         == DeepFields(src.img, c.heap, src.origin, fields, b, fuel)
    decreases fuel, 3
  {
    hide At, Complete, Deep, DeepFields;
    forall i | 0 <= i < |fields|
      ensures DeepFields(src.img, src.from, src.origin, fields, a, fuel)[i]
           == DeepFields(src.img, c.heap, src.origin, fields, b, fuel)[i]
    {
      assert FieldLinked(src, c, fields[i], a, b);
      SameNode(src, c, Value(EntryOf(src.img, fields[i].ty), a + fields[i].offset), b + fields[i].offset, fuel);
    }
  }

  lemma {:induction false} SameInline(src: Source, c: Copy, e: Entry, a: Addr, b: Addr, fuel: nat)
    requires DataLinked(src, c, e, a, b) && e.layout.InlineRecord?
    ensures DeepFields(src.img, src.from, src.origin, e.layout.fields, a + 2, fuel)
         == DeepFields(src.img, c.heap, src.origin, e.layout.fields, b + 2, fuel)
    decreases fuel, 4
  {
    hide At, Deep, DeepFields, Complete;
    var fields := e.layout.fields;
    forall i | 0 <= i < |fields|
      ensures FieldLinked(src, c, fields[i], a + 2, b + 2)
    {
      DataPart(src, c, e, a, b, i);
    }
    SameFields(src, c, fields, a + 2, b + 2, fuel);
  }

  /** Arrays and dicts hold references in single words at known places. */
  lemma ReferenceWords(src: Source, e: Entry, a: Addr)
    requires e.layout.Array? || e.layout.Dict?
    ensures forall p :: p in DataParts(src.img, src.from, e, a) ==>
      Size(src.from, p) == 1 && (p.at == a || (e.layout.Dict? && p.at == a + 2))
    ensures e.layout.Dict? ==> DataParts(src.img, src.from, e, a) == [Handle(Arrays, a), Handle(Arrays, a + 2)]
    ensures e.layout.Array? && At(src.from, a + 3) == ARRAY_SINGLE ==>
      DataParts(src.img, src.from, e, a) == [Ref(EntryOf(src.img, e.layout.elem), a)]
    ensures e.layout.Array? && At(src.from, a + 3) == ARRAY_SLICE ==>
      DataParts(src.img, src.from, e, a) == [Handle(Arrays, a)]
  {
    hide At, EntryOf;
  }

  lemma ArrayWords(src: Source, c: Copy, e: Entry, a: Addr, b: Addr)
    requires DataLinked(src, c, e, a, b) && e.layout.Array?
    ensures At(src.from, a + 1) == At(c.heap, b + 1) && At(src.from, a + 2) == At(c.heap, b + 2)
    ensures At(src.from, a + 3) == At(c.heap, b + 3)
  {
    hide At, DataLinked, EntryOf, DataParts, Size;
    DataSize(src, c, e, a, b);
    ReferenceWords(src, e, a);
    DataWord(src, c, e, a, b, 1);
    DataWord(src, c, e, a, b, 2);
    DataWord(src, c, e, a, b, 3);
  }

  lemma ArrayReference(src: Source, c: Copy, e: Entry, a: Addr, b: Addr)
    requires DataLinked(src, c, e, a, b) && e.layout.Array?
    ensures At(src.from, a + 3) == ARRAY_SINGLE ==> Linked(c, Ref(EntryOf(src.img, e.layout.elem), a), b)
    ensures At(src.from, a + 3) == ARRAY_SLICE ==> Linked(c, Handle(Arrays, a), b)
  {
    hide At, DataLinked, EntryOf, DataParts, Linked, Size;
    ReferenceWords(src, e, a);
    if At(src.from, a + 3) == ARRAY_SINGLE || At(src.from, a + 3) == ARRAY_SLICE {
      DataPart(src, c, e, a, b, 0);
    }
  }

  lemma {:induction false} SameArray(src: Source, c: Copy, e: Entry, a: Addr, b: Addr, fuel: nat)
    requires DataLinked(src, c, e, a, b) && e.layout.Array?
    ensures DeepArray(src.img, src.from, src.origin, e.layout.elem, a, fuel)
         == DeepArray(src.img, c.heap, src.origin, e.layout.elem, b, fuel)
    decreases fuel, 4
  {
    hide At, Deep, Complete, EntryOf, Linked;
    ArrayWords(src, c, e, a, b);
    ArrayReference(src, c, e, a, b);
    if At(src.from, a + 3) == ARRAY_SINGLE {
      SameNode(src, c, Ref(EntryOf(src.img, e.layout.elem), a), b, fuel);
    } else if At(src.from, a + 3) == ARRAY_SLICE {
      SameNode(src, c, Handle(Arrays, a), b, fuel);
    }
  }

  lemma KeptDict(src: Source, c: Copy, e: Entry, a: Addr, b: Addr)
    requires DataLinked(src, c, e, a, b) && e.layout.Dict?
    ensures At(src.from, a + 1) == At(c.heap, b + 1)
    ensures Linked(c, Handle(Arrays, a), b) && Linked(c, Handle(Arrays, a + 2), b + 2)
  {
    hide At, DataLinked, DataParts, Size, Linked;
    DataSize(src, c, e, a, b);
    ReferenceWords(src, e, a);
    DataWord(src, c, e, a, b, 1);
    DataPart(src, c, e, a, b, 0);
    DataPart(src, c, e, a, b, 1);
  }

  lemma {:induction false} SameDict(src: Source, c: Copy, e: Entry, a: Addr, b: Addr, fuel: nat)
    requires DataLinked(src, c, e, a, b) && e.layout.Dict?
    ensures At(src.from, a + 1) == At(c.heap, b + 1)
    ensures DeepOld(src, Handle(Arrays, a), fuel) == DeepNew(src, c, Handle(Arrays, b), fuel)
    ensures DeepOld(src, Handle(Arrays, a + 2), fuel) == DeepNew(src, c, Handle(Arrays, b + 2), fuel)
    decreases fuel, 4
  {
    hide At, Deep, Complete, Linked;
    KeptDict(src, c, e, a, b);
    SameNode(src, c, Handle(Arrays, a), b, fuel);
    SameNode(src, c, Handle(Arrays, a + 2), b + 2, fuel);
  }

  /** The payload of an enum value as the scanner sees it. */
  function PayloadOf(src: Source, variants: seq<Variant>, a: Addr): seq<Node>
    requires 0 <= At(src.from, a) < |variants|
  {
    var v := variants[At(src.from, a)];
    if v.Nullary? then []
    else if v.boxed then [Handle(Boxes, a + 2)]
    else [Value(EntryOf(src.img, v.ty), a + 2)]
  }

  lemma EnumShape(src: Source, e: Entry, a: Addr)
    requires e.layout.Enum? && 0 <= At(src.from, a) < |e.layout.variants|
    ensures var ps := PayloadOf(src, e.layout.variants, a);
      DataParts(src.img, src.from, e, a) == ps && (ps != [] ==> ps == [ps[0]] && ps[0].at == a + 2)
  {
    hide At, EntryOf;
  }

  lemma KeptEnum(src: Source, c: Copy, e: Entry, a: Addr, b: Addr)
    requires DataLinked(src, c, e, a, b) && e.layout.Enum?
    ensures At(src.from, a) == At(c.heap, b) && 0 <= At(src.from, a) < |e.layout.variants|
    ensures var ps := PayloadOf(src, e.layout.variants, a); ps != [] ==> Linked(c, ps[0], b + 2)
  {
    hide At, DataLinked, EntryOf, ValidData, Linked, Size, DataParts, PayloadOf;
    DataSize(src, c, e, a, b);
    var ps := PayloadOf(src, e.layout.variants, a);
    EnumShape(src, e, a);
    if ps == [] {
      DataWord(src, c, e, a, b, 0);
    } else {
      OnePart(src, c, e, a, b, ps[0], 0);
    }
  }

  lemma {:induction false} SameEnum(src: Source, c: Copy, e: Entry, a: Addr, b: Addr, fuel: nat)
    requires DataLinked(src, c, e, a, b) && e.layout.Enum?
    ensures DeepEnum(src.img, src.from, src.origin, e.layout.variants, a, fuel)
         == DeepEnum(src.img, c.heap, src.origin, e.layout.variants, b, fuel)
    decreases fuel, 4
  {
    hide At, Deep, Complete, EntryOf, Linked, DataParts, ValidData;
    KeptEnum(src, c, e, a, b);
    var ps := PayloadOf(src, e.layout.variants, a);
    if ps != [] {
      SameNode(src, c, ps[0], b + 2, fuel);
    }
  }

  function DynPayload(src: Source, a: Addr): Node {
    if At(src.from, a + 1) == 1 then Handle(Boxes, a + 2) else Data(EntryOf(src.img, At(src.from, a)), a + 2)
  }

  lemma DynShape(src: Source, e: Entry, a: Addr)
    requires e.layout.Dyn?
    ensures DynPayload(src, a).at == a + 2
    ensures DataParts(src.img, src.from, e, a) ==
      if At(src.from, a + 1) != 1 && DynPayload(src, a).e.size == HEADER then [] else [DynPayload(src, a)]
  {
    hide At, EntryOf;
  }

  lemma KeptDyn(src: Source, c: Copy, e: Entry, a: Addr, b: Addr)
    requires DataLinked(src, c, e, a, b) && e.layout.Dyn?
    ensures At(src.from, a) == At(c.heap, b) && At(src.from, a + 1) == At(c.heap, b + 1)
    ensures (DynPayload(src, a).Data? && DynPayload(src, a).e.size == HEADER) || Linked(c, DynPayload(src, a), b + 2)
  {
    hide At, DataLinked, EntryOf, ValidData, Linked, Size, DataParts;
    DataSize(src, c, e, a, b);
    DynShape(src, e, a);
    if DataParts(src.img, src.from, e, a) == [] {
      DataWord(src, c, e, a, b, 0);
      DataWord(src, c, e, a, b, 1);
    } else {
      OnePart(src, c, e, a, b, DynPayload(src, a), 0);
      OnePart(src, c, e, a, b, DynPayload(src, a), 1);
    }
  }

  lemma DynUnit(src: Source, c: Copy, e: Entry, a: Addr, b: Addr)
    requires DataLinked(src, c, e, a, b) && e.layout.Dyn?
    ensures DynPayload(src, a).Data? ==> NoData(DynPayload(src, a).e)
  {
    hide At, DataLinked, EntryOf;
    DataValid(src, c, e, a, b);
  }

  lemma SameUnitNode(src: Source, c: Copy, e: Entry, a: Addr, b: Addr, fuel: nat)
    requires e.size == HEADER && e.layout.Scalar?
    ensures DeepOld(src, Data(e, a), fuel) == DeepNew(src, c, Data(e, b), fuel)
  {
    hide At;
    if fuel > 0 {
      SameUnit(src, c, e, a, b, fuel - 1);
    }
  }

  lemma {:induction false} SameDyn(src: Source, c: Copy, e: Entry, a: Addr, b: Addr, fuel: nat)
    requires DataLinked(src, c, e, a, b) && e.layout.Dyn?
    ensures DeepDyn(src.img, src.from, src.origin, a, fuel) == DeepDyn(src.img, c.heap, src.origin, b, fuel)
    decreases fuel, 4
  {
    hide At, Deep, Complete, EntryOf, Linked, DataParts, ValidData;
    KeptDyn(src, c, e, a, b);
    DynUnit(src, c, e, a, b);
    if DynPayload(src, a).Data? && DynPayload(src, a).e.size == HEADER {
      SameUnitNode(src, c, DynPayload(src, a).e, a + 2, b + 2, fuel);
    } else {
      SameNode(src, c, DynPayload(src, a), b + 2, fuel);
    }
  }

  lemma FunctionShape(src: Source, e: Entry, a: Addr)
    requires e.layout.Function?
    ensures DataParts(src.img, src.from, e, a) == if At(src.from, a + 1) == 0 then [] else [Handle(Environments, a + 1)]
  {
    hide At, EntryOf;
  }

  lemma DataComplete(src: Source, c: Copy, e: Entry, a: Addr, b: Addr)
    requires DataLinked(src, c, e, a, b)
    ensures Complete(src, c)
  {
    hide Complete;
  }

  lemma KeptFunction(src: Source, c: Copy, e: Entry, a: Addr, b: Addr)
    requires DataLinked(src, c, e, a, b) && e.layout.Function?
    ensures At(src.from, a) == At(c.heap, b)
    ensures At(src.from, a + 1) == 0 <==> At(c.heap, b + 1) == 0
    ensures At(src.from, a + 1) != 0 ==> Linked(c, Handle(Environments, a + 1), b + 1)
  {
    hide At, DataLinked, Complete, ValidData, Linked, Size, DataParts;
    DataSize(src, c, e, a, b);
    var env := Handle(Environments, a + 1);
    FunctionShape(src, e, a);
    DataComplete(src, c, e, a, b);
    if At(src.from, a + 1) == 0 {
      DataWord(src, c, e, a, b, 0);
      DataWord(src, c, e, a, b, 1);
    } else {
      OnePart(src, c, e, a, b, env, 0);
      NotNull(src, c, env, b + 1);
    }
  }

  lemma {:induction false} SameFunction(src: Source, c: Copy, e: Entry, a: Addr, b: Addr, fuel: nat)
    requires DataLinked(src, c, e, a, b) && e.layout.Function?
    ensures DeepFunction(src.img, src.from, src.origin, a, fuel) == DeepFunction(src.img, c.heap, src.origin, b, fuel)
    decreases fuel, 4
  {
    hide At, Deep, Complete, Linked;
    KeptFunction(src, c, e, a, b);
    if At(src.from, a + 1) != 0 {
      SameNode(src, c, Handle(Environments, a + 1), b + 1, fuel);
    }
  }

  lemma {:induction false} SameHandle(src: Source, c: Copy, e: Entry, a: Addr, b: Addr, fuel: nat)
    requires DataLinked(src, c, e, a, b) && (e.layout.Record? || e.layout.Newtype?)
    ensures var t := if e.layout.Record? then Records else Newtypes;
      DeepOld(src, Handle(t, a), fuel) == DeepNew(src, c, Handle(t, b), fuel)
    decreases fuel, 4
  {
    hide At, Deep, Complete;
    DataPart(src, c, e, a, b, 0);
    SameNode(src, c, DataParts(src.img, src.from, e, a)[0], b, fuel);
  }

  lemma {:induction false} SameData(src: Source, c: Copy, e: Entry, a: Addr, b: Addr, fuel: nat)
    requires Complete(src, c) && Linked(c, Data(e, a), b)
    ensures DeepData(src.img, src.from, src.origin, e, a, fuel) == DeepData(src.img, c.heap, src.origin, e, b, fuel)
    decreases fuel, 1
  {
    hide At, Deep, WordsAt, DeepContent, DeepFields, DeepArray, DeepEnum, DeepDyn, DeepFunction, Complete;
    assert DataLinked(src, c, e, a, b);
    if fuel > 0 {
      match e.layout
      case Scalar => SameScalar(src, c, e, a, b);
      case CompileTime =>
      case Content => SameContent(src, c, e, a, b);
      case Record(_) => SameHandle(src, c, e, a, b, fuel - 1);
      case InlineRecord(_) => SameInline(src, c, e, a, b, fuel - 1);
      case Array(_) => SameArray(src, c, e, a, b, fuel - 1);
      case Dict(_, _) => SameDict(src, c, e, a, b, fuel - 1);
      case Enum(_) => SameEnum(src, c, e, a, b, fuel - 1);
      case Dyn => SameDyn(src, c, e, a, b, fuel - 1);
      case Function => SameFunction(src, c, e, a, b, fuel - 1);
      case Newtype(_) => SameHandle(src, c, e, a, b, fuel - 1);
      case Resource(_) => SameResource(src, c, e, a, b, fuel - 1);
    }
  }

  // ----- resources ------------------------------------------------------------

  lemma {:induction false} SameResource(src: Source, c: Copy, e: Entry, a: Addr, b: Addr, fuel: nat)
    requires DataLinked(src, c, e, a, b) && e.layout.Resource?
    ensures DeepOld(src, Slot(e.layout.tag, a), fuel) == DeepNew(src, c, Slot(e.layout.tag, b), fuel)
    decreases fuel, 4
  {
    hide At, Deep, Complete;
    DataPart(src, c, e, a, b, 0);
    SameNode(src, c, Slot(e.layout.tag, a), b, fuel);
  }

  /** The new slot holds the resource that the old one held. */
  lemma KeptSlot(src: Source, c: Copy, tag: nat, a: Addr, b: Addr)
    requires Complete(src, c) && Linked(c, Slot(tag, a), b)
    ensures HasCell(src.from, tag, At(src.from, a)) && HasCell(c.heap, tag, At(c.heap, b))
    ensures CellDone(src, c, tag, Cells(src.from, tag)[At(src.from, a)], Cells(c.heap, tag)[At(c.heap, b)])
  {
    hide At, Typed, TodoApart, TodoFresh, Present, PlainDone, ArrayDone, RawsDone, StaticRaws, CellDone, Cells;
    assert Done(src, c, Link(Slot(tag, a), b));
    assert SlotDone(src, c, Link(Slot(tag, a), b));
  }

  lemma {:induction false} SameSlot(src: Source, c: Copy, tag: nat, a: Addr, b: Addr, fuel: nat)
    requires Complete(src, c) && Linked(c, Slot(tag, a), b)
    ensures DeepSlot(src.img, src.from, src.origin, tag, a, fuel) == DeepSlot(src.img, c.heap, src.origin, tag, b, fuel)
    decreases fuel, 4
  {
    hide At, Complete, Deep, Cells;
    KeptSlot(src, c, tag, a, b);
    var was, now := Cells(src.from, tag)[At(src.from, a)], Cells(c.heap, tag)[At(c.heap, b)];
    if tag != REGEXES {
      SameNode(src, c, PacketOf(tag, was), now.payload, fuel);
    }
  }

  /** Storage that belongs to one slot alone is copied with it. */
  lemma {:induction false} SameBelongings(src: Source, c: Copy, words: nat, a: Addr, b: Addr, fuel: nat)
    requires Complete(src, c) && Linked(c, Owned(words, a), b) && fuel > 0
    ensures DeepOld(src, Owned(words, a), fuel) == DeepNew(src, c, Owned(words, b), fuel)
    decreases fuel, 1
  {
    hide At, Complete, DeepData, Linked;
    if words > 0 {
      OwnedKept(src, c, words, a, b);
      SameNode(src, c, Blob(words, At(src.from, a)), At(c.heap, b), fuel - 1);
    }
  }

  lemma OwnedKept(src: Source, c: Copy, words: nat, a: Addr, b: Addr)
    requires Complete(src, c) && Linked(c, Owned(words, a), b) && words > 0
    ensures Linked(c, Blob(words, At(src.from, a)), At(c.heap, b))
  {
    hide At, Typed, TodoApart, TodoFresh, Present, PlainDone, ArrayDone, RawsDone, StaticRaws;
    assert Done(src, c, Link(Owned(words, a), b));
    assert SlotDone(src, c, Link(Owned(words, a), b));
  }

  /** The parts of a payload are slots, so they take up one word each. */
  lemma PacketSlots(img: Image, h: Heap, tag: nat, a: Addr)
    ensures forall i :: 0 <= i < |PacketParts(img, h, tag, a)| ==>
      IsSlot(PacketParts(img, h, tag, a)[i]) && Size(h, PacketParts(img, h, tag, a)[i]) == 1
  {
    hide At, EntryOf;
  }

  ghost predicate PacketLinked(src: Source, c: Copy, tag: nat, words: nat, a: Addr, b: Addr) {
    Complete(src, c) && Linked(c, Packet(tag, words, a), b)
  }

  lemma PacketWord(src: Source, c: Copy, tag: nat, words: nat, a: Addr, b: Addr, k: nat)
    requires PacketLinked(src, c, tag, words, a, b) && k < words
    requires !StartsAt(PacketParts(src.img, src.from, tag, a), a + k)
    ensures At(c.heap, b + k) == At(src.from, a + k)
  {
    hide At, Complete, PacketParts, Linked;
    var n := Packet(tag, words, a);
    PacketSlots(src.img, src.from, tag, a);
    forall p | p in Parts(src.img, src.from, n)
      ensures !(p.at <= a + k < p.at + Size(src.from, p))
    {
      var i :| 0 <= i < |PacketParts(src.img, src.from, tag, a)| && p == PacketParts(src.img, src.from, tag, a)[i];
    }
    WordKept(src, c, n, b, k);
  }

  lemma PacketValid(src: Source, c: Copy, tag: nat, words: nat, a: Addr, b: Addr)
    requires PacketLinked(src, c, tag, words, a, b)
    ensures ValidPacket(src.from, tag, words, a)
  {
    hide At, Complete, Linked, Parts, Packed, ValidPacket;
    NodeFits(src, c, Packet(tag, words, a), b);
  }

  /** A row's own words say where its references are, and they are kept. */
  lemma KeptRow(src: Source, c: Copy, tag: nat, words: nat, a: Addr, b: Addr)
    requires PacketLinked(src, c, tag, words, a, b) && tag != BLAMES && tag != DIAGNOSTICS
    ensures RowOf(c.heap, tag, b) == RowOf(src.from, tag, a)
    ensures var row := RowOf(src.from, tag, a);
      WordsAt(src.from, a + row.types, row.count) == WordsAt(c.heap, b + row.types, row.count)
  {
    hide At, PacketLinked, EntryOf;
    PacketValid(src, c, tag, words, a, b);
    var row := RowOf(src.from, tag, a);
    if tag == FORMATS {
      PacketWord(src, c, tag, words, a, b, 0);
    } else if tag == TESTS {
      PacketWord(src, c, tag, words, a, b, 1);
    }
    var ts, us := WordsAt(src.from, a + row.types, row.count), WordsAt(c.heap, b + row.types, row.count);
    forall i | 0 <= i < row.count
      ensures ts[i] == us[i]
    {
      PacketWord(src, c, tag, words, a, b, row.types + i);
    }
  }

  /** The copy has the same parts at the same places. */
  lemma KeptParts(src: Source, c: Copy, tag: nat, words: nat, a: Addr, b: Addr)
    requires PacketLinked(src, c, tag, words, a, b)
    ensures var ps, qs := PacketParts(src.img, src.from, tag, a), PacketParts(src.img, c.heap, tag, b);
      |ps| == |qs| && forall i :: 0 <= i < |ps| ==> qs[i] == Moved(ps[i], b + (ps[i].at - a))
  {
    hide At, PacketLinked, EntryOf;
    PacketValid(src, c, tag, words, a, b);
    if tag == BLAMES {
      PacketWord(src, c, tag, words, a, b, 5);
    } else if tag == DIAGNOSTICS {
      PacketWord(src, c, tag, words, a, b, 6);
      PacketWord(src, c, tag, words, a, b, 9);
    } else {
      KeptRow(src, c, tag, words, a, b);
      SameRow(src, c, RowOf(src.from, tag, a), a, b);
    }
  }

  lemma SameRow(src: Source, c: Copy, row: Row, a: Addr, b: Addr)
    requires WordsAt(src.from, a + row.types, row.count) == WordsAt(c.heap, b + row.types, row.count)
    ensures var ps, qs := RowParts(src.img, src.from, row, a), RowParts(src.img, c.heap, row, b);
      forall i :: 0 <= i < |ps| ==> qs[i] == Moved(ps[i], b + (ps[i].at - a))
  {
    hide At, EntryOf;
    var ps, qs := RowParts(src.img, src.from, row, a), RowParts(src.img, c.heap, row, b);
    var ts, us := WordsAt(src.from, a + row.types, row.count), WordsAt(c.heap, b + row.types, row.count);
    forall i | 0 <= i < |ps|
      ensures qs[i] == Moved(ps[i], b + (ps[i].at - a))
    {
      assert ts[i] == us[i];
    }
  }

  lemma KeptWords(src: Source, c: Copy, tag: nat, words: nat, a: Addr, b: Addr)
    requires PacketLinked(src, c, tag, words, a, b)
    ensures OwnWords(src.img, src.from, tag, words, a) == OwnWords(src.img, c.heap, tag, words, b)
  {
    hide At, PacketLinked, PacketParts, OwnWords;
    KeptParts(src, c, tag, words, a, b);
    var ps, qs := PacketParts(src.img, src.from, tag, a), PacketParts(src.img, c.heap, tag, b);
    forall k | 0 <= k < words
      ensures OwnWords(src.img, src.from, tag, words, a)[k] == OwnWords(src.img, c.heap, tag, words, b)[k]
    {
      SameStarts(ps, qs, a, b, k);
      if !StartsAt(ps, a + k) {
        PacketWord(src, c, tag, words, a, b, k);
      }
    }
  }

  lemma SameStarts(ps: seq<Node>, qs: seq<Node>, a: Addr, b: Addr, k: nat)
    requires |ps| == |qs| && forall i :: 0 <= i < |ps| ==> qs[i] == Moved(ps[i], b + (ps[i].at - a))
    ensures StartsAt(ps, a + k) <==> StartsAt(qs, b + k)
  {
    if i :| 0 <= i < |ps| && ps[i].at == a + k {
      assert qs[i].at == b + k;
    }
    if i :| 0 <= i < |qs| && qs[i].at == b + k {
      assert ps[i].at == a + k;
    }
  }

  lemma SameBlame(src: Source, c: Copy, words: nat, a: Addr, b: Addr)
    requires PacketLinked(src, c, BLAMES, words, a, b)
    ensures DeepContent(src.from, a + 2) == DeepContent(c.heap, b + 2)
  {
    hide At, Complete, DeepContent, Linked;
    PacketValid(src, c, BLAMES, words, a, b);
    var ps := PacketParts(src.img, src.from, BLAMES, a);
    PacketWord(src, c, BLAMES, words, a, b, 3);
    PacketWord(src, c, BLAMES, words, a, b, 4);
    PacketWord(src, c, BLAMES, words, a, b, 5);
    if At(src.from, a + 5) == CONTENT_SLICE {
      assert ps == [Raw(a + 2)];
      PartLinked(src, c, Packet(BLAMES, words, a), b, 0);
    } else {
      PacketWord(src, c, BLAMES, words, a, b, 2);
    }
    SameView(src, c, a + 2, b + 2);
  }

  lemma {:induction false} SamePacket(src: Source, c: Copy, tag: nat, words: nat, a: Addr, b: Addr, fuel: nat)
    requires Complete(src, c) && Linked(c, Packet(tag, words, a), b)
    ensures OwnWords(src.img, src.from, tag, words, a) == OwnWords(src.img, c.heap, tag, words, b)
    ensures DeepMembers(src.img, src.from, src.origin, tag, a, fuel) ==
      DeepMembers(src.img, c.heap, src.origin, tag, b, fuel)
    decreases fuel, 4
  {
    hide At, Complete, Linked, Deep, OwnWords, PacketParts, DeepContent;
    KeptWords(src, c, tag, words, a, b);
    if tag == BLAMES {
      SameBlame(src, c, words, a, b);
    } else {
      KeptParts(src, c, tag, words, a, b);
      var ps, qs := PacketParts(src.img, src.from, tag, a), PacketParts(src.img, c.heap, tag, b);
      forall i | 0 <= i < |ps|
        ensures DeepMembers(src.img, src.from, src.origin, tag, a, fuel)[i] ==
          DeepMembers(src.img, c.heap, src.origin, tag, b, fuel)[i]
      {
        PartLinked(src, c, Packet(tag, words, a), b, i);
        SameNode(src, c, ps[i], b + (ps[i].at - a), fuel);
      }
    }
  }

  // ----- objects ------------------------------------------------------------

  ghost predicate ObjectLinked(src: Source, c: Copy, t: Table, a: Addr, b: Addr) {
    Complete(src, c) && Linked(c, Object(t, a), b)
  }

  /** What a record, box or newtype holds behind its header. */
  function ContentOf(src: Source, t: Table, a: Addr): Node
    requires t == Records || t == Boxes || t == Newtypes
  {
    var e := EntryOf(src.img, At(src.from, a));
    if t == Records then Fields(e, Max0(At(src.from, a + 1)), a + 2)
    else if t == Boxes then Value(e, a + 2)
    else Value(InnerOf(src.img, e), a + 2)
  }

  lemma KeptObject(src: Source, c: Copy, t: Table, a: Addr, b: Addr)
    requires ObjectLinked(src, c, t, a, b) && (t == Records || t == Boxes || t == Newtypes)
    ensures At(src.from, a) == At(c.heap, b)
    ensures Linked(c, ContentOf(src, t, a), b + 2)
  {
    hide At, Complete, EntryOf, InnerOf;
    assert Parts(src.img, src.from, Object(t, a)) == [ContentOf(src, t, a)];
    WordKept(src, c, Object(t, a), b, 0);
    PartLinked(src, c, Object(t, a), b, 0);
  }

  lemma KeptFields(src: Source, c: Copy, n: Node, b: Addr)
    requires Complete(src, c) && n.Fields? && Linked(c, n, b)
    ensures FieldsLinked(src, c, FieldsOf(n.e), n.at, b)
  {
    hide At, Complete, EntryOf;
    forall i | 0 <= i < |FieldsOf(n.e)|
      ensures FieldLinked(src, c, FieldsOf(n.e)[i], n.at, b)
    {
      PartLinked(src, c, n, b, i);
    }
  }

  lemma KeptRecord(src: Source, c: Copy, a: Addr, b: Addr)
    requires ObjectLinked(src, c, Records, a, b)
    ensures FieldsLinked(src, c, FieldsOf(EntryOf(src.img, At(src.from, a))), a + 2, b + 2)
  {
    hide At, Complete, EntryOf, FieldsOf, Linked, FieldsLinked, Max0;
    KeptObject(src, c, Records, a, b);
    KeptFields(src, c, ContentOf(src, Records, a), b + 2);
  }

  lemma {:induction false} SameRecord(src: Source, c: Copy, a: Addr, b: Addr, fuel: nat)
    requires ObjectLinked(src, c, Records, a, b)
    ensures var fs := FieldsOf(EntryOf(src.img, At(src.from, a)));
      DeepFields(src.img, src.from, src.origin, fs, a + 2, fuel) ==
        DeepFields(src.img, c.heap, src.origin, fs, b + 2, fuel)
    decreases fuel, 4
  {
    hide At, Complete, EntryOf, FieldsOf, DeepFields, Deep, Linked, FieldsLinked;
    KeptRecord(src, c, a, b);
    SameFields(src, c, FieldsOf(EntryOf(src.img, At(src.from, a))), a + 2, b + 2, fuel);
  }

  lemma ObjectComplete(src: Source, c: Copy, t: Table, a: Addr, b: Addr)
    requires ObjectLinked(src, c, t, a, b)
    ensures Complete(src, c)
  {
    hide Complete;
  }

  ghost predicate ElementLinked(src: Source, c: Copy, e: Entry, a: Addr, b: Addr, i: nat) {
    Linked(c, Value(e, a + i * e.size), b + i * e.size)
  }

  ghost predicate ElementsLinked(src: Source, c: Copy, e: Entry, a: Addr, b: Addr, n: nat) {
    forall i :: 0 <= i < n ==> ElementLinked(src, c, e, a, b, i)
  }

  lemma ArrayHeader(src: Source, c: Copy, a: Addr, b: Addr)
    requires ObjectLinked(src, c, Arrays, a, b)
    ensures At(src.from, a) == At(c.heap, b) && At(src.from, a + 2) == At(c.heap, b + 2) && At(c.heap, b + 1) == b + 4
    ensures Linked(c, Backing(src.img, src.from, a), b + 4)
  {
    hide At, Typed, TodoApart, TodoFresh, Present, PlainDone, SlotDone, RawsDone, StaticRaws, Backing;
    assert Done(src, c, Link(Object(Arrays, a), b));
  }

  lemma ElementsShape(src: Source, e: Entry, n: nat, data: Addr)
    ensures |Parts(src.img, src.from, Elems(e, n, data))| == n
    ensures forall i :: 0 <= i < n ==> Parts(src.img, src.from, Elems(e, n, data))[i] == Value(e, data + i * e.size)
  {
  }

  lemma KeptElements(src: Source, c: Copy, e: Entry, n: nat, data: Addr, b: Addr)
    requires Complete(src, c) && Linked(c, Elems(e, n, data), b)
    ensures ElementsLinked(src, c, e, data, b, n)
  {
    hide At, Complete, Parts, Size;
    ElementsShape(src, e, n, data);
    forall i | 0 <= i < n
      ensures ElementLinked(src, c, e, data, b, i)
    {
      PartLinked(src, c, Elems(e, n, data), b, i);
    }
  }

  lemma KeptArrayObject(src: Source, c: Copy, a: Addr, b: Addr)
    requires ObjectLinked(src, c, Arrays, a, b)
    ensures At(src.from, a) == At(c.heap, b) && At(src.from, a + 2) == At(c.heap, b + 2) && At(c.heap, b + 1) == b + 4
    ensures ElementsLinked(src, c, EntryOf(src.img, At(src.from, a)), At(src.from, a + 1), b + 4,
      Max0(At(src.from, a + 2)))
  {
    hide At, EntryOf, Complete, Linked, ElementsLinked, Max0;
    ArrayHeader(src, c, a, b);
    var n := Backing(src.img, src.from, a);
    KeptElements(src, c, n.e, n.count, n.at, b + 4);
  }

  lemma {:induction false} SameElements(src: Source, c: Copy, a: Addr, b: Addr, fuel: nat)
    requires ObjectLinked(src, c, Arrays, a, b)
    ensures var e, n := EntryOf(src.img, At(src.from, a)), Max0(At(src.from, a + 2));
      DeepElements(src.img, src.from, src.origin, e, At(src.from, a + 1), n, fuel)
        == DeepElements(src.img, c.heap, src.origin, e, b + 4, n, fuel)
    decreases fuel, 4
  {
    hide At, Complete, EntryOf, DeepElements, Deep, Max0, ObjectLinked;
    KeptArrayObject(src, c, a, b);
    assert Complete(src, c) by { ObjectComplete(src, c, Arrays, a, b); }
    var e, n, data := EntryOf(src.img, At(src.from, a)), Max0(At(src.from, a + 2)), At(src.from, a + 1);
    forall i | 0 <= i < n
      ensures DeepElements(src.img, src.from, src.origin, e, data, n, fuel)[i]
           == DeepElements(src.img, c.heap, src.origin, e, b + 4, n, fuel)[i]
    {
      assert ElementLinked(src, c, e, data, b + 4, i);
      SameNode(src, c, Value(e, data + i * e.size), b + 4 + i * e.size, fuel);
    }
  }

  ghost predicate CapturesKept(src: Source, c: Copy, a: Addr, b: Addr, n: nat) {
    && WordsAt(src.from, a + 2 + n, n) == WordsAt(c.heap, b + 2 + n, n)
    && forall i :: 0 <= i < n ==> CaptureLinked(src, c, a, b, n, i)
  }

  ghost predicate CaptureLinked(src: Source, c: Copy, a: Addr, b: Addr, n: nat, i: nat) {
    Linked(c, Ref(EntryOf(src.img, At(src.from, a + 2 + n + i)), a + 2 + i), b + 2 + i)
  }

  lemma EnvironmentShape(src: Source, a: Addr, n: nat)
    requires At(src.from, a) == n
    ensures Size(src.from, Object(Environments, a)) == 2 + 2 * n
    ensures |Parts(src.img, src.from, Object(Environments, a))| == n
    ensures forall i :: 0 <= i < n ==>
      Parts(src.img, src.from, Object(Environments, a))[i] ==
        Ref(EntryOf(src.img, At(src.from, a + 2 + n + i)), a + 2 + i)
    ensures forall p :: p in Parts(src.img, src.from, Object(Environments, a)) ==>
              a + 2 <= p.at < a + 2 + n && Size(src.from, p) == 1
  {
    hide At, EntryOf;
  }

  lemma EnvironmentCount(src: Source, c: Copy, a: Addr, b: Addr)
    requires ObjectLinked(src, c, Environments, a, b)
    ensures At(src.from, a) >= 0
  {
    hide At, Packed, Complete, Parts, Size;
    NodeFits(src, c, Object(Environments, a), b);
  }

  lemma KeptTypes(src: Source, c: Copy, a: Addr, b: Addr)
    requires ObjectLinked(src, c, Environments, a, b) && At(src.from, a) >= 0
    ensures var n := At(src.from, a);
      At(c.heap, b) == n && WordsAt(src.from, a + 2 + n, n) == WordsAt(c.heap, b + 2 + n, n)
  {
    hide At, Complete, EntryOf, WordsAt, Parts, Size;
    var env, n := Object(Environments, a), At(src.from, a);
    EnvironmentShape(src, a, n);
    WordKept(src, c, env, b, 0);
    var was, now := WordsAt(src.from, a + 2 + n, n), WordsAt(c.heap, b + 2 + n, n);
    forall i | 0 <= i < n
      ensures was[i] == now[i]
    {
      WordKept(src, c, env, b, 2 + n + i);
      assert a + (2 + n + i) == a + 2 + n + i;
    }
    assert was == now;
  }

  lemma KeptEnvironment(src: Source, c: Copy, a: Addr, b: Addr)
    requires ObjectLinked(src, c, Environments, a, b)
    ensures At(src.from, a) == At(c.heap, b) && At(src.from, a) >= 0
    ensures CapturesKept(src, c, a, b, At(src.from, a))
  {
    hide At, Complete, EntryOf, WordsAt, Parts, Size;
    EnvironmentCount(src, c, a, b);
    KeptTypes(src, c, a, b);
    var env, n := Object(Environments, a), At(src.from, a);
    EnvironmentShape(src, a, n);
    forall i | 0 <= i < n
      ensures CaptureLinked(src, c, a, b, n, i)
    {
      PartLinked(src, c, env, b, i);
    }
  }

  lemma {:induction false} SameCaptures(src: Source, c: Copy, a: Addr, b: Addr, fuel: nat)
    requires ObjectLinked(src, c, Environments, a, b)
    ensures At(src.from, a) == At(c.heap, b)
    ensures var n := Max0(At(src.from, a));
      && WordsAt(src.from, a + 2 + n, n) == WordsAt(c.heap, b + 2 + n, n)
      && DeepCaptures(src.img, src.from, src.origin, a, n, fuel) ==
        DeepCaptures(src.img, c.heap, src.origin, b, n, fuel)
    decreases fuel, 4
  {
    hide At, Complete, EntryOf, DeepCaptures, Deep, WordsAt;
    KeptEnvironment(src, c, a, b);
    var n := Max0(At(src.from, a));
    forall i | 0 <= i < n
      ensures DeepCaptures(src.img, src.from, src.origin, a, n, fuel)[i]
           == DeepCaptures(src.img, c.heap, src.origin, b, n, fuel)[i]
    {
      var ty := WordsAt(src.from, a + 2 + n, n)[i];
      assert ty == WordsAt(c.heap, b + 2 + n, n)[i];
      assert CaptureLinked(src, c, a, b, n, i);
      SameNode(src, c, Ref(EntryOf(src.img, ty), a + 2 + i), b + 2 + i, fuel);
    }
  }

  lemma {:induction false} SameObject(src: Source, c: Copy, t: Table, a: Addr, b: Addr, fuel: nat)
    requires Complete(src, c) && Linked(c, Object(t, a), b)
    ensures DeepObject(src.img, src.from, src.origin, t, a, fuel) == DeepObject(src.img, c.heap, src.origin, t, b, fuel)
    decreases fuel, 1
  {
    hide At, Complete, EntryOf, Deep, DeepFields, DeepElements, DeepCaptures, WordsAt;
    assert ObjectLinked(src, c, t, a, b);
    if fuel > 0 {
      match t
      case Records =>
        KeptObject(src, c, t, a, b);
        SameRecord(src, c, a, b, fuel - 1);
      case Boxes =>
        KeptObject(src, c, t, a, b);
        SameNode(src, c, Value(EntryOf(src.img, At(src.from, a)), a + 2), b + 2, fuel - 1);
      case Newtypes =>
        KeptObject(src, c, t, a, b);
        SameNode(src, c, Value(InnerOf(src.img, EntryOf(src.img, At(src.from, a))), a + 2), b + 2, fuel - 1);
      case Arrays =>
        KeptArrayObject(src, c, a, b);
        SameElements(src, c, a, b, fuel - 1);
      case Environments =>
        SameCaptures(src, c, a, b, fuel - 1);
    }
  }
}
