/** Which words of storage are references, read off the layout image and the tables
    alone: the scanner's decomposition into parts has to agree with this, and takes
    no part in it. */
module ReferenceWords {
  import opened HeapGraph

  /** What object headers and layouts say a slot may be. */
  function TypeAt(img: Image, h: Heap, a: Addr): Entry {
    EntryOf(img, At(h, a))
  }

  // ----- values -----------------------------------------------------------------

  /** The data of a value of layout `e` at `a` holds the slot `s`, at most `depth`
      values deep. */
  ghost predicate InData(img: Image, h: Heap, e: Entry, a: Addr, s: Node, depth: nat)
    decreases depth, 0
  {
    match e.layout
    case Scalar => false
    case CompileTime => false
    case Content => At(h, a + 3) == 0x1000_0000 && s == Raw(a)
    case Record(_) => s == Handle(Records, a)
    case Newtype(_) => s == Handle(Newtypes, a)
    case Resource(tag) => s == Slot(tag, a)
    case Function => At(h, a + 1) != 0 && s == Handle(Environments, a + 1)
    case Dict(_, _) => s == Handle(Arrays, a) || s == Handle(Arrays, a + 2)
    case Array(elem) =>
      (At(h, a + 3) == 1 && s == Ref(EntryOf(img, elem), a)) || (At(h, a + 3) == 2 && s == Handle(Arrays, a))
    case Enum(variants) =>
      var tag := At(h, a);
      0 <= tag < |variants| && variants[tag].Payload? &&
      if variants[tag].boxed then s == Handle(Boxes, a + 2)
      else depth > 0 && InValue(img, h, EntryOf(img, variants[tag].ty), a + 2, s, depth - 1)
    case Dyn =>
      if At(h, a + 1) == 1 then s == Handle(Boxes, a + 2)
      else depth > 0 && InData(img, h, TypeAt(img, h, a), a + 2, s, depth - 1)
    case InlineRecord(fields) =>
      depth > 0 && InFields(img, h, fields, a + 2, s, depth - 1)
  }

  /** A full value: a header of two words, then its data. */
  ghost predicate InValue(img: Image, h: Heap, e: Entry, a: Addr, s: Node, depth: nat)
    decreases depth, 1
  {
    InData(img, h, e, a + 2, s, depth)
  }

  /** One of several fields, each a full value at its offset, holds the slot. */
  ghost predicate InFields(img: Image, h: Heap, fields: seq<Field>, a: Addr, s: Node, depth: nat)
    decreases depth, 2
  {
    exists k :: 0 <= k < |fields| && InValue(img, h, EntryOf(img, fields[k].ty), a + fields[k].offset, s, depth)
  }

  /** The `k`th of several values of one layout. */
  ghost predicate InElement(img: Image, h: Heap, e: Entry, a: Addr, k: nat, s: Node, depth: nat) {
    InValue(img, h, e, a + k * e.size, s, depth)
  }

  /** The `k`th element of an array, which lies where word 1 of its header points. */
  ghost predicate InItem(img: Image, h: Heap, a: Addr, k: nat, s: Node, depth: nat) {
    InElement(img, h, TypeAt(img, h, a), At(h, a + 1), k, s, depth)
  }

  /** The `k`th captured reference of an environment; the closed types follow. */
  predicate InCapture(img: Image, h: Heap, a: Addr, k: nat, s: Node) {
    s == Ref(TypeAt(img, h, a + 2 + At(h, a) + k), a + 2 + k)
  }

  /** The `k`th case of a test; the closed types follow. */
  predicate InCase(img: Image, h: Heap, a: Addr, k: nat, s: Node) {
    s == Ref(TypeAt(img, h, a + 2 + At(h, a + 1) + k), a + 2 + k)
  }

  // ----- objects and resources ----------------------------------------------------

  /** The content of an object, behind its header. */
  ghost predicate InObject(img: Image, h: Heap, t: Table, a: Addr, s: Node, depth: nat) {
    match t
    case Records =>
      match TypeAt(img, h, a).layout {
        case Record(fields) => InFields(img, h, fields, a + 2, s, depth)
        case InlineRecord(fields) => InFields(img, h, fields, a + 2, s, depth)
        case _ => false
      }
    case Boxes => InValue(img, h, TypeAt(img, h, a), a + 2, s, depth)
    case Newtypes =>
      match TypeAt(img, h, a).layout {
        case Newtype(inner) => InValue(img, h, EntryOf(img, inner), a + 2, s, depth)
        case InlineRecord(fields) =>
          |fields| == 1 && InValue(img, h, EntryOf(img, fields[0].ty), a + 2, s, depth)
        case _ => false
      }
    case Arrays =>
      exists k: nat :: k < At(h, a + 2) && InItem(img, h, a, k, s, depth)
    case Environments =>
      exists k: nat :: k < At(h, a) && InCapture(img, h, a, k, s)
  }

  /** The payload of a resource of table `tag`. */
  ghost predicate InPayload(img: Image, h: Heap, tag: nat, a: Addr, s: Node) {
    match tag
    case 0 => At(h, a + 5) == 0x1000_0000 && s == Raw(a + 2)
    case 1 =>
      || s == Ref(TypeAt(img, h, a + 9), a + 4)
      || s == Owned(if At(h, a + 6) <= 0 then 0 else 2 * At(h, a + 6), a + 5)
    case 2 =>
      var op := At(h, a);
      || (op != 0 && s == Ref(TypeAt(img, h, a + 3), a + 1))
      || (op != 0 && op != 1 && op != 2 && op != 3 && s == Ref(TypeAt(img, h, a + 4), a + 2))
    case 5 => exists k: nat :: k < At(h, a + 1) && InCase(img, h, a, k, s)
    case 6 => s == Ref(TypeAt(img, h, a + 2), a + 1)
    case _ => false
  }

  /** Storage with the given role holds the slot. */
  ghost predicate Inside(img: Image, h: Heap, n: Node, s: Node, depth: nat) {
    match n
    case Value(e, a) => InValue(img, h, e, a, s, depth)
    case Data(e, a) => InData(img, h, e, a, s, depth)
    case Object(t, a) => InObject(img, h, t, a, s, depth)
    case Packet(tag, _, a) => InPayload(img, h, tag, a, s)
    case Fields(e, _, a) =>
      match e.layout {
        case Record(fields) => InFields(img, h, fields, a, s, depth)
        case InlineRecord(fields) => InFields(img, h, fields, a, s, depth)
        case _ => false
      }
    case Elems(e, count, a) => exists k: nat :: k < count && InElement(img, h, e, a, k, s, depth)
    case _ => s == n
  }

  ghost predicate Holds(img: Image, h: Heap, n: Node, s: Node) {
    exists depth: nat :: Inside(img, h, n, s, depth)
  }

  // ----- the scanner's decomposition ------------------------------------------------

  /** The scanner comes from `n` to the slot `s` by going down from part to part. */
  ghost predicate Found(img: Image, h: Heap, n: Node, s: Node, steps: nat)
    decreases steps
  {
    if IsSlot(n) then s == n
    else if steps == 0 then false
    else if n.Object? && n.table == Arrays then Found(img, h, Backing(img, h, n.at), s, steps - 1)
    else exists p :: p in Parts(img, h, n) && Found(img, h, p, s, steps - 1)
  }

  ghost predicate Fitting(img: Image, h: Heap, nodes: set<Node>) {
    NodesFit(img, h, nodes) && PartsTyped(img, h, nodes)
  }

  lemma PartFitting(img: Image, h: Heap, nodes: set<Node>, n: Node, p: Node)
    requires Fitting(img, h, nodes) && n in nodes && p in Parts(img, h, n)
    ensures p in nodes
  {
    hide Parts, ValidNode, Packed, Size;
  }

  lemma NodeFitting(img: Image, h: Heap, nodes: set<Node>, n: Node)
    requires Fitting(img, h, nodes) && n in nodes
    ensures ValidNode(img, h, n)
  {
    hide Parts, ValidNode, Packed, Size;
  }

  lemma Deeper(img: Image, h: Heap, n: Node, p: Node, s: Node, steps: nat)
    requires !IsSlot(n) && !(n.Object? && n.table == Arrays) && p in Parts(img, h, n) && Found(img, h, p, s, steps)
    ensures Found(img, h, n, s, steps + 1)
  {
    hide Parts;
  }

  function Rank(n: Node): nat {
    if n.Object? || n.Packet? then 4 else if n.Fields? || n.Elems? then 3 else if n.Value? then 2
    else if n.Data? then 1 else 0
  }

  /** Which part of `n` holds the slot that `n` holds. */
  lemma HeldByPart(img: Image, h: Heap, n: Node, s: Node, depth: nat) returns (p: Node, less: nat)
    requires ValidNode(img, h, n) && Inside(img, h, n, s, depth) && !IsSlot(n) && !(n.Object? && n.table == Arrays)
    ensures p in Parts(img, h, n) && Inside(img, h, p, s, less)
    ensures less < depth || (less == depth && Rank(p) < Rank(n))
  {
    hide At, EntryOf, InnerOf, FieldsOf, PacketParts, DataParts, Parts, InData, InObject, InPayload, InFields;
    PartsShape(img, h, n);
    match n
    case Value(e, a) =>
      ValueHolds(img, h, e, a, s, depth);
      p, less := Data(e, a + 2), depth;
    case Data(e, a) =>
      p, less := DataHeldByPart(img, h, e, a, s, depth);
    case Object(t, a) =>
      p, less := ObjectHeldByPart(img, h, t, a, s, depth);
    case Packet(tag, words, a) =>
      PacketHeldByPart(img, h, tag, words, a, s);
      p, less := s, depth;
    case Fields(e, extent, a) =>
      p := FieldHolds(img, h, e, extent, a, s, depth);
      less := depth;
    case Elems(e, count, a) =>
      p := ElementHolds(img, h, e, count, a, s, depth);
      less := depth;
  }

  lemma PartsShape(img: Image, h: Heap, n: Node)
    ensures n.Data? ==> Parts(img, h, n) == DataParts(img, h, n.e, n.at)
    ensures n.Packet? ==> Parts(img, h, n) == PacketParts(img, h, n.tag, n.at)
  {
  }

  lemma ValueHolds(img: Image, h: Heap, e: Entry, a: Addr, s: Node, depth: nat)
    requires ValidNode(img, h, Value(e, a)) && InValue(img, h, e, a, s, depth)
    ensures Data(e, a + 2) in Parts(img, h, Value(e, a)) && Inside(img, h, Data(e, a + 2), s, depth)
  {
    hide At, EntryOf;
  }

  lemma FieldHolds(img: Image, h: Heap, e: Entry, extent: nat, a: Addr, s: Node, depth: nat) returns (p: Node)
    requires Inside(img, h, Fields(e, extent, a), s, depth)
    ensures p in Parts(img, h, Fields(e, extent, a)) && Inside(img, h, p, s, depth) && Rank(p) == 2
  {
    hide At, EntryOf;
    FieldParts(img, h, e, extent, a);
    var fields := FieldsOf(e);
    var k :| 0 <= k < |fields| && InValue(img, h, EntryOf(img, fields[k].ty), a + fields[k].offset, s, depth);
    p := Parts(img, h, Fields(e, extent, a))[k];
  }

  lemma ElementHolds(img: Image, h: Heap, e: Entry, count: nat, a: Addr, s: Node, depth: nat) returns (p: Node)
    requires Inside(img, h, Elems(e, count, a), s, depth)
    ensures p in Parts(img, h, Elems(e, count, a)) && Inside(img, h, p, s, depth) && Rank(p) == 2
  {
    hide At, EntryOf;
    ElementParts(img, h, e, count, a);
    var k: nat :| k < count && InElement(img, h, e, a, k, s, depth);
    p := Parts(img, h, Elems(e, count, a))[k];
  }

  lemma DataHeldByPart(img: Image, h: Heap, e: Entry, a: Addr, s: Node, depth: nat) returns (p: Node, less: nat)
    requires ValidNode(img, h, Data(e, a)) && InData(img, h, e, a, s, depth)
    ensures p in DataParts(img, h, e, a) && Inside(img, h, p, s, less)
    ensures less < depth || (less == depth && IsSlot(p))
  {
    hide At, EntryOf, Size;
    if e.layout.Enum? && !e.layout.variants[At(h, a)].boxed {
      p, less := Value(EntryOf(img, e.layout.variants[At(h, a)].ty), a + 2), depth - 1;
    } else if e.layout.Dyn? && At(h, a + 1) != 1 {
      p, less := Data(TypeAt(img, h, a), a + 2), depth - 1;
    } else if e.layout.InlineRecord? {
      var fields := e.layout.fields;
      InlineParts(img, h, e, a);
      var k :| 0 <= k < |fields| && InValue(img, h, EntryOf(img, fields[k].ty), a + 2 + fields[k].offset, s, depth - 1);
      p, less := DataParts(img, h, e, a)[k], depth - 1;
    } else {
      SlotHeld(img, h, e, a, s, depth);
      p, less := s, depth;
    }
  }

  lemma SlotHeld(img: Image, h: Heap, e: Entry, a: Addr, s: Node, depth: nat)
    requires InData(img, h, e, a, s, depth) && !e.layout.InlineRecord?
    requires !(e.layout.Enum? && !e.layout.variants[At(h, a)].boxed) && !(e.layout.Dyn? && At(h, a + 1) != 1)
    ensures s in DataParts(img, h, e, a) && IsSlot(s) && Inside(img, h, s, s, depth)
  {
    hide At, EntryOf;
  }

  lemma ObjectHeldByPart(img: Image, h: Heap, t: Table, a: Addr, s: Node, depth: nat) returns (p: Node, less: nat)
    requires InObject(img, h, t, a, s, depth) && t != Arrays
    ensures p in Parts(img, h, Object(t, a)) && Inside(img, h, p, s, less)
    ensures less == depth && Rank(p) < 4
  {
    hide At, EntryOf;
    less := depth;
    match t
    case Records => p := Fields(TypeAt(img, h, a), Max0(At(h, a + 1)), a + 2);
    case Boxes => p := Value(TypeAt(img, h, a), a + 2);
    case Newtypes => p := Value(InnerOf(img, TypeAt(img, h, a)), a + 2);
    case Environments =>
      CaptureParts(img, h, a);
      var k: nat :| k < At(h, a) && InCapture(img, h, a, k, s);
      p := Parts(img, h, Object(Environments, a))[k];
  }

  lemma PacketHeldByPart(img: Image, h: Heap, tag: nat, words: nat, a: Addr, s: Node)
    requires ValidPacket(h, tag, words, a) && InPayload(img, h, tag, a, s)
    ensures s in PacketParts(img, h, tag, a) && IsSlot(s)
  {
    hide At, EntryOf;
    var ps := PacketParts(img, h, tag, a);
    if tag == FORMATS {
      assert ps[0] == Ref(TypeAt(img, h, a + 3), a + 1);
      if s != ps[0] { assert ps[1] == Ref(TypeAt(img, h, a + 4), a + 2); }
    } else if tag == TESTS {
      var k: nat :| k < At(h, a + 1) && InCase(img, h, a, k, s);
      assert ps[k] == s;
    } else if tag == DEBUG_EVENTS {
      assert ps[0] == s;
    }
  }

  /** Whatever slot the image says a node holds, the scanner finds. */
  lemma {:induction false} HeldFound(img: Image, h: Heap, nodes: set<Node>, n: Node, s: Node, depth: nat)
    returns (steps: nat)
    requires Fitting(img, h, nodes) && n in nodes && Inside(img, h, n, s, depth)
    ensures Found(img, h, n, s, steps)
    decreases depth, Rank(n)
  {
    hide Fitting, Parts, Backing, At, ValidNode;
    if IsSlot(n) {
      steps := 0;
    } else if n.Object? && n.table == Arrays {
      BackingHolds(img, h, nodes, n.at, s, depth);
      var less := HeldFound(img, h, nodes, Backing(img, h, n.at), s, depth);
      steps := less + 1;
    } else {
      NodeFitting(img, h, nodes, n);
      var p, lower := HeldByPart(img, h, n, s, depth);
      PartFitting(img, h, nodes, n, p);
      PartRank(img, h, n, p);
      var less := HeldFound(img, h, nodes, p, s, lower);
      Deeper(img, h, n, p, s, less);
      steps := less + 1;
    }
  }

  lemma PartRank(img: Image, h: Heap, n: Node, p: Node)
    requires p in Parts(img, h, n)
    ensures !p.Object? && !p.Packet? && Rank(p) <= 3
  {
    hide At, EntryOf;
  }

  lemma BackingHolds(img: Image, h: Heap, nodes: set<Node>, a: Addr, s: Node, depth: nat)
    requires Fitting(img, h, nodes) && Object(Arrays, a) in nodes
    ensures Backing(img, h, a) in nodes && Backing(img, h, a).Elems?
    ensures Inside(img, h, Object(Arrays, a), s, depth) <==> Inside(img, h, Backing(img, h, a), s, depth)
  {
    hide At, EntryOf, NodesFit, Parts;
    var e, d := TypeAt(img, h, a), At(h, a + 1);
    forall k: nat
      ensures InItem(img, h, a, k, s, depth) <==> InElement(img, h, e, d, k, s, depth)
    {
    }
  }

  // ----- and nothing else ---------------------------------------------------------------

  lemma {:induction false} InDataMore(img: Image, h: Heap, e: Entry, a: Addr, s: Node, few: nat, many: nat)
    requires InData(img, h, e, a, s, few) && few <= many
    ensures InData(img, h, e, a, s, many)
    decreases few
  {
    hide At, EntryOf;
    if e.layout.Enum? && !e.layout.variants[At(h, a)].boxed {
      InDataMore(img, h, EntryOf(img, e.layout.variants[At(h, a)].ty), a + 4, s, few - 1, many - 1);
    } else if e.layout.Dyn? && At(h, a + 1) != 1 {
      InDataMore(img, h, TypeAt(img, h, a), a + 2, s, few - 1, many - 1);
    } else if e.layout.InlineRecord? {
      var fields := e.layout.fields;
      var k :| 0 <= k < |fields| && InValue(img, h, EntryOf(img, fields[k].ty), a + 2 + fields[k].offset, s, few - 1);
      InDataMore(img, h, EntryOf(img, fields[k].ty), a + 2 + fields[k].offset + 2, s, few - 1, many - 1);
      assert InValue(img, h, EntryOf(img, fields[k].ty), a + 2 + fields[k].offset, s, many - 1);
    }
  }

  /** What a part holds, its node holds. */
  lemma PartHeld(img: Image, h: Heap, n: Node, p: Node, s: Node, depth: nat)
    requires ValidNode(img, h, n) && p in Parts(img, h, n) && Inside(img, h, p, s, depth)
    ensures Inside(img, h, n, s, if n.Data? then depth + 1 else depth)
  {
    hide At;
    match n
    case Value(e, a) =>
    case Data(e, a) => DataPartHeld(img, h, e, a, p, s, depth);
    case Object(t, a) => ObjectPartHeld(img, h, t, a, p, s, depth);
    case Packet(tag, words, a) => PacketPartHeld(img, h, tag, words, a, p);
    case Fields(e, extent, a) =>
      FieldParts(img, h, e, extent, a);
      var k :| 0 <= k < |Parts(img, h, n)| && p == Parts(img, h, n)[k];
      assert InValue(img, h, EntryOf(img, FieldsOf(e)[k].ty), a + FieldsOf(e)[k].offset, s, depth);
    case Elems(e, count, a) =>
      ElementParts(img, h, e, count, a);
      var k: nat :| k < |Parts(img, h, n)| && p == Parts(img, h, n)[k];
      assert InElement(img, h, e, a, k, s, depth);
  }

  lemma DataPartHeld(img: Image, h: Heap, e: Entry, a: Addr, p: Node, s: Node, depth: nat)
    requires ValidNode(img, h, Data(e, a)) && p in DataParts(img, h, e, a) && Inside(img, h, p, s, depth)
    ensures InData(img, h, e, a, s, depth + 1)
  {
    hide At, EntryOf;
    if e.layout.InlineRecord? {
      var fields := e.layout.fields;
      InlineParts(img, h, e, a);
      var k :| 0 <= k < |DataParts(img, h, e, a)| && p == DataParts(img, h, e, a)[k];
      assert InValue(img, h, EntryOf(img, fields[k].ty), a + 2 + fields[k].offset, s, depth);
    }
  }

  lemma ObjectPartHeld(img: Image, h: Heap, t: Table, a: Addr, p: Node, s: Node, depth: nat)
    requires p in Parts(img, h, Object(t, a)) && Inside(img, h, p, s, depth)
    requires ValidNode(img, h, Object(t, a))
    ensures InObject(img, h, t, a, s, depth)
  {
    hide At, EntryOf;
    if t == Environments {
      CaptureParts(img, h, a);
      var k: nat :| k < |Parts(img, h, Object(Environments, a))| && p == Parts(img, h, Object(Environments, a))[k];
      assert InCapture(img, h, a, k, s);
    } else if t == Newtypes {
      InnerHeld(img, h, a, s, depth);
    }
  }

  lemma InnerHeld(img: Image, h: Heap, a: Addr, s: Node, depth: nat)
    requires InValue(img, h, InnerOf(img, TypeAt(img, h, a)), a + 2, s, depth)
    ensures InObject(img, h, Newtypes, a, s, depth)
  {
    hide At, EntryOf;
  }

  lemma PacketPartHeld(img: Image, h: Heap, tag: nat, words: nat, a: Addr, p: Node)
    requires ValidPacket(h, tag, words, a) && p in PacketParts(img, h, tag, a)
    ensures InPayload(img, h, tag, a, p) && IsSlot(p)
  {
    hide At, EntryOf;
    var ps := PacketParts(img, h, tag, a);
    var k: nat :| k < |ps| && p == ps[k];
    if tag == TESTS {
      assert InCase(img, h, a, k, p);
    }
  }

  /** Whatever slot the scanner finds, the image says is one. */
  lemma {:induction false} FoundHeld(img: Image, h: Heap, nodes: set<Node>, n: Node, s: Node, steps: nat)
    returns (depth: nat)
    requires Fitting(img, h, nodes) && n in nodes && Found(img, h, n, s, steps)
    ensures Inside(img, h, n, s, depth)
    decreases steps
  {
    hide Fitting, Parts, Backing, At, ValidNode;
    if IsSlot(n) {
      depth := 0;
    } else if n.Object? && n.table == Arrays {
      BackingHolds(img, h, nodes, n.at, s, 0);
      depth := FoundHeld(img, h, nodes, Backing(img, h, n.at), s, steps - 1);
      BackingHolds(img, h, nodes, n.at, s, depth);
    } else {
      var p :| p in Parts(img, h, n) && Found(img, h, p, s, steps - 1);
      PartFitting(img, h, nodes, n, p);
      NodeFitting(img, h, nodes, n);
      var below := FoundHeld(img, h, nodes, p, s, steps - 1);
      PartHeld(img, h, n, p, s, below);
      depth := if n.Data? then below + 1 else below;
    }
  }

  /** The scanner finds exactly the slots that the image says there are. */
  lemma ScannerExact(img: Image, h: Heap, nodes: set<Node>, n: Node, s: Node)
    requires Fitting(img, h, nodes) && n in nodes
    ensures Holds(img, h, n, s) <==> exists steps: nat :: Found(img, h, n, s, steps)
  {
    hide Fitting, Found, Inside;
    if depth: nat :| Inside(img, h, n, s, depth) {
      var steps := HeldFound(img, h, nodes, n, s, depth);
    }
    if steps: nat :| Found(img, h, n, s, steps) {
      var depth := FoundHeld(img, h, nodes, n, s, steps);
    }
  }

  // ----- members -----------------------------------------------------------------------

  /** A record object has one part and one member for each field of its layout, at the
      field's offset and of the field's type, and no other. */
  lemma RecordMembers(img: Image, h: Heap, origin: Addr, a: Addr, fields: seq<Field>, fuel: nat)
    returns (ms: seq<Tree>)
    requires TypeAt(img, h, a).layout == Layout.Record(fields) && fuel > 0
    ensures |Parts(img, h, Object(Records, a))| == 1
    ensures var ps := Parts(img, h, Parts(img, h, Object(Records, a))[0]);
      |ps| == |fields| && forall i :: 0 <= i < |fields| ==>
        ps[i] == Value(EntryOf(img, fields[i].ty), a + 2 + fields[i].offset)
    ensures |ms| == |fields| && DeepObject(img, h, origin, Records, a, fuel) == Boxed(At(h, a), Struct(ms))
    ensures forall i :: 0 <= i < |fields| ==>
      ms[i] == Deep(img, h, origin, Value(EntryOf(img, fields[i].ty), a + 2 + fields[i].offset), fuel - 1)
  {
    hide At, Deep, EntryOf;
    var f := Parts(img, h, Object(Records, a))[0];
    FieldParts(img, h, f.e, f.extent, f.at);
    ms := DeepFields(img, h, origin, fields, a + 2, fuel - 1);
  }

  /** A newtype object holds one full value of the type it wraps. */
  lemma NewtypeMember(img: Image, h: Heap, origin: Addr, a: Addr, inner: nat, fuel: nat)
    requires TypeAt(img, h, a).layout == Layout.Newtype(inner) && fuel > 0
    ensures var v := Value(EntryOf(img, inner), a + 2);
      && Parts(img, h, Object(Newtypes, a)) == [v]
      && DeepObject(img, h, origin, Newtypes, a, fuel) == Boxed(At(h, a), Deep(img, h, origin, v, fuel - 1))
  {
    hide At, Deep, EntryOf;
  }

  /** How many operands each format node has, and where. */
  lemma FormatMembers(img: Image, h: Heap, words: nat, a: Addr)
    requires ValidPacket(h, 2, words, a)
    ensures var op, ps := At(h, a), Parts(img, h, Packet(2, words, a));
      && (op == 0 ==> ps == [])
      && (1 <= op <= 3 ==> ps == [Ref(TypeAt(img, h, a + 3), a + 1)])
      && (op >= 4 ==> ps == [Ref(TypeAt(img, h, a + 3), a + 1), Ref(TypeAt(img, h, a + 4), a + 2)])
  {
    hide At, EntryOf;
  }

  /** The cases of a test, and the value of a debug event. */
  lemma RowMembers(img: Image, h: Heap, words: nat, a: Addr)
    ensures ValidPacket(h, 5, words, a) ==>
      var ps := Parts(img, h, Packet(5, words, a));
      |ps| == At(h, a + 1) && forall k: nat :: k < |ps| ==> InCase(img, h, a, k, ps[k])
    ensures Parts(img, h, Packet(6, words, a)) == [Ref(TypeAt(img, h, a + 2), a + 1)]
  {
    hide At, EntryOf;
  }
}
