/** Nonmoving collection: discovery of everything reachable from published roots
    (gc_mark.rs, driven by the layout scanner), followed by reclaiming every
    block that holds nothing reachable (gc_runtime.rs, heap.rs). */
module MarkSweep {
  import opened HeapGraph
  import opened MarkGraph
  import opened MarkRetention
  import opened RetainedMeaning
  import DirectHeap
  import ResourceTables

  class Mark {
    const w: World
    ghost const blocks: set<set<Addr>>
    ghost const from: Start
    var storage: set<Addr>
    var values: set<(Addr, int)>
    var objects: set<(Table, Addr)>
    var slots: set<(nat, int)>
    var pending: seq<Item>
    ghost var seen: set<Node>
    ghost var open: set<Node>

    ghost function Now(): Marks
      reads this
    {
      Marks(storage, seen, open, values, objects, slots, pending)
    }

    ghost predicate Valid()
      reads this
    {
      Ok(w, blocks, from, Now())
    }

    /** One scanning operation: the invariant is kept, `done` is finished. */
    twostate predicate Did(done: set<Node>)
      reads this
    {
      Valid() && Step(w, old(Now()), Now(), done)
    }

    constructor (w: World, ghost blocks: set<set<Addr>>, ghost from: Start)
      requires WellTyped(w) && Housed(w, blocks)
      ensures Valid() && this.w == w && this.blocks == blocks && this.from == from
      ensures open == {} && pending == []
    {
      this.w, this.blocks, this.from := w, blocks, from;
      storage, values, objects, slots, pending := {}, {}, {}, {}, [];
      seen, open := {}, {};
    }

    method Span(ref: Addr)
      requires Valid() && ref in from.spans
      modifies this`storage
      ensures Did({}) && storage == old(storage) + {ref}
    {
      hide WellTyped, Housed, Tracked, Visited, Touches, Reachable, Budget;
      storage := storage + {ref};
      SpanOk(w, blocks, from, old(Now()), ref);
      assert Now() == old(Now()).(storage := old(Now()).storage + {ref});
    }

    /** Visits a full value unless it is null or was visited under this type. */
    method MarkValue(p: Addr, ty: int)
      requires Valid()
      requires p >= NULL_ORIGIN ==> Value(EntryOf(w.img, ty), p) in w.ty.nodes
      requires p >= NULL_ORIGIN ==> Reachable(w, from.nodes, Value(EntryOf(w.img, ty), p))
      modifies this
      ensures Did({})
      ensures p >= NULL_ORIGIN ==> Value(EntryOf(w.img, ty), p) in seen
    {
      hide Ok, Step, EntryOf, At, Next, WellTyped, Reachable, Size, Waiting, PayloadOf, NodeOf, ValueVisited,
           ObjectVisited, ViewPinned, Closed;
      ghost var s := Now();
      if p >= NULL_ORIGIN && (p, ty) !in values {
        ValueVisitedOk(w, blocks, from, s, p, ty);
        ValueVisitedShape(w, s, p, ty);
        values := values + {(p, ty)};
        storage := storage + {p};
        pending := pending + [FullValue(p, ty)];
        seen := seen + {Value(EntryOf(w.img, ty), p)};
        assert Now() == ValueVisited(w, s, p, ty);
      } else {
        StepRefl(w, s);
        if p >= NULL_ORIGIN { ListedValue(w, blocks, from, s, p, ty); }
      }
    }

    /** Visits an object kept by its address, and queues its payload. */
    method MarkObject(table: Table, id: Addr, ty: int)
      requires Valid()
      requires id >= NULL_ORIGIN ==> Object(table, id) in w.ty.nodes && Reachable(w, from.nodes, Object(table, id))
      modifies this
      ensures Did({})
      ensures id >= NULL_ORIGIN ==> Object(table, id) in seen
    {
      hide Ok, Step, EntryOf, At, Next, WellTyped, Reachable, Size, Waiting, PayloadOf, NodeOf, ValueVisited,
           ObjectVisited, ViewPinned, Closed;
      ghost var s := Now();
      if id >= NULL_ORIGIN && (table, id) !in objects {
        ObjectVisitedOk(w, blocks, from, s, table, id, ty);
        ObjectVisitedShape(w, s, table, id, ty);
        objects := objects + {(table, id)};
        storage := storage + {id};
        var payload := PayloadOf(w, table, id, ty);
        if payload.size != 0 { storage := storage + {payload.at}; }
        pending := pending + [payload];
        seen := seen + {Object(table, id), NodeOf(w, payload)};
        assert Now() == ObjectVisited(w, s, table, id, ty);
      } else {
        StepRefl(w, s);
        if id >= NULL_ORIGIN { ListedObject(w, blocks, from, s, table, id); }
      }
    }

    /** Visits a resource by its table and slot, and queues its payload unless
        it is owned elsewhere. */
    method MarkSlot(tag: nat, id: int)
      requires Valid() && Visitable(w, from, tag, id)
      modifies this
      ensures Did({})
      ensures (tag, id) in slots && PayloadSeen(w, seen, tag, id)
    {
      hide Ok, Step, EntryOf, At, Next, WellTyped, Reachable, Size, Waiting, Cells, SlotVisited, SlotReached, Visitable;
      ghost var s := Now();
      VisitableCell(w, from, tag, id);
      if (tag, id) !in slots {
        SlotVisitedOk(w, blocks, from, s, tag, id);
        SlotVisitedShape(w, s, tag, id);
        slots := slots + {(tag, id)};
        if tag != REGEXES {
          var c := Cells(w.heap, tag)[id];
          storage := storage + {c.payload};
          pending := pending + [PayloadItem(tag, c)];
          seen := seen + {PacketOf(tag, c)};
        }
        assert Now() == SlotVisited(w, s, tag, id);
      } else {
        StepRefl(w, s);
      }
      TablesKept(w, blocks, from, Now());
    }

    // ----- edges --------------------------------------------------------------

    /** Ghost: the scanner has read `n`; its parts are now being dealt with. */
    ghost method Enter(n: Node)
      requires Valid() && n in seen && !IsSlot(n) && !(n.Object? && n.table == Arrays)
      modifies this`seen, this`open
      ensures Valid() && Now() == Entered(w, old(Now()), n)
      ensures Next(w, n) <= seen
    {
      hide Ok, IsSlot, Parts, Target, Backing;
      ghost var s := Now();
      EnterOk(w, blocks, from, Now(), n);
      seen, open := seen + Next(w, n), open - {n} + Next(w, n);
      assert Now() == Entered(w, s, n);
    }

    /** Edge::Value: a reference to a full value. */
    method EdgeValue(ty: int, at: Addr)
      requires Valid() && Ref(EntryOf(w.img, ty), at) in seen
      modifies this
      ensures Did({Ref(EntryOf(w.img, ty), at)})
    {
      hide Ok, Step, EntryOf, At, Next, WellTyped, Reachable, Size, Waiting, PayloadOf, NodeOf, ValueVisited,
           ObjectVisited, ViewPinned, Closed;
      ghost var n := Ref(EntryOf(w.img, ty), at);
      ghost var s := Now();
      var p := At(w.heap, at);
      TargetReached(w, blocks, from, s, n);
      MarkValue(p, ty);
      ghost var t := Now();
      CloseOk(w, blocks, from, t, n) by { SlotClosed(w, s, t, n); }
      open := open - {n};
      ClosedShape(t, n);
      StepTrans(w, s, t, Now(), {}, {n});
      assert {} + {n} == {n};
    }

    /** Edge::Object: a reference to an object. */
    method EdgeObject(table: Table, at: Addr, ty: int)
      requires Valid() && Handle(table, at) in seen
      modifies this
      ensures Did({Handle(table, at)})
    {
      hide Ok, Step, EntryOf, At, Next, WellTyped, Reachable, Size, Waiting, PayloadOf, NodeOf, ValueVisited,
           ObjectVisited, ViewPinned, Closed;
      ghost var n := Handle(table, at);
      ghost var s := Now();
      var id := At(w.heap, at);
      TargetReached(w, blocks, from, s, n);
      MarkObject(table, id, ty);
      ghost var t := Now();
      CloseOk(w, blocks, from, t, n) by { SlotClosed(w, s, t, n); }
      open := open - {n};
      ClosedShape(t, n);
      StepTrans(w, s, t, Now(), {}, {n});
      assert {} + {n} == {n};
    }

    /** Edge::Object of a resource: the slot of its table. */
    method EdgeSlot(tag: nat, at: Addr)
      requires Valid() && Slot(tag, at) in seen
      modifies this
      ensures Did({Slot(tag, at)})
    {
      hide Ok, Step, EntryOf, At, Next, WellTyped, Reachable, Size, Waiting, Cells, Closed, Visitable, SlotReached,
           PayloadSeen;
      ghost var n := Slot(tag, at);
      ghost var s := Now();
      var id := At(w.heap, at);
      SlotVisitable(w, blocks, from, s, n);
      MarkSlot(tag, id);
      ghost var t := Now();
      CloseOk(w, blocks, from, t, n) by { ResourceClosed(w, s, t, n); }
      open := open - {n};
      ClosedShape(t, n);
      StepTrans(w, s, t, Now(), {}, {n});
      assert {} + {n} == {n};
    }

    /** Edge::Storage: storage that belongs to this slot alone. */
    method EdgeStorage(words: nat, at: Addr)
      requires Valid() && Owned(words, at) in seen
      modifies this
      ensures Did({Owned(words, at)})
    {
      hide Ok, Step, EntryOf, At, Next, WellTyped, Reachable, Size, Waiting, Blob, Closed;
      ghost var n := Owned(words, at);
      ghost var s := Now();
      var p := At(w.heap, at);
      StepRefl(w, s);
      BelongingsReached(w, blocks, from, s, n);
      if words != 0 {
        BlobSeenOk(w, blocks, from, s, words, p);
        if p != 0 { storage := storage + {p}; }
        seen := seen + {Blob(words, p)};
        assert Now() == BlobSeen(s, words, p);
      }
      ghost var t := Now();
      CloseOk(w, blocks, from, t, n) by { StepGrows(w, s, t, {}); }
      open := open - {n};
      ClosedShape(t, n);
      StepTrans(w, s, t, Now(), {}, {n});
      assert {} + {n} == {n};
    }

    /** Edge::Content: the storage behind a byte view. */
    method EdgeContent(at: Addr)
      requires Valid() && Raw(at) in seen
      modifies this
      ensures Did({Raw(at)})
    {
      hide Ok, Step, EntryOf, At, Next, WellTyped, Reachable, Size, Waiting, PayloadOf, NodeOf, ValueVisited,
           ObjectVisited, ViewPinned, Closed;
      ghost var s := Now();
      var raw := At(w.heap, at);
      ViewPinnedOk(w, blocks, from, s, Raw(at));
      if raw != 0 { storage := storage + {raw}; }
      open := open - {Raw(at)};
      ViewPinnedShape(w, s, Raw(at));
      assert Now() == ViewPinned(w, s, Raw(at));
    }

    // ----- the scanner (trace.rs) ---------------------------------------------

    /** A full value: its header, then its data. */
    method ScanValue(e: Entry, at: Addr)
      requires Valid() && Value(e, at) in seen
      modifies this
      ensures Did({Value(e, at)})
    {
      hide Ok, Step, EntryOf, Next, WellTyped;
      ghost var n := Value(e, at);
      ghost var s := Now();
      Enter(n);
      ghost var t := Now();
      ValueNext(w, e, at);
      if e.size == HEADER {
        StepRefl(w, t);
      } else {
        ScanData(e, at + HEADER);
      }
      LeafStep(w, s, n, Now());
    }

    /** Data of a closed type; inline enum and Dyn payloads are followed here. */
    method ScanData(ty: Entry, start: Addr)
      requires Valid() && Data(ty, start) in seen
      modifies this
      ensures Did({Data(ty, start)})
    {
      hide Ok, Step, EntryOf, At, Next, WellTyped, Descended, ValidData;
      ghost var first := Data(ty, start);
      ghost var s := Now();
      var e, at := ty, start;
      DescendRefl(s, first);
      while true
        invariant Valid() && Data(e, at) in seen && Descended(s, Now(), first, Data(e, at))
        decreases e.size
      {
        ghost var n := Data(e, at);
        ghost var t := Now();
        SeenNode(w, blocks, from, t, n);
        DataValid(w, n);
        if e.layout.Enum? && InlinePayload(w.heap, e, at) {
          var payload := EntryOf(w.img, e.layout.variants[At(w.heap, at)].ty);
          EnumNext(w, e, at);
          Enter(n);
          DescendTo(w, s, t, first, n, Value(payload, at + 2));
          ghost var u := Now();
          ValueNext(w, payload, at + 2);
          Enter(Value(payload, at + 2));
          if payload.size == HEADER {
            DescendLast(w, s, u, first, Value(payload, at + 2), Now());
            return;
          }
          DescendTo(w, s, u, first, Value(payload, at + 2), Data(payload, at + 4));
          e, at := payload, at + 4;
        } else if e.layout.Dyn? && At(w.heap, at + 1) != 1 {
          var payload := EntryOf(w.img, At(w.heap, at));
          DynNext(w, e, at);
          Enter(n);
          if payload.size == HEADER {
            DescendLast(w, s, t, first, n, Now());
            return;
          }
          DescendTo(w, s, t, first, n, Data(payload, at + 2));
          e, at := payload, at + 2;
        } else {
          ScanLeaf(e, at);
          DescendDone(w, s, t, first, n, Now());
          return;
        }
      }
    }

    /** The scanner's returning arms: scalars, views and handles. */
    method ScanLeaf(e: Entry, at: Addr)
      requires Valid() && Data(e, at) in seen
      requires e.layout.Enum? ==> !InlinePayload(w.heap, e, at)
      requires e.layout.Dyn? ==> At(w.heap, at + 1) == 1
      modifies this
      ensures Did({Data(e, at)})
    {
      hide Ok, Step, EntryOf, At, Next, WellTyped, Parts;
      match e.layout
      case InlineRecord(_) => ScanInline(e, at);
      case Dict(_, _) => ScanDict(e, at);
      case _ => ScanSlot(e, at);
    }

    /** Fields of an inline aggregate are visited as values of their own. */
    method ScanInline(e: Entry, at: Addr)
      requires Valid() && Data(e, at) in seen && e.layout.InlineRecord?
      modifies this
      ensures Did({Data(e, at)})
    {
      hide Ok, Step, EntryOf, At, Next, WellTyped, Parts, Closed;
      ghost var n := Data(e, at);
      ghost var s := Now();
      var fields := e.layout.fields;
      SeenNode(w, blocks, from, s, n);
      InlineNext(w, e, at);
      ghost var none: set<Node> := {};
      assert none + none == none;
      StepRefl(w, s);
      for i := 0 to |fields|
        invariant Valid() && Step(w, s, Now(), {}) && n in seen
        invariant forall k :: 0 <= k < i ==> Value(EntryOf(w.img, fields[k].ty), at + 2 + fields[k].offset) in seen
      {
        ghost var u := Now();
        var offset := 2 + fields[i].offset;
        PartReached(w, blocks, from, u, n, Value(EntryOf(w.img, fields[i].ty), at + offset));
        MarkValue(at + offset, fields[i].ty);
        StepGrows(w, u, Now(), {});
        StepTrans(w, s, u, Now(), none, none);
      }
      ghost var t := Now();
      CloseOk(w, blocks, from, t, n);
      open := open - {n};
      ClosedShape(t, n);
      StepTrans(w, s, t, Now(), {}, {n});
      assert {} + {n} == {n};
    }

    /** Two whole columns. */
    method ScanDict(e: Entry, at: Addr)
      requires Valid() && Data(e, at) in seen && e.layout.Dict?
      modifies this
      ensures Did({Data(e, at)})
    {
      hide Ok, Step, EntryOf, At, Next, WellTyped, Parts;
      ghost var n := Data(e, at);
      ghost var s := Now();
      DictNext(w, e, at);
      Enter(n);
      ghost var t := Now();
      EdgeObject(Arrays, at, e.layout.key);
      ghost var u := Now();
      StepGrows(w, t, u, {Handle(Arrays, at)});
      EdgeObject(Arrays, at + 2, e.layout.val);
      StepTrans(w, t, u, Now(), {Handle(Arrays, at)}, {Handle(Arrays, at + 2)});
      assert {Handle(Arrays, at)} + {Handle(Arrays, at + 2)} == Next(w, n);
      LeafStep(w, s, n, Now());
    }

    /** At most one slot. */
    method ScanSlot(e: Entry, at: Addr)
      requires Valid() && Data(e, at) in seen && !e.layout.InlineRecord? && !e.layout.Dict?
      requires e.layout.Enum? ==> !InlinePayload(w.heap, e, at)
      requires e.layout.Dyn? ==> At(w.heap, at + 1) == 1
      modifies this
      ensures Did({Data(e, at)})
    {
      hide Ok, Step, EntryOf, At, Next, WellTyped, Parts, ValidData;
      ghost var n := Data(e, at);
      ghost var s := Now();
      SeenNode(w, blocks, from, s, n);
      DataValid(w, n);
      SlotNext(w, e, at);
      Enter(n);
      StepRefl(w, Now());
      match e.layout {
        case Scalar =>
        case CompileTime =>
        case Content =>
          if At(w.heap, at + 3) == CONTENT_SLICE { EdgeContent(at); }
        case Record(_) =>
          EdgeObject(Records, at, 0);
        case Array(elem) =>
          var kind := At(w.heap, at + 3);
          if kind == ARRAY_SINGLE { EdgeValue(elem, at); }
          else if kind == ARRAY_SLICE { EdgeObject(Arrays, at, elem); }
        case Enum(variants) =>
          var v := variants[At(w.heap, at)];
          if v.Payload? { EdgeObject(Boxes, at + 2, v.ty); }
        case Dyn =>
          EdgeObject(Boxes, at + 2, At(w.heap, at));
        case Function =>
          if At(w.heap, at + 1) != 0 { EdgeObject(Environments, at + 1, 0); }
        case Newtype(inner) =>
          EdgeObject(Newtypes, at, inner);
        case Resource(tag) =>
          EdgeSlot(tag, at);
      }
      LeafStep(w, s, n, Now());
    }

    // ----- published objects (trace.rs object) ----------------------------------

    /** Consecutive full values: record fields, array elements. */
    method ScanFields(e: Entry, extent: nat, at: Addr)
      requires Valid() && Fields(e, extent, at) in seen
      modifies this
      ensures Did({Fields(e, extent, at)})
    {
      hide Ok, Step, EntryOf, At, Next, WellTyped, FieldsOf, Parts;
      ghost var n := Fields(e, extent, at);
      ghost var s := Now();
      Enter(n);
      ghost var t := Now();
      var fields := FieldsOf(e);
      FieldParts(w.img, w.heap, e, extent, at);
      FirstsStart(w, t, n);
      for i := 0 to |fields|
        invariant Valid() && Step(w, t, Now(), Firsts(w, n, i)) && Next(w, n) <= seen
      {
        ghost var u := Now();
        PartSeen(w, n, i);
        ScanValue(EntryOf(w.img, fields[i].ty), at + fields[i].offset);
        NextFirsts(w, n, t, u, Now(), i);
      }
      FirstsAll(w, n);
      LeafStep(w, s, n, Now());
    }

    method ScanElements(e: Entry, count: nat, at: Addr)
      requires Valid() && Elems(e, count, at) in seen
      modifies this
      ensures Did({Elems(e, count, at)})
    {
      hide Ok, Step, EntryOf, At, Next, WellTyped, Parts;
      ghost var n := Elems(e, count, at);
      ghost var s := Now();
      Enter(n);
      ghost var t := Now();
      ElementParts(w.img, w.heap, e, count, at);
      FirstsStart(w, t, n);
      for i := 0 to count
        invariant Valid() && Step(w, t, Now(), Firsts(w, n, i)) && Next(w, n) <= seen
      {
        ghost var u := Now();
        PartSeen(w, n, i);
        ScanValue(e, at + i * e.size);
        NextFirsts(w, n, t, u, Now(), i);
      }
      FirstsAll(w, n);
      LeafStep(w, s, n, Now());
    }

    /** Captured values with their closed types. */
    method ScanCaptures(at: Addr)
      requires Valid() && Object(Environments, at) in seen
      modifies this
      ensures Did({Object(Environments, at)})
    {
      hide Ok, Step, EntryOf, At, Next, WellTyped, Parts;
      ghost var n := Object(Environments, at);
      ghost var s := Now();
      Enter(n);
      ghost var t := Now();
      var count := Max0(At(w.heap, at));
      CaptureParts(w.img, w.heap, at);
      FirstsStart(w, t, n);
      for i := 0 to count
        invariant Valid() && Step(w, t, Now(), Firsts(w, n, i)) && Next(w, n) <= seen
      {
        ghost var u := Now();
        PartSeen(w, n, i);
        EdgeValue(At(w.heap, at + 2 + count + i), at + 2 + i);
        NextFirsts(w, n, t, u, Now(), i);
      }
      FirstsAll(w, n);
      LeafStep(w, s, n, Now());
    }

    /** The payload of a resource, as its table lays it out. */
    method ScanPacket(tag: nat, words: nat, at: Addr)
      requires Valid() && Packet(tag, words, at) in seen
      modifies this
      ensures Did({Packet(tag, words, at)})
    {
      hide Ok, Step;
      if tag == BLAMES {
        ScanBlame(words, at);
      } else if tag == DIAGNOSTICS {
        ScanDiagnostic(words, at);
      } else {
        ScanRow(tag, words, at);
      }
    }

    /** The byte view of a blame. */
    method ScanBlame(words: nat, at: Addr)
      requires Valid() && Packet(BLAMES, words, at) in seen
      modifies this
      ensures Did({Packet(BLAMES, words, at)})
    {
      hide Ok, Step, At, Next, WellTyped;
      ghost var n := Packet(BLAMES, words, at);
      ghost var s := Now();
      BlameNext(w, words, at);
      Enter(n);
      StepRefl(w, Now());
      if At(w.heap, at + 5) == CONTENT_SLICE { EdgeContent(at + 2); }
      LeafStep(w, s, n, Now());
    }

    /** The message of a diagnostic under its closed type, and its subjects. */
    method ScanDiagnostic(words: nat, at: Addr)
      requires Valid() && Packet(DIAGNOSTICS, words, at) in seen
      modifies this
      ensures Did({Packet(DIAGNOSTICS, words, at)})
    {
      hide Ok, Step, EntryOf, At, Next, WellTyped, Max0;
      ghost var n := Packet(DIAGNOSTICS, words, at);
      ghost var s := Now();
      var ty, subjects := At(w.heap, at + 9), 2 * Max0(At(w.heap, at + 6));
      DiagnosticNext(w, words, at);
      Enter(n);
      ghost var message, owned := Ref(EntryOf(w.img, ty), at + 4), Owned(subjects, at + 5);
      ghost var t := Now();
      EdgeValue(ty, at + 4);
      ghost var u := Now();
      StepGrows(w, t, u, {message});
      EdgeStorage(subjects, at + 5);
      StepTrans(w, t, u, Now(), {message}, {owned});
      assert {message} + {owned} == Next(w, n);
      LeafStep(w, s, n, Now());
    }

    /** A row of references with their closed types: operands of a format, cases
        of a test, the value of a debug event; or none. */
    method ScanRow(tag: nat, words: nat, at: Addr)
      requires Valid() && Packet(tag, words, at) in seen && tag != BLAMES && tag != DIAGNOSTICS
      modifies this
      ensures Did({Packet(tag, words, at)})
    {
      hide Ok, Step, EntryOf, At, Next, WellTyped, RowOf;
      ghost var n := Packet(tag, words, at);
      ghost var s := Now();
      Enter(n);
      ghost var t := Now();
      var row := RowOf(w.heap, tag, at);
      assert Parts(w.img, w.heap, n) == RowParts(w.img, w.heap, row, at);
      FirstsStart(w, t, n);
      for i := 0 to row.count
        invariant Valid() && Step(w, t, Now(), Firsts(w, n, i)) && Next(w, n) <= seen
      {
        ghost var u := Now();
        PartSeen(w, n, i);
        EdgeValue(At(w.heap, at + row.types + i), at + row.refs + i);
        NextFirsts(w, n, t, u, Now(), i);
      }
      FirstsAll(w, n);
      LeafStep(w, s, n, Now());
    }

    /** One unit of pending work. */
    method TraceItem(i: Item)
      requires Valid() && NodeOf(w, i) in seen
      modifies this
      ensures Did({NodeOf(w, i)})
    {
      hide Ok, Step, EntryOf, At, Next, WellTyped, Parts, InnerOf;
      match i
      case FullValue(at, ty) => ScanValue(EntryOf(w.img, ty), at);
      case Payload(Boxes, at, _, ty) => ScanValue(EntryOf(w.img, ty), at);
      case Payload(Newtypes, at, _, ty) => ScanValue(InnerOf(w.img, EntryOf(w.img, ty)), at);
      case Payload(Records, at, size, ty) => ScanFields(EntryOf(w.img, ty), size, at);
      case Payload(Arrays, at, size, ty) =>
        var e := EntryOf(w.img, ty);
        ScanElements(e, if e.size == 0 then 0 else size / e.size, at);
      case Payload(Environments, at, _, _) => ScanCaptures(at);
      case ResourcePayload(tag, at, words) => ScanPacket(tag, words, at);
    }

    // ----- roots and the worklist -----------------------------------------------

    /** One published root: its storage, then what its role says about it. */
    method MarkRoot(r: Root)
      requires Valid() && RootHeld(w, r, from.nodes, from.spans) && RootNodes(w, r) <= w.ty.nodes
      modifies this
      ensures Valid() && Grown(w, old(Now()), Now())
      ensures RootHeld(w, r, seen, storage)
    {
      hide Ok, EntryOf, At, Next, WellTyped, Reachable, Size, Waiting, Budget, NodeOf;
      RootsReached(w, from);
      if r.ref != 0 { Span(r.ref); }
      match r
      case RootStorage(_) =>
      case RootValue(p, ty) => MarkValue(p, ty);
      case RootReferences(p, count, ty) => MarkReferences(p, count, ty);
      case RootObject(p, table, size, ty) => QueueItem(Item.Payload(table, p, size, ty));
      case RootResource(p, tag, words) => QueueItem(ResourcePayload(tag, p, words));
    }

    /** Queues storage that a root was found to hold. */
    method QueueItem(item: Item)
      requires Valid() && NodeOf(w, item) in from.nodes && NodeOf(w, item) in w.ty.nodes
      requires item.at != 0 ==> item.at in storage && item.at in from.spans
      modifies this
      ensures Valid() && Grown(w, old(Now()), Now()) && NodeOf(w, item) in seen
    {
      hide Ok, EntryOf, At, Next, WellTyped, Reachable, Size, Waiting, Budget, NodeOf;
      ghost var s := Now();
      RootsReached(w, from);
      PayloadShape(w, item);
      ObjectNotNull(w, blocks, from, s, NodeOf(w, item));
      QueueOk(w, blocks, from, s, item);
      pending := pending + [item];
      seen := seen + {NodeOf(w, item)};
      assert Now() == Queued(w, s, item);
    }

    method MarkReferences(p: Addr, count: nat, ty: int)
      requires Valid() && RootNodes(w, RootReferences(p, count, ty)) <= w.ty.nodes
      requires RootNodes(w, RootReferences(p, count, ty)) <= from.nodes
      modifies this
      ensures Valid() && Grown(w, old(Now()), Now())
      ensures RootNodes(w, RootReferences(p, count, ty)) <= seen
    {
      hide Ok, EntryOf, At, Next, WellTyped, Reachable, Size, Waiting, Budget;
      RootsReached(w, from);
      for i := 0 to count
        invariant Valid() && Grown(w, old(Now()), Now())
        invariant forall k :: 0 <= k < i ==> ReferenceSeen(w, p, k, ty, seen)
      {
        ghost var was := seen;
        ReferenceNode(w, p, count, ty, i);
        MarkValue(At(w.heap, p + i), ty);
        forall k | 0 <= k < i
          ensures ReferenceSeen(w, p, k, ty, seen)
        {
          assert ReferenceSeen(w, p, k, ty, was);
        }
      }
      ReferencesSeen(w, p, count, ty, seen);
    }

    /** A ready demand's value; a failed demand's diagnostic, which is storage of
        its own and is traced like one. */
    method MarkDemand(d: Demand)
      requires Valid() && DemandHeld(w, d, from.nodes, from.spans) && DemandNodes(w, d) <= w.ty.nodes
      modifies this
      ensures Valid() && Grown(w, old(Now()), Now())
      ensures DemandHeld(w, d, seen, storage)
    {
      hide Ok, EntryOf, At, Next, WellTyped, Reachable, Size, Waiting, Budget;
      RootsReached(w, from);
      match d
      case Unready =>
      case Ready(p, ty) => MarkValue(p, ty);
      case Failed(report) =>
        if report.payload != 0 {
          Span(report.payload);
          QueueItem(PayloadItem(DIAGNOSTICS, report));
        }
    }

    /** The buffer of a resource table; of a feedback table also every slot. */
    method MarkTable(tag: nat, buffer: Addr)
      requires Valid() && NotNull(buffer) <= from.spans
      requires Feedback(tag) ==> TableHeld(w, tag, from.nodes, from.ids) && TableNodes(w, tag) <= w.ty.nodes
      modifies this
      ensures Valid() && Grown(w, old(Now()), Now())
      ensures NotNull(buffer) <= storage && (Feedback(tag) ==> TableHeld(w, tag, seen, slots))
    {
      hide Ok, EntryOf, At, Next, WellTyped, Reachable, Size, Waiting, Budget, Cells, Visitable, SlotReached,
           PayloadSeen;
      if buffer != 0 { Span(buffer); }
      if Feedback(tag) {
        ghost var s := Now();
        for id := 0 to |Cells(w.heap, tag)|
          invariant Valid() && Grown(w, s, Now())
          invariant forall k :: 0 <= k < id ==> SlotMarked(w, tag, k, seen, slots)
        {
          ghost var t := Now();
          FeedbackVisitable(w, from, tag, id);
          MarkSlot(tag, id);
          MarkedGrows(w, tag, id, t, Now());
        }
        TableMarked(w, tag, seen, slots);
      }
    }

    /** Every root is seen, and every span and slot that is a root recorded. */
    method MarkRoots(r: Roots)
      requires Valid() && open == {} && from == StartOf(w, r) && from.nodes <= w.ty.nodes
      requires |r.buffers| == TABLE_COUNT
      modifies this
      ensures Valid() && open == {}
      ensures from.nodes <= seen && from.spans <= storage && from.ids <= slots
    {
      hide Ok, EntryOf, At, Next, WellTyped, Reachable, Size, Waiting, Budget, StartOf, RootHeld, DemandHeld,
           TableHeld, NotNull, TableNodes, DemandNodes, RootNodes;
      StartHolds(w, r);
      StartTyped(w, r);
      for i := 0 to |r.published|
        invariant Valid() && open == {}
        invariant forall k :: 0 <= k < i ==> RootHeld(w, r.published[k], seen, storage)
      {
        ghost var t := Now();
        MarkRoot(r.published[i]);
        RootsGrow(w, r.published[..i], t, Now());
      }
      ghost var afterRoots := Now();
      for i := 0 to |r.demands|
        invariant Valid() && open == {} && Grown(w, afterRoots, Now())
        invariant forall k :: 0 <= k < i ==> DemandHeld(w, r.demands[k], seen, storage)
      {
        ghost var t := Now();
        MarkDemand(r.demands[i]);
        DemandsGrow(w, r.demands[..i], t, Now());
      }
      ghost var afterDemands := Now();
      for tag := 0 to TABLE_COUNT
        invariant Valid() && open == {} && Grown(w, afterDemands, Now())
        invariant forall k :: 0 <= k < tag ==> BufferHeld(w, k, r.buffers[k], seen, storage, slots)
      {
        ghost var t := Now();
        MarkTable(tag, r.buffers[tag]);
        BuffersGrow(w, r.buffers[..tag], t, Now());
      }
      RootsGrow(w, r.published, afterRoots, Now());
      DemandsGrow(w, r.demands, afterDemands, Now());
      BuffersAll(w, r.buffers, seen, storage, slots);
      StartCovered(w, r, seen, storage, slots);
    }

    /** Discovery: exactly what is reachable from the roots, the demands and the
        feedback is seen, exactly the slots that are reached are recorded, and
        every block that holds some of it is pinned. */
    method Trace(r: Roots)
      requires Valid() && open == {} && pending == [] && from == StartOf(w, r) && from.nodes <= w.ty.nodes
      requires |r.buffers| == TABLE_COUNT
      modifies this
      ensures Valid() && pending == [] && Traced(w, blocks, from, Now())
    {
      hide Ok, EntryOf, At, Next, WellTyped, Reachable, Size, Waiting, Budget, StartOf, RootNodes, NodeOf, Step, Traced;
      MarkRoots(r);
      while pending != []
        invariant Valid() && open == {} && from.nodes <= seen && from.spans <= storage && from.ids <= slots
        decreases Budget(w, Now()), |pending|
      {
        ghost var s := Now();
        var item := pending[|pending| - 1];
        PayloadShape(w, item);
        PopOk(w, blocks, from, s);
        pending := pending[..|pending| - 1];
        open := open + {NodeOf(w, item)};
        ghost var t := Now();
        assert t == Popped(w, s);
        TraceItem(item);
        PopStep(w, s, t, Now(), NodeOf(w, item));
      }
      TraceDone(w, blocks, from, Now());
    }
  }

  // ----- growing --------------------------------------------------------------

  /** Marking roots forgets nothing. */
  ghost predicate Grown(w: World, s: Marks, t: Marks) {
    t.open <= s.open && s.seen <= t.seen && s.storage <= t.storage && s.slots <= t.slots
  }

  ghost predicate SlotMarked(w: World, tag: nat, id: int, seen: set<Node>, slots: set<(nat, int)>) {
    (tag, id) in slots && (HasCell(w.heap, tag, id) ==> PacketOf(tag, Cells(w.heap, tag)[id]) in seen)
  }

  ghost predicate BufferHeld(w: World, tag: nat, buffer: Addr, seen: set<Node>, storage: set<Addr>,
                             slots: set<(nat, int)>) {
    NotNull(buffer) <= storage && (Feedback(tag) ==> TableHeld(w, tag, seen, slots))
  }

  lemma RootsGrow(w: World, ps: seq<Root>, s: Marks, t: Marks)
    requires Grown(w, s, t) && forall k :: 0 <= k < |ps| ==> RootHeld(w, ps[k], s.seen, s.storage)
    ensures forall k :: 0 <= k < |ps| ==> RootHeld(w, ps[k], t.seen, t.storage)
  {
    hide RootNodes;
    forall k | 0 <= k < |ps|
      ensures RootHeld(w, ps[k], t.seen, t.storage)
    {
      assert RootHeld(w, ps[k], s.seen, s.storage);
    }
  }

  lemma DemandsGrow(w: World, ds: seq<Demand>, s: Marks, t: Marks)
    requires Grown(w, s, t) && forall k :: 0 <= k < |ds| ==> DemandHeld(w, ds[k], s.seen, s.storage)
    ensures forall k :: 0 <= k < |ds| ==> DemandHeld(w, ds[k], t.seen, t.storage)
  {
    hide DemandNodes, DemandSpans;
    forall k | 0 <= k < |ds|
      ensures DemandHeld(w, ds[k], t.seen, t.storage)
    {
      assert DemandHeld(w, ds[k], s.seen, s.storage);
    }
  }

  lemma BuffersGrow(w: World, bs: seq<Addr>, s: Marks, t: Marks)
    requires Grown(w, s, t) && forall k :: 0 <= k < |bs| ==> BufferHeld(w, k, bs[k], s.seen, s.storage, s.slots)
    ensures forall k :: 0 <= k < |bs| ==> BufferHeld(w, k, bs[k], t.seen, t.storage, t.slots)
  {
    hide TableNodes, TableIds;
    forall k | 0 <= k < |bs|
      ensures BufferHeld(w, k, bs[k], t.seen, t.storage, t.slots)
    {
      assert BufferHeld(w, k, bs[k], s.seen, s.storage, s.slots);
    }
  }

  lemma BuffersAll(w: World, bs: seq<Addr>, seen: set<Node>, storage: set<Addr>, slots: set<(nat, int)>)
    requires |bs| == TABLE_COUNT && forall k :: 0 <= k < |bs| ==> BufferHeld(w, k, bs[k], seen, storage, slots)
    ensures forall b :: b in bs ==> NotNull(b) <= storage
    ensures TableHeld(w, DIAGNOSTICS, seen, slots) && TableHeld(w, DEBUG_EVENTS, seen, slots)
  {
    hide TableHeld;
    assert BufferHeld(w, DIAGNOSTICS, bs[DIAGNOSTICS], seen, storage, slots);
    assert BufferHeld(w, DEBUG_EVENTS, bs[DEBUG_EVENTS], seen, storage, slots);
    forall b | b in bs
      ensures NotNull(b) <= storage
    {
      var k :| 0 <= k < |bs| && bs[k] == b;
      assert BufferHeld(w, k, bs[k], seen, storage, slots);
    }
  }

  /** The roots are typed one by one. */
  lemma StartTyped(w: World, r: Roots)
    requires StartOf(w, r).nodes <= w.ty.nodes
    ensures forall i :: 0 <= i < |r.published| ==> RootNodes(w, r.published[i]) <= w.ty.nodes
    ensures forall i :: 0 <= i < |r.demands| ==> DemandNodes(w, r.demands[i]) <= w.ty.nodes
    ensures forall tag: nat :: Feedback(tag) ==> TableNodes(w, tag) <= w.ty.nodes
  {
    hide RootNodes, DemandNodes, TableNodes;
    StartHolds(w, r);
    forall i | 0 <= i < |r.published|
      ensures RootNodes(w, r.published[i]) <= w.ty.nodes
    {
      assert RootHeld(w, r.published[i], StartOf(w, r).nodes, StartOf(w, r).spans);
    }
    forall i | 0 <= i < |r.demands|
      ensures DemandNodes(w, r.demands[i]) <= w.ty.nodes
    {
      assert DemandHeld(w, r.demands[i], StartOf(w, r).nodes, StartOf(w, r).spans);
    }
  }

  // ----- resource slots -------------------------------------------------------

  lemma VisitableCell(w: World, from: Start, tag: nat, id: int)
    requires Visitable(w, from, tag, id)
    ensures HasCell(w.heap, tag, id)
  {
    hide Reachable, SlotReached, Cells;
  }

  lemma SlotVisitedShape(w: World, m: Marks, tag: nat, id: int)
    requires HasCell(w.heap, tag, id)
    ensures var c := Cells(w.heap, tag)[id];
      SlotVisited(w, m, tag, id) ==
        if tag == REGEXES then m.(slots := m.slots + {(tag, id)})
        else m.(slots := m.slots + {(tag, id)}, seen := m.seen + {PacketOf(tag, c)}, storage := m.storage + {c.payload},
                pending := m.pending + [PayloadItem(tag, c)])
  {
    hide Cells;
  }

  /** What a resource slot names may be visited. */
  lemma SlotVisitable(w: World, blocks: set<set<Addr>>, from: Start, m: Marks, n: Node)
    requires Ok(w, blocks, from, m) && n in m.seen && n.Slot?
    ensures Visitable(w, from, n.tag, At(w.heap, n.at))
  {
    hide Ok, WellTyped, Reachable, At, Cells, ReachedIn;
    SeenNode(w, blocks, from, m, n);
    NodeFits(w, n);
    NextTyped(w, n);
    var id := At(w.heap, n.at);
    assert HasCell(w.heap, n.tag, id);
    assert SlotKey(w, n) == (n.tag, id);
    if n.tag != REGEXES {
      var p := PacketOf(n.tag, Cells(w.heap, n.tag)[id]);
      assert p in Next(w, n);
      ReachStep(w, from.nodes, n, p);
    }
  }

  lemma ResourceClosed(w: World, s: Marks, t: Marks, n: Node)
    requires n in s.seen && n.Slot? && Step(w, s, t, {})
    requires SlotKey(w, n) in t.slots && PayloadSeen(w, t.seen, n.tag, At(w.heap, n.at))
    ensures n in t.seen && Next(w, n) <= t.seen
  {
    hide Budget, At, Cells;
  }

  /** What a slot owns is typed and reachable. */
  lemma BelongingsReached(w: World, blocks: set<set<Addr>>, from: Start, m: Marks, n: Node)
    requires Ok(w, blocks, from, m) && n in m.seen && n.Owned?
    ensures n.words == 0 ==> Next(w, n) == {}
    ensures n.words != 0 ==>
      var b := Blob(n.words, At(w.heap, n.at));
      b in w.ty.nodes && Reachable(w, from.nodes, b) && Next(w, n) == {b} && At(w.heap, n.at) > 0
  {
    hide Ok, WellTyped, Reachable, At;
    SeenNode(w, blocks, from, m, n);
    NextTyped(w, n);
    if n.words != 0 {
      var b := Blob(n.words, At(w.heap, n.at));
      assert b in Next(w, n);
      ReachStep(w, from.nodes, n, b);
      NodeFits(w, b);
    }
  }

  lemma BlameNext(w: World, words: nat, at: Addr)
    ensures Next(w, Packet(BLAMES, words, at)) ==
      if At(w.heap, at + 5) == CONTENT_SLICE then {Raw(at + 2)} else {}
  {
    hide At, PartSet;
    var n := Packet(BLAMES, words, at);
    if At(w.heap, at + 5) == CONTENT_SLICE { OnlyPart(w, n, Raw(at + 2)); } else { NoPart(w, n); }
  }

  lemma DiagnosticNext(w: World, words: nat, at: Addr)
    ensures Next(w, Packet(DIAGNOSTICS, words, at)) ==
      {Ref(EntryOf(w.img, At(w.heap, at + 9)), at + 4), Owned(2 * Max0(At(w.heap, at + 6)), at + 5)}
  {
    hide At, EntryOf, Max0;
    var ps := Parts(w.img, w.heap, Packet(DIAGNOSTICS, words, at));
    assert ps[0] in PartSet(w, Packet(DIAGNOSTICS, words, at));
    assert ps[1] in PartSet(w, Packet(DIAGNOSTICS, words, at));
  }

  lemma FeedbackVisitable(w: World, from: Start, tag: nat, id: nat)
    requires Feedback(tag) && TableHeld(w, tag, from.nodes, from.ids) && TableNodes(w, tag) <= w.ty.nodes
    requires id < |Cells(w.heap, tag)|
    ensures Visitable(w, from, tag, id)
  {
    hide Cells, Reachable;
    assert (tag, id as int) in TableIds(w, tag);
    assert PacketOf(tag, Cells(w.heap, tag)[id]) in TableNodes(w, tag);
    ReachRoot(w, from.nodes, PacketOf(tag, Cells(w.heap, tag)[id]));
  }

  lemma MarkedGrows(w: World, tag: nat, id: nat, s: Marks, t: Marks)
    requires Feedback(tag) && s.seen <= t.seen && s.slots <= t.slots
    requires forall k :: 0 <= k < id ==> SlotMarked(w, tag, k, s.seen, s.slots)
    requires (tag, id as int) in t.slots && PayloadSeen(w, t.seen, tag, id)
    ensures forall k :: 0 <= k < id + 1 ==> SlotMarked(w, tag, k, t.seen, t.slots)
  {
    hide Cells;
    forall k | 0 <= k < id + 1
      ensures SlotMarked(w, tag, k, t.seen, t.slots)
    {
      assert k < id ==> SlotMarked(w, tag, k, s.seen, s.slots);
    }
  }

  lemma TableMarked(w: World, tag: nat, seen: set<Node>, slots: set<(nat, int)>)
    requires forall k :: 0 <= k < |Cells(w.heap, tag)| ==> SlotMarked(w, tag, k, seen, slots)
    ensures TableHeld(w, tag, seen, slots)
  {
    hide Cells;
    forall n | n in TableNodes(w, tag)
      ensures n in seen
    {
      var id :| 0 <= id < |Cells(w.heap, tag)| && n == PacketOf(tag, Cells(w.heap, tag)[id]);
      assert SlotMarked(w, tag, id, seen, slots);
    }
    forall k | k in TableIds(w, tag)
      ensures k in slots
    {
      assert SlotMarked(w, tag, k.1, seen, slots);
    }
  }

  // ----- shapes ---------------------------------------------------------------

  lemma SpanOk(w: World, blocks: set<set<Addr>>, from: Start, m: Marks, ref: Addr)
    requires Ok(w, blocks, from, m) && ref in from.spans
    ensures Ok(w, blocks, from, m.(storage := m.storage + {ref}))
    ensures Step(w, m, m.(storage := m.storage + {ref}), {})
  {
    hide WellTyped, Housed, Waiting, Reachable, Next, Size, EntryOf, Budget;
    GrowPinned(blocks, m.storage, m.storage + {ref});
  }

  lemma ValueVisitedShape(w: World, m: Marks, p: Addr, ty: int)
    ensures ValueVisited(w, m, p, ty) == m.(
      seen := m.seen + {Value(EntryOf(w.img, ty), p)}, storage := m.storage + {p},
      values := m.values + {(p, ty)}, pending := m.pending + [FullValue(p, ty)])
  {
    hide EntryOf;
  }

  lemma ObjectVisitedShape(w: World, m: Marks, table: Table, id: Addr, ty: int)
    ensures var i := PayloadOf(w, table, id, ty);
      i.Payload? && ObjectVisited(w, m, table, id, ty) == m.(
        seen := m.seen + {Object(table, id), NodeOf(w, i)},
        storage := m.storage + {id} + (if i.size != 0 then {i.at} else {}),
        objects := m.objects + {(table, id)}, pending := m.pending + [i])
  {
    hide NodeOf, At;
  }

  lemma ClosedShape(m: Marks, n: Node)
    ensures Closed(m, n) == m.(open := m.open - {n})
  {
  }

  lemma ViewPinnedShape(w: World, m: Marks, n: Node)
    ensures ViewPinned(w, m, n) == m.(
      open := m.open - {n}, storage := m.storage + if At(w.heap, n.at) != 0 then {At(w.heap, n.at)} else {})
  {
    hide At;
  }

  lemma StepRefl(w: World, m: Marks)
    ensures Step(w, m, m, {})
  {
    hide Budget;
  }

  lemma ListedValue(w: World, blocks: set<set<Addr>>, from: Start, m: Marks, p: Addr, ty: int)
    requires Ok(w, blocks, from, m) && (p, ty) in m.values
    ensures Value(EntryOf(w.img, ty), p) in m.seen
  {
    hide WellTyped, Housed, Sound, Tracked, Anchored, EntryOf, Waiting;
  }

  lemma ListedObject(w: World, blocks: set<set<Addr>>, from: Start, m: Marks, table: Table, id: Addr)
    requires Ok(w, blocks, from, m) && (table, id) in m.objects
    ensures Object(table, id) in m.seen
  {
    hide WellTyped, Housed, Sound, Tracked, Anchored, EntryOf, Waiting;
  }

  lemma SeenNode(w: World, blocks: set<set<Addr>>, from: Start, m: Marks, n: Node)
    requires Ok(w, blocks, from, m) && n in m.seen
    ensures WellTyped(w) && n in w.ty.nodes && n.at >= NULL_ORIGIN && Reachable(w, from.nodes, n)
  {
    hide Housed, Anchored, Visited, Typed, Waiting, Next, Reachable, Justified;
  }

  /** What a slot designates is typed and reachable. */
  lemma TargetReached(w: World, blocks: set<set<Addr>>, from: Start, m: Marks, n: Node)
    requires Ok(w, blocks, from, m) && n in m.seen && (n.Ref? || n.Handle?)
    ensures At(w.heap, n.at) >= NULL_ORIGIN ==>
      var t := if n.Ref? then Value(n.e, At(w.heap, n.at)) else Object(n.table, At(w.heap, n.at));
      t in w.ty.nodes && Reachable(w, from.nodes, t) && Next(w, n) == {t}
    ensures At(w.heap, n.at) < NULL_ORIGIN ==> Next(w, n) == {}
  {
    hide Ok, WellTyped, Reachable, At;
    SeenNode(w, blocks, from, m, n);
    NextTyped(w, n);
    if At(w.heap, n.at) >= NULL_ORIGIN {
      var t := if n.Ref? then Value(n.e, At(w.heap, n.at)) else Object(n.table, At(w.heap, n.at));
      assert t in Next(w, n);
      ReachStep(w, from.nodes, n, t);
    }
  }

  lemma SlotClosed(w: World, s: Marks, t: Marks, n: Node)
    requires n in s.seen && (n.Ref? || n.Handle?) && Step(w, s, t, {})
    requires At(w.heap, n.at) >= NULL_ORIGIN ==>
      (if n.Ref? then Value(n.e, At(w.heap, n.at)) else Object(n.table, At(w.heap, n.at))) in t.seen
    ensures n in t.seen && Next(w, n) <= t.seen
  {
    hide Budget, At;
  }

  // ----- descending into inline payloads --------------------------------------

  /** The scan of `first` has come down to `n` and changed nothing else. */
  ghost predicate Descended(s: Marks, t: Marks, first: Node, n: Node) {
    && t == s.(seen := t.seen, open := t.open)
    && s.seen <= t.seen && t.open - {n} <= s.open - {first}
  }

  lemma DescendRefl(s: Marks, first: Node)
    ensures Descended(s, s, first, first)
  {
  }

  lemma DescendTo(w: World, s: Marks, t: Marks, first: Node, n: Node, p: Node)
    requires Descended(s, t, first, n) && Next(w, n) == {p}
    ensures Descended(s, Entered(w, t, n), first, p)
  {
    hide Next;
  }

  lemma DescendLast(w: World, s: Marks, t: Marks, first: Node, n: Node, now: Marks)
    requires Descended(s, t, first, n) && Next(w, n) == {} && now == Entered(w, t, n)
    ensures Step(w, s, now, {first})
  {
    hide Next, Budget;
    SameBudget(w, s, now);
  }

  lemma DescendDone(w: World, s: Marks, t: Marks, first: Node, n: Node, now: Marks)
    requires Descended(s, t, first, n) && Step(w, t, now, {n})
    ensures Step(w, s, now, {first})
  {
    hide Next, Budget;
    SameBudget(w, s, t);
  }

  lemma StepGrows(w: World, s: Marks, t: Marks, done: set<Node>)
    requires Step(w, s, t, done)
    ensures s.seen <= t.seen
  {
    hide Budget;
  }

  // ----- successors by kind ---------------------------------------------------

  lemma DataValid(w: World, n: Node)
    requires WellTyped(w) && n in w.ty.nodes && n.Data?
    ensures n.e.size >= HEADER && ValidData(w.img, w.heap, n.e, n.at)
    ensures n.e.layout.Enum? ==> n.e.size >= HEADER + 2 && 0 <= At(w.heap, n.at) < |n.e.layout.variants|
    ensures n.e.layout.Dyn? ==> n.e.size == HEADER + 6
    ensures Packed(w.heap, DataParts(w.img, w.heap, n.e, n.at), n.at, n.at + (n.e.size - HEADER))
  {
    hide WellTyped, At, EntryOf, Packed, DataParts;
    NodeFits(w, n);
  }

  lemma NoPart(w: World, n: Node)
    requires Parts(w.img, w.heap, n) == []
    ensures PartSet(w, n) == {}
  {
    hide Parts;
  }

  lemma ValueNext(w: World, e: Entry, at: Addr)
    ensures Next(w, Value(e, at)) == if e.size == HEADER then {} else {Data(e, at + HEADER)}
  {
    hide PartSet;
    var n := Value(e, at);
    if e.size == HEADER { NoPart(w, n); } else { OnlyPart(w, n, Data(e, at + HEADER)); }
  }

  /** Data with no part, or with exactly one. */
  lemma DataNext(w: World, e: Entry, at: Addr)
    ensures DataParts(w.img, w.heap, e, at) == [] ==> Next(w, Data(e, at)) == {}
    ensures forall p :: DataParts(w.img, w.heap, e, at) == [p] ==> Next(w, Data(e, at)) == {p}
  {
    hide PartSet, DataParts;
    var n := Data(e, at);
    if DataParts(w.img, w.heap, e, at) == [] { NoPart(w, n); }
    forall p | DataParts(w.img, w.heap, e, at) == [p]
      ensures Next(w, n) == {p}
    {
      OnlyPart(w, n, p);
    }
  }

  lemma EnumNext(w: World, e: Entry, at: Addr)
    requires e.layout.Enum? && InlinePayload(w.heap, e, at)
    requires Packed(w.heap, DataParts(w.img, w.heap, e, at), at, at + (e.size - HEADER))
    ensures var payload := EntryOf(w.img, e.layout.variants[At(w.heap, at)].ty);
      Next(w, Data(e, at)) == {Value(payload, at + 2)} && payload.size < e.size
  {
    hide Next, At, EntryOf;
    DataNext(w, e, at);
    var p := Value(EntryOf(w.img, e.layout.variants[At(w.heap, at)].ty), at + 2);
    assert DataParts(w.img, w.heap, e, at) == [p];
    assert [p][0] == p;
    assert p.at + Size(w.heap, p) <= at + (e.size - HEADER);
  }

  lemma DynNext(w: World, e: Entry, at: Addr)
    requires e.layout.Dyn? && At(w.heap, at + 1) != 1 && e.size == HEADER + 6
    requires Packed(w.heap, DataParts(w.img, w.heap, e, at), at, at + (e.size - HEADER))
    ensures var payload := EntryOf(w.img, At(w.heap, at));
      Next(w, Data(e, at)) == (if payload.size == HEADER then {} else {Data(payload, at + 2)}) && payload.size < e.size
  {
    hide Next, At, EntryOf;
    DataNext(w, e, at);
    var payload := EntryOf(w.img, At(w.heap, at));
    var p := Data(payload, at + 2);
    if payload.size != HEADER {
      assert DataParts(w.img, w.heap, e, at) == [p];
      assert [p][0] == p;
      assert p.at + Size(w.heap, p) <= at + (e.size - HEADER);
    }
  }

  lemma InlineNext(w: World, e: Entry, at: Addr)
    requires e.layout.InlineRecord?
    ensures var fields := e.layout.fields;
      && (forall k :: 0 <= k < |fields| ==>
            Value(EntryOf(w.img, fields[k].ty), at + 2 + fields[k].offset) in Next(w, Data(e, at)))
      && (forall p :: p in Next(w, Data(e, at)) ==>
            exists k :: 0 <= k < |fields| && p == Value(EntryOf(w.img, fields[k].ty), at + 2 + fields[k].offset))
  {
    hide EntryOf, At, Parts;
    var fields, n := e.layout.fields, Data(e, at);
    InlineParts(w.img, w.heap, e, at);
    forall k | 0 <= k < |fields|
      ensures Value(EntryOf(w.img, fields[k].ty), at + 2 + fields[k].offset) in Next(w, n)
    {
      assert Parts(w.img, w.heap, n)[k] in PartSet(w, n);
    }
  }

  lemma DictNext(w: World, e: Entry, at: Addr)
    requires e.layout.Dict?
    ensures Next(w, Data(e, at)) == {Handle(Arrays, at), Handle(Arrays, at + 2)}
  {
    var ps := Parts(w.img, w.heap, Data(e, at));
    assert ps == [Handle(Arrays, at), Handle(Arrays, at + 2)];
    assert ps[0] == Handle(Arrays, at) && ps[1] == Handle(Arrays, at + 2);
  }

  lemma SlotNext(w: World, e: Entry, at: Addr)
    requires !e.layout.InlineRecord? && !e.layout.Dict?
    requires e.layout.Enum? ==> 0 <= At(w.heap, at) < |e.layout.variants| && !InlinePayload(w.heap, e, at)
    requires e.layout.Dyn? ==> At(w.heap, at + 1) == 1
    ensures Next(w, Data(e, at)) == SlotOf(w, e, at)
  {
    hide Next, At, EntryOf;
    DataNext(w, e, at);
    var kind := At(w.heap, at + 3);
    assert e.layout.Content? && kind == CONTENT_SLICE ==> DataParts(w.img, w.heap, e, at) == [Raw(at)];
    assert e.layout.Array? && kind == ARRAY_SINGLE ==>
      DataParts(w.img, w.heap, e, at) == [Ref(EntryOf(w.img, e.layout.elem), at)];
  }

  /** The slot of data that has at most one. */
  function SlotOf(w: World, e: Entry, at: Addr): set<Node> {
    match e.layout
    case Content => if At(w.heap, at + 3) == CONTENT_SLICE then {Raw(at)} else {}
    case Record(_) => {Handle(Records, at)}
    case Array(elem) =>
      if At(w.heap, at + 3) == ARRAY_SINGLE then {Ref(EntryOf(w.img, elem), at)}
      else if At(w.heap, at + 3) == ARRAY_SLICE then {Handle(Arrays, at)}
      else {}
    case Enum(variants) =>
      var tag := At(w.heap, at);
      if 0 <= tag < |variants| && variants[tag].Payload? then {Handle(Boxes, at + 2)} else {}
    case Dyn => {Handle(Boxes, at + 2)}
    case Function => if At(w.heap, at + 1) == 0 then {} else {Handle(Environments, at + 1)}
    case Newtype(_) => {Handle(Newtypes, at)}
    case Resource(tag) => {Slot(tag, at)}
    case _ => {}
  }

  // ----- consecutive parts ----------------------------------------------------

  ghost function Firsts(w: World, n: Node, i: nat): set<Node>
    requires i <= |Parts(w.img, w.heap, n)|
  {
    set p | p in Parts(w.img, w.heap, n)[..i]
  }

  lemma FirstsStart(w: World, m: Marks, n: Node)
    ensures Step(w, m, m, Firsts(w, n, 0))
  {
    hide Parts, Budget;
  }

  lemma FirstsAll(w: World, n: Node)
    requires n.Fields? || n.Elems? || n.Packet? || (n.Object? && n.table == Environments)
    ensures Next(w, n) == Firsts(w, n, |Parts(w.img, w.heap, n)|)
  {
    hide Parts;
    var ps := Parts(w.img, w.heap, n);
    assert ps[..|ps|] == ps;
  }

  lemma PartSeen(w: World, n: Node, i: nat)
    requires n.Fields? || n.Elems? || n.Packet? || (n.Object? && n.table == Environments)
    requires i < |Parts(w.img, w.heap, n)|
    ensures Parts(w.img, w.heap, n)[i] in Next(w, n)
  {
    hide Parts;
  }

  lemma NextFirsts(w: World, n: Node, s: Marks, t: Marks, u: Marks, i: nat)
    requires i < |Parts(w.img, w.heap, n)| && Step(w, s, t, Firsts(w, n, i))
    requires Step(w, t, u, {Parts(w.img, w.heap, n)[i]})
    ensures Step(w, s, u, Firsts(w, n, i + 1)) && t.seen <= u.seen
  {
    hide Parts, Step;
    var ps := Parts(w.img, w.heap, n);
    StepTrans(w, s, t, u, Firsts(w, n, i), {ps[i]});
    StepGrows(w, t, u, {ps[i]});
    assert ps[..i + 1] == ps[..i] + [ps[i]];
    assert Firsts(w, n, i + 1) == Firsts(w, n, i) + {ps[i]};
  }

  /** A successor of a seen node is typed, reachable and not null. */
  lemma PartReached(w: World, blocks: set<set<Addr>>, from: Start, m: Marks, n: Node, p: Node)
    requires Ok(w, blocks, from, m) && n in m.seen && p in Next(w, n)
    ensures p in w.ty.nodes && p.at >= NULL_ORIGIN && Reachable(w, from.nodes, p)
  {
    hide Ok, Next, Reachable, Typed;
    SeenNode(w, blocks, from, m, n);
    NextTyped(w, n);
    ReachStep(w, from.nodes, n, p);
  }

  // ----- roots ------------------------------------------------------------------

  lemma RootsReached(w: World, from: Start)
    ensures forall n :: n in from.nodes ==> Reachable(w, from.nodes, n)
  {
    hide Reachable;
    forall n | n in from.nodes
      ensures Reachable(w, from.nodes, n)
    {
      ReachRoot(w, from.nodes, n);
    }
  }

  lemma PayloadShape(w: World, i: Item)
    ensures !NodeOf(w, i).Raw? && !NodeOf(w, i).Slot? && NodeOf(w, i).at == i.at
  {
    hide EntryOf, InnerOf;
  }

  lemma ObjectNotNull(w: World, blocks: set<set<Addr>>, from: Start, m: Marks, n: Node)
    requires Ok(w, blocks, from, m) && n in w.ty.nodes
    ensures n.at > 0
  {
    hide Housed, Sound, Tracked, Anchored, Visited, Typed;
  }

  lemma ReferenceNode(w: World, p: Addr, count: nat, ty: int, i: nat)
    requires i < count
    ensures At(w.heap, p + i) >= NULL_ORIGIN ==>
      Value(EntryOf(w.img, ty), At(w.heap, p + i)) in RootNodes(w, RootReferences(p, count, ty))
  {
    hide EntryOf, At;
    assert WordsAt(w.heap, p, count)[i] == At(w.heap, p + i);
    assert At(w.heap, p + i) in WordsAt(w.heap, p, count);
  }

  ghost predicate ReferenceSeen(w: World, p: Addr, k: nat, ty: int, seen: set<Node>) {
    At(w.heap, p + k) >= NULL_ORIGIN ==> Value(EntryOf(w.img, ty), At(w.heap, p + k)) in seen
  }

  lemma ReferencesSeen(w: World, p: Addr, count: nat, ty: int, seen: set<Node>)
    requires forall k :: 0 <= k < count ==> ReferenceSeen(w, p, k, ty, seen)
    ensures RootNodes(w, RootReferences(p, count, ty)) <= seen
  {
    hide EntryOf, At;
    forall n | n in RootNodes(w, RootReferences(p, count, ty))
      ensures n in seen
    {
      var q :| q in WordsAt(w.heap, p, count) && q >= NULL_ORIGIN && n == Value(EntryOf(w.img, ty), q);
      var k :| 0 <= k < count && WordsAt(w.heap, p, count)[k] == q;
      assert ReferenceSeen(w, p, k, ty, seen);
    }
  }

  lemma PopStep(w: World, s: Marks, t: Marks, u: Marks, n: Node)
    requires s.pending != [] && t == s.(pending := s.pending[..|s.pending| - 1], open := {n})
    requires Step(w, t, u, {n})
    ensures u.open == {} && s.seen <= u.seen && s.storage <= u.storage && s.slots <= u.slots
    ensures Budget(w, u) < Budget(w, s) || (Budget(w, u) == Budget(w, s) && |u.pending| < |s.pending|)
  {
    hide Budget;
    SameBudget(w, s, t);
    SameBudget(w, t, u);
  }

  // ----- reclaiming -------------------------------------------------------------

  /** Word addresses of a block; references are in words, blocks in bytes. */
  const WORD_BYTES := 4

  predicate WordIn(b: DirectHeap.Block, a: Addr) {
    a >= 0 && DirectHeap.Holds(b, WORD_BYTES * a)
  }

  function WordsOf(b: DirectHeap.Block): (ws: set<Addr>)
    ensures forall a :: a in ws <==> WordIn(b, a)
  {
    var ws := set a: int | 0 <= a < b.address + b.bytes && WordIn(b, a);
    ws
  }

  function BlockWords(blocks: set<DirectHeap.Block>): set<set<Addr>> {
    set b | b in blocks :: WordsOf(b)
  }

  /** Something reachable, or a storage root, lies in the block. */
  ghost predicate Live(w: World, from: Start, b: DirectHeap.Block) {
    exists a :: WordIn(b, a) && Justified(w, from, a)
  }

  ghost predicate Survives(w: World, from: Start, blocks: set<DirectHeap.Block>, b: DirectHeap.Block) {
    b in blocks && Live(w, from, b)
  }

  /** How often a collection releases a block. */
  ghost function Releases(w: World, from: Start, blocks: set<DirectHeap.Block>, b: DirectHeap.Block): nat {
    if b in blocks && !Live(w, from, b) then 1 else 0
  }

  /** All managed blocks lie in the dynamic part of the address space, and every
      dynamic address that is in use lies in one of them. */
  ghost predicate Managed(w: World, from: Start, blocks: set<DirectHeap.Block>, origin: nat, top: nat) {
    && Housed(w, BlockWords(blocks))
    && (forall b :: b in blocks ==> origin <= b.address && b.address + b.bytes <= top)
    && (forall a :: Justified(w, from, a) ==> a >= 0)
    && (forall a :: Justified(w, from, a) && origin <= WORD_BYTES * a < top ==> exists b :: b in blocks && WordIn(b, a))
  }

  /** The held slots of a table that something reaches, under their numbers. */
  ghost function LiveSlots(w: World, from: Start, tag: nat, held: map<nat, ResourceTables.Slot>)
    : map<nat, ResourceTables.Slot>
  {
    map id | id in held && SlotReached(w, from, tag, id) :: held[id]
  }

  /** The slots of a table as they lie in its buffer. */
  ghost predicate Pictured(w: World, tag: nat, slots: seq<ResourceTables.Slot>) {
    && |slots| == |Cells(w.heap, tag)|
    && forall id :: 0 <= id < |slots| ==> slots[id].payload == WORD_BYTES * Cells(w.heap, tag)[id].payload
  }

  ghost predicate TablesPictured(w: World, tables: seq<ResourceTables.Table>)
    reads tables
  {
    && |tables| == TABLE_COUNT && (forall tag :: tag in w.heap.tables ==> tag < TABLE_COUNT)
    && (forall i, j :: 0 <= i < j < |tables| ==> tables[i] != tables[j])
    && (forall tag :: 0 <= tag < |tables| ==> tables[tag].Valid() && Pictured(w, tag, tables[tag].slots))
  }

  ghost function SlotsOf(tables: seq<ResourceTables.Table>): (s: seq<seq<ResourceTables.Slot>>)
    reads tables
    ensures |s| == |tables| && forall tag :: 0 <= tag < |s| ==> s[tag] == tables[tag].slots
  {
    if tables == [] then [] else [tables[0].slots] + SlotsOf(tables[1..])
  }

  /** The payloads of held slots lie in blocks that were retained. */
  ghost predicate PayloadsRetained(was: set<DirectHeap.Block>, blocks: set<DirectHeap.Block>,
                                   slots: seq<ResourceTables.Slot>) {
    forall id, b :: id in ResourceTables.Held(slots) && b in was && DirectHeap.Holds(b, slots[id].payload) ==>
      b in blocks
  }

  /** So do the buffers of the tables. */
  ghost predicate BuffersRetained(was: set<DirectHeap.Block>, blocks: set<DirectHeap.Block>, buffers: seq<Addr>) {
    forall tag, b :: 0 <= tag < |buffers| && buffers[tag] != 0 && b in was && WordIn(b, buffers[tag]) ==> b in blocks
  }

  /** Each owned resource that was held and that nothing reaches is freed, once. */
  ghost predicate OwnedFreed(w: World, from: Start, held: map<nat, ResourceTables.Slot>, freed: seq<nat>) {
    && ResourceTables.Increasing(freed)
    && forall id :: id in freed <==> id in held && !SlotReached(w, from, REGEXES, id)
  }

  // ----- what readers of the roots can rely on ---------------------------------------

  /** A block is left exactly if a root or something in use needs it. */
  ghost predicate UsedBlocksLeft(w: World, r: Roots, was: set<DirectHeap.Block>, blocks: set<DirectHeap.Block>) {
    forall b :: b in blocks <==> b in was && InUse(w, r, WordsOf(b))
  }

  /** So is what a slot held. */
  ghost predicate UsedSlotsLeft(w: World, r: Roots, tag: nat, before: map<nat, ResourceTables.Slot>,
                                held: map<nat, ResourceTables.Slot>) {
    forall id: nat :: id in held <==> id in before && SlotUsed(w, r, tag, id)
  }

  /** Words of the blocks that were released. */
  function LostWords(was: set<DirectHeap.Block>, blocks: set<DirectHeap.Block>): set<Addr> {
    set b, a | b in was - blocks && a in WordsOf(b) :: a
  }

  /** The slots that hold something, by table and number. */
  ghost function HeldIds(slots: seq<seq<ResourceTables.Slot>>): set<(nat, int)> {
    set tag: nat, id | tag < |slots| && id in ResourceTables.Held(slots[tag]) :: (tag, id as int)
  }

  /** Whatever becomes of the rest, a heap that repeats what is left unfolds every
      root as before. */
  ghost predicate RootsUnharmed(w: World, r: Roots, was: set<DirectHeap.Block>, blocks: set<DirectHeap.Block>,
                                slots: seq<seq<ResourceTables.Slot>>) {
    forall k :: Repeats(w, k, LostWords(was, blocks), HeldIds(slots)) ==> Unharmed(w, r, k, LostWords(was, blocks))
  }

  /** Clears the slots that were not recorded, table by table. Resources that are
      owned outside managed storage are freed with their slots. */
  method SweepTables(w: World, ghost from: Start, tables: seq<ResourceTables.Table>, live: set<(nat, int)>)
    returns (freed: seq<nat>)
    requires TablesPictured(w, tables) && forall tag: nat, id :: (tag, id) in live <==> SlotReached(w, from, tag, id)
    modifies tables
    ensures forall tag :: 0 <= tag < |tables| ==>
      && tables[tag].Valid()
      && ResourceTables.Held(tables[tag].slots) == LiveSlots(w, from, tag, old(ResourceTables.Held(tables[tag].slots)))
    ensures OwnedFreed(w, from, old(ResourceTables.Held(tables[REGEXES].slots)), freed)
  {
    hide SlotReached, Pictured, ResourceTables.Held, ResourceTables.Table.Valid, ResourceTables.Increasing;
    freed := [];
    for tag := 0 to |tables|
      invariant forall k :: 0 <= k < tag ==>
        && tables[k].Valid()
        && ResourceTables.Held(tables[k].slots) == LiveSlots(w, from, k, old(ResourceTables.Held(tables[k].slots)))
      invariant forall k :: tag <= k < |tables| ==> tables[k].Valid() && tables[k].slots == old(tables[k].slots)
      invariant tag > REGEXES ==> OwnedFreed(w, from, old(ResourceTables.Held(tables[REGEXES].slots)), freed)
    {
      ghost var held := ResourceTables.Held(tables[tag].slots);
      var cleared := tables[tag].Sweep(Recorded(live, tag));
      SweptLive(w, from, tag, live, held);
      if tag == REGEXES {
        freed := cleared;
      }
    }
  }

  /** Slots of one table among those recorded. */
  function Recorded(live: set<(nat, int)>, tag: nat): set<nat> {
    set k | k in live && k.0 == tag && k.1 >= 0 :: k.1 as nat
  }

  lemma SweptLive(w: World, from: Start, tag: nat, live: set<(nat, int)>, held: map<nat, ResourceTables.Slot>)
    requires forall t: nat, id :: (t, id) in live <==> SlotReached(w, from, t, id)
    ensures (map id | id in held && id in Recorded(live, tag) :: held[id]) == LiveSlots(w, from, tag, held)
    ensures forall id: nat :: id in Recorded(live, tag) <==> SlotReached(w, from, tag, id)
  {
    hide SlotReached;
    forall id: nat
      ensures id in Recorded(live, tag) <==> SlotReached(w, from, tag, id)
    {
      assert (tag, id as int) in live <==> SlotReached(w, from, tag, id);
    }
  }

  /** telora_gc_collect: exactly the blocks in which something reachable lies
      survive, and every other block is released once. Exactly the slots that
      are reached are held afterwards, under their numbers and with their
      contents, and their payloads and the buffers of their tables survive. An
      owned resource that nothing reaches is freed, once, and no other is. */
  method Collect(w: World, r: Roots, heap: DirectHeap.Heap, tables: seq<ResourceTables.Table>, origin: nat, top: nat)
    returns (released: seq<DirectHeap.Block>, freed: seq<nat>)
    requires heap.Valid() && DirectHeap.MarkedBlocks(heap.allocations) == {}
    requires WellTyped(w) && StartOf(w, r).nodes <= w.ty.nodes && |r.buffers| == TABLE_COUNT
    requires Managed(w, StartOf(w, r), DirectHeap.Blocks(heap.allocations), origin, top)
    requires TablesPictured(w, tables)
    modifies heap, tables
    ensures heap.Valid() && DirectHeap.MarkedBlocks(heap.allocations) == {}
    ensures var was, from := old(DirectHeap.Blocks(heap.allocations)), StartOf(w, r);
      && (forall b :: b in DirectHeap.Blocks(heap.allocations) <==> Survives(w, from, was, b))
      && (forall b :: multiset(released)[b] == Releases(w, from, was, b))
    ensures forall tag :: 0 <= tag < TABLE_COUNT ==>
      && tables[tag].Valid()
      && ResourceTables.Held(tables[tag].slots) ==
        LiveSlots(w, StartOf(w, r), tag, old(ResourceTables.Held(tables[tag].slots)))
    ensures OwnedFreed(w, StartOf(w, r), old(ResourceTables.Held(tables[REGEXES].slots)), freed)
    ensures forall tag :: 0 <= tag < TABLE_COUNT && tag != REGEXES ==>
      PayloadsRetained(old(DirectHeap.Blocks(heap.allocations)), DirectHeap.Blocks(heap.allocations), tables[tag].slots)
    ensures BuffersRetained(old(DirectHeap.Blocks(heap.allocations)), DirectHeap.Blocks(heap.allocations), r.buffers)
    ensures UsedBlocksLeft(w, r, old(DirectHeap.Blocks(heap.allocations)), DirectHeap.Blocks(heap.allocations))
    ensures forall tag :: 0 <= tag < TABLE_COUNT ==>
      UsedSlotsLeft(w, r, tag, old(ResourceTables.Held(tables[tag].slots)), ResourceTables.Held(tables[tag].slots))
    ensures RootsUnharmed(w, r, old(DirectHeap.Blocks(heap.allocations)), DirectHeap.Blocks(heap.allocations),
      SlotsOf(tables))
  {
    hide WellTyped, StartOf, Traced, Ok, Housed, Live, DirectHeap.Blocks, DirectHeap.MarkedBlocks, DirectHeap.Held,
         ResourceTables.Held, Pictured, PayloadsRetained, WordIn, ResourceTables.Table.Valid, OwnedFreed,
         UsedBlocksLeft, UsedSlotsLeft, RootsUnharmed, HeldIds;
    ghost var was := DirectHeap.Blocks(heap.allocations);
    ghost var from := StartOf(w, r);
    ghost var slots := SlotsOf(tables);
    var mark := new Mark(w, BlockWords(was), from);
    mark.Trace(r);
    ghost var m := mark.Now();
    var storage, live := mark.storage, mark.slots;
    TracedSlots(w, BlockWords(was), from, m);
    freed := SweepTables(w, from, tables, live);
    released := ReclaimMarked(w, from, m, was, storage, heap, origin, top);
    forall tag | 0 <= tag < TABLE_COUNT && tag != REGEXES
      ensures PayloadsRetained(was, DirectHeap.Blocks(heap.allocations), tables[tag].slots)
    {
      HeldPayloads(w, r, tag, was, DirectHeap.Blocks(heap.allocations), slots[tag], tables[tag].slots);
    }
    BuffersLive(w, r, was, DirectHeap.Blocks(heap.allocations));
    UsedLeft(w, r, was, DirectHeap.Blocks(heap.allocations));
    forall tag | 0 <= tag < TABLE_COUNT
      ensures UsedSlotsLeft(w, r, tag, ResourceTables.Held(slots[tag]), ResourceTables.Held(tables[tag].slots))
    {
      LiveUsed(w, r, tag, ResourceTables.Held(slots[tag]), ResourceTables.Held(tables[tag].slots));
    }
    UnharmedAfter(w, r, was, DirectHeap.Blocks(heap.allocations), slots, SlotsOf(tables));
  }

  lemma UsedLeft(w: World, r: Roots, was: set<DirectHeap.Block>, blocks: set<DirectHeap.Block>)
    requires Started(w, r) && Housed(w, BlockWords(was))
    requires forall b :: b in blocks <==> Survives(w, StartOf(w, r), was, b)
    ensures UsedBlocksLeft(w, r, was, blocks)
  {
    hide Started, StartOf, Housed, Live, InUse, Retained;
    forall b | b in was
      ensures b in blocks <==> InUse(w, r, WordsOf(b))
    {
      assert WordsOf(b) in BlockWords(was);
      RetainedExactly(w, r, BlockWords(was), WordsOf(b));
      RetainedLive(w, StartOf(w, r), b);
    }
  }

  lemma LiveUsed(w: World, r: Roots, tag: nat, before: map<nat, ResourceTables.Slot>,
                 held: map<nat, ResourceTables.Slot>)
    requires Started(w, r) && held == LiveSlots(w, StartOf(w, r), tag, before)
    ensures UsedSlotsLeft(w, r, tag, before, held)
  {
    hide Started, StartOf, SlotReached, SlotUsed;
    forall id: nat
      ensures id in held <==> id in before && SlotUsed(w, r, tag, id)
    {
      SlotExactly(w, r, tag, id);
    }
  }

  /** Every slot that is reached was held, and therefore still is. */
  lemma ReachedListed(w: World, r: Roots, before: seq<seq<ResourceTables.Slot>>, slots: seq<seq<ResourceTables.Slot>>)
    requires Started(w, r) && |before| == TABLE_COUNT == |slots|
    requires forall tag :: tag in w.heap.tables ==> tag < TABLE_COUNT
    requires forall tag :: 0 <= tag < TABLE_COUNT ==> Pictured(w, tag, before[tag])
    requires forall tag :: 0 <= tag < TABLE_COUNT ==>
      ResourceTables.Held(slots[tag]) == LiveSlots(w, StartOf(w, r), tag, ResourceTables.Held(before[tag]))
    ensures AllListed(w, StartOf(w, r), HeldIds(slots))
  {
    hide WellTyped, StartOf, Reachable, At;
    var from := StartOf(w, r);
    forall n | Reachable(w, from.nodes, n) && n.Slot?
      ensures SlotKey(w, n) in HeldIds(slots)
    {
      ReachTyped(w, from.nodes, n);
      NodeFits(w, n);
      var id := At(w.heap, n.at);
      assert SlotReached(w, from, n.tag, id);
      assert id in ResourceTables.Held(before[n.tag]);
      assert id in ResourceTables.Held(slots[n.tag]);
    }
  }

  lemma UnharmedAfter(w: World, r: Roots, was: set<DirectHeap.Block>, blocks: set<DirectHeap.Block>,
                      before: seq<seq<ResourceTables.Slot>>, slots: seq<seq<ResourceTables.Slot>>)
    requires Started(w, r) && Housed(w, BlockWords(was)) && |before| == TABLE_COUNT == |slots|
    requires forall b :: b in blocks <==> Survives(w, StartOf(w, r), was, b)
    requires forall tag :: tag in w.heap.tables ==> tag < TABLE_COUNT
    requires forall tag :: 0 <= tag < TABLE_COUNT ==> Pictured(w, tag, before[tag])
    requires forall tag :: 0 <= tag < TABLE_COUNT ==>
      ResourceTables.Held(slots[tag]) == LiveSlots(w, StartOf(w, r), tag, ResourceTables.Held(before[tag]))
    ensures RootsUnharmed(w, r, was, blocks, slots)
  {
    hide Started, StartOf, Housed, Live, Retained, AllListed, Repeats, Unharmed, HeldIds, LiveSlots, Pictured,
         ResourceTables.Held;
    ReachedListed(w, r, before, slots);
    LostReleased(w, r, was, blocks);
    forall k | Repeats(w, k, LostWords(was, blocks), HeldIds(slots))
      ensures Unharmed(w, r, k, LostWords(was, blocks))
    {
      RetentionLaw(w, r, BlockWords(was), LostWords(was, blocks), HeldIds(slots), k);
    }
  }

  lemma LostReleased(w: World, r: Roots, was: set<DirectHeap.Block>, blocks: set<DirectHeap.Block>)
    requires forall b :: b in blocks <==> Survives(w, StartOf(w, r), was, b)
    ensures Released(w, BlockWords(was), StartOf(w, r), LostWords(was, blocks))
  {
    hide StartOf, Live, Retained, WordIn;
    forall a | a in LostWords(was, blocks)
      ensures exists b :: b in BlockWords(was) && a in b && !Retained(w, StartOf(w, r), b)
    {
      var b :| b in was - blocks && a in WordsOf(b);
      RetainedLive(w, StartOf(w, r), b);
      assert WordsOf(b) in BlockWords(was);
    }
  }

  lemma TracedSlots(w: World, blocks: set<set<Addr>>, from: Start, m: Marks)
    requires Traced(w, blocks, from, m)
    ensures forall tag: nat, id :: (tag, id) in m.slots <==> SlotReached(w, from, tag, id)
  {
    hide SlotReached, Reachable, Hit, Retained;
  }

  /** Marks the blocks that recorded addresses lie in, and sweeps the others. */
  method ReclaimMarked(w: World, ghost from: Start, ghost m: Marks, ghost was: set<DirectHeap.Block>,
                       storage: set<Addr>,
                       heap: DirectHeap.Heap, origin: nat, top: nat)
    returns (released: seq<DirectHeap.Block>)
    requires heap.Valid() && DirectHeap.MarkedBlocks(heap.allocations) == {}
    requires was == DirectHeap.Blocks(heap.allocations)
    requires Ok(w, BlockWords(was), from, m) && Traced(w, BlockWords(was), from, m) && storage == m.storage
    requires Managed(w, from, was, origin, top)
    modifies heap
    ensures heap.Valid() && DirectHeap.MarkedBlocks(heap.allocations) == {}
    ensures forall b :: b in DirectHeap.Blocks(heap.allocations) <==> Survives(w, from, was, b)
    ensures forall b :: multiset(released)[b] == Releases(w, from, was, b)
  {
    hide WellTyped, Traced, Ok, Housed, Live, DirectHeap.Blocks, DirectHeap.MarkedBlocks, DirectHeap.Held;
    forall a | a in storage
      ensures a >= 0 && Justified(w, from, a)
    {
      StorageJustified(w, BlockWords(was), from, m, a);
    }
    var references := set a | a in storage && a >= 0 :: WORD_BYTES * a;
    forall r | r in references && origin <= r < top
      ensures exists b :: b in was && DirectHeap.Holds(b, r)
    {
      var a :| a in storage && a >= 0 && r == WORD_BYTES * a;
      var b :| b in was && WordIn(b, a);
    }
    released := heap.Reclaim(references, origin, top);
    forall b | b in was
      ensures DirectHeap.Held(b, references, origin, top) <==> Live(w, from, b)
    {
      HeldLive(w, from, was, m, b, references, origin, top);
    }
  }

  // ----- what resources retain --------------------------------------------------

  /** The payload behind a slot that is reached is in use. */
  lemma PayloadJustified(w: World, r: Roots, tag: nat, id: int)
    requires WellTyped(w) && StartOf(w, r).nodes <= w.ty.nodes && tag != REGEXES
    requires SlotReached(w, StartOf(w, r), tag, id) && HasCell(w.heap, tag, id)
    ensures Justified(w, StartOf(w, r), Cells(w.heap, tag)[id].payload)
  {
    hide WellTyped, Cells, ReachedIn, Reachable, At, RootNodes, DemandNodes;
    var from, c := StartOf(w, r), Cells(w.heap, tag)[id];
    if (tag, id) in from.ids {
      assert PacketOf(tag, c) in TableNodes(w, tag);
      ReachRoot(w, from.nodes, PacketOf(tag, c));
    } else {
      var n :| Reachable(w, from.nodes, n) && n.Slot? && SlotKey(w, n) == (tag, id);
      assert PacketOf(tag, c) in Next(w, n);
      ReachStep(w, from.nodes, n, PacketOf(tag, c));
    }
    ReachTyped(w, from.nodes, PacketOf(tag, c));
    NodeFits(w, PacketOf(tag, c));
    assert c.payload in Touches(w, PacketOf(tag, c));
  }

  lemma HeldPayloads(w: World, r: Roots, tag: nat, was: set<DirectHeap.Block>, blocks: set<DirectHeap.Block>,
                     before: seq<ResourceTables.Slot>, slots: seq<ResourceTables.Slot>)
    requires WellTyped(w) && StartOf(w, r).nodes <= w.ty.nodes && tag != REGEXES && Pictured(w, tag, before)
    requires ResourceTables.Held(slots) == LiveSlots(w, StartOf(w, r), tag, ResourceTables.Held(before))
    requires forall b :: b in blocks <==> Survives(w, StartOf(w, r), was, b)
    ensures PayloadsRetained(was, blocks, slots)
  {
    hide WellTyped, StartOf, SlotReached, Justified, DirectHeap.Holds, Cells;
    forall id, b | id in ResourceTables.Held(slots) && b in was && DirectHeap.Holds(b, slots[id].payload)
      ensures b in blocks
    {
      assert id in ResourceTables.Held(before) && slots[id] == before[id];
      PayloadJustified(w, r, tag, id);
      assert WordIn(b, Cells(w.heap, tag)[id].payload);
      assert Live(w, StartOf(w, r), b);
    }
  }

  lemma BuffersLive(w: World, r: Roots, was: set<DirectHeap.Block>, blocks: set<DirectHeap.Block>)
    requires forall b :: b in blocks <==> Survives(w, StartOf(w, r), was, b)
    ensures BuffersRetained(was, blocks, r.buffers)
  {
    hide StartNodes, Reachable, WordIn, TableIds, DemandSpans;
    forall tag, b | 0 <= tag < |r.buffers| && r.buffers[tag] != 0 && b in was && WordIn(b, r.buffers[tag])
      ensures b in blocks
    {
      assert r.buffers[tag] in StartOf(w, r).spans;
      assert Justified(w, StartOf(w, r), r.buffers[tag]);
      assert Live(w, StartOf(w, r), b);
    }
  }

  lemma StorageJustified(w: World, blocks: set<set<Addr>>, from: Start, m: Marks, a: Addr)
    requires Ok(w, blocks, from, m) && a in m.storage
    ensures Justified(w, from, a)
  {
    hide WellTyped, Housed, Tracked, Anchored, Visited, Justified, Reachable;
  }

  lemma HeldLive(w: World, from: Start, blocks: set<DirectHeap.Block>, m: Marks, b: DirectHeap.Block,
                 references: set<nat>, origin: nat, top: nat)
    requires Traced(w, BlockWords(blocks), from, m) && b in blocks
    requires origin <= b.address && b.address + b.bytes <= top
    requires references == set a | a in m.storage && a >= 0 :: WORD_BYTES * a
    ensures DirectHeap.Held(b, references, origin, top) <==> Live(w, from, b)
  {
    hide Justified, Reachable, DirectHeap.Holds;
    var ws := WordsOf(b);
    assert ws in BlockWords(blocks);
    assert Hit(m.storage, ws) <==> Retained(w, from, ws);
    assert Retained(w, from, ws) <==> Live(w, from, b) by { RetainedLive(w, from, b); }
    if Hit(m.storage, ws) {
      var s :| s in m.storage && s in ws;
      HoldsBounds(b, WORD_BYTES * s);
      assert WORD_BYTES * s in references;
    }
    if DirectHeap.Held(b, references, origin, top) {
      var r :| r in references && origin <= r < top && DirectHeap.Holds(b, r);
      var a :| a in m.storage && a >= 0 && r == WORD_BYTES * a;
      assert a in ws;
    }
  }

  lemma HoldsBounds(b: DirectHeap.Block, r: nat)
    requires DirectHeap.Holds(b, r)
    ensures b.address <= r < b.address + b.bytes
  {
  }

  lemma RetainedLive(w: World, from: Start, b: DirectHeap.Block)
    ensures Retained(w, from, WordsOf(b)) <==> Live(w, from, b)
  {
    hide Justified, WordIn;
    if a :| a in WordsOf(b) && Justified(w, from, a) {
      assert WordIn(b, a);
    }
    if a :| WordIn(b, a) && Justified(w, from, a) {
      assert a in WordsOf(b);
    }
  }
}
