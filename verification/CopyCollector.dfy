/** The copying collector (collect.rs, collect_trace.rs) driven by the layout
    scanner (trace.rs): forwarding tables, a pending stack, and in-place
    redirection of every reference in copied storage. */
module CopyCollector {
  import opened HeapGraph
  import opened CopyRelation
  import opened CollectorState
  import opened ScanSteps
  import opened CopyMeaning
  import CopiedWords

  /** A value the host or the runtime holds on to. */
  datatype Root = Root(ref: Addr, ty: int)

  ghost predicate RootTyped(src: Source, ref: Addr, ty: int) {
    ref >= src.origin ==> Value(EntryOf(src.img, ty), ref) in src.ty.heads
  }

  /** `next` is where `ref` lives now. */
  ghost predicate Relocated(src: Source, links: set<Link>, ref: Addr, ty: int, next: Addr) {
    if ref < src.origin then next == ref else Link(Value(EntryOf(src.img, ty), ref), next) in links
  }

  /** Where the forwarding table says a reference lives now. */
  ghost predicate Forwarded(src: Source, values: map<Addr, (Addr, int)>, ref: Addr, next: Addr) {
    if ref < src.origin then next == ref else ref in values && values[ref].0 == next
  }

  /** The tree a root reference unfolds to. */
  function RootTree(src: Source, h: Heap, ref: Addr, ty: int, fuel: nat): Tree {
    if ref < src.origin then Static(ref) else Deep(src.img, h, src.origin, Value(EntryOf(src.img, ty), ref), fuel)
  }

  /** A relocated reference unfolds to the same tree, to every depth. */
  lemma RelocatedMeaning(src: Source, c: Copy, ref: Addr, ty: int, next: Addr, fuel: nat)
    requires Complete(src, c) && Relocated(src, c.links, ref, ty, next)
    ensures RootTree(src, src.from, ref, ty, fuel) == RootTree(src, c.heap, next, ty, fuel)
  {
    hide EntryOf, DeepData, DeepObject, Typed, AllDone, TodoFresh, TodoApart, Present, RawsDone, StaticRaws;
    if ref >= src.origin {
      assert Linked(c, Value(EntryOf(src.img, ty), ref), next);
      SameNode(src, c, Value(EntryOf(src.img, ty), ref), next, fuel);
    }
  }

  /** A forwarded reference stays forwarded to the same place. */
  lemma StepForwarded(src: Source, s: State, t: State)
    requires Step(src, s, t, {}, 0)
    ensures forall p, next :: Forwarded(src, s.values, p, next) ==> Forwarded(src, t.values, p, next)
  {
    hide Budget, Weight;
  }

  /** Where slot `at` of finished storage may point: static storage, a copy, a
      copied raw string, or a slot that some resource was forwarded to. */
  ghost predicate Current(src: Source, c: Copy, n: Node, at: Addr) {
    var p := At(c.heap, at);
    if n.Slot? then HasCell(c.heap, n.tag, p) && Filled(c.slotNext, n.tag, p)
    else p < src.origin || (exists m :: m in c.links && m.at == p) || (n.Raw? && p in c.rawNext.Values)
  }

  /** No word of finished storage refers to the old heap: every reference is
      static or the address of a copy, every resource slot is a new one. */
  lemma NoStaleReference(src: Source, c: Copy, l: Link)
    requires Complete(src, c) && l in c.links && IsSlot(l.node)
    ensures Current(src, c, l.node, l.at)
  {
    hide At, NodesFit, PartsTyped, TargetsTyped, TodoFresh, TodoApart, Present, RawsDone, StaticRaws, PlainDone,
         ArrayDone, Cells, CellDone;
    assert SlotDone(src, c, l);
    var p := At(src.from, l.node.at);
    if l.node.Slot? {
      assert Filled(c.slotNext, l.node.tag, At(c.heap, l.at));
    } else if l.node.Owned? {
      assert l.node.words > 0 ==> Link(Blob(l.node.words, p), At(c.heap, l.at)) in c.links;
    } else if p >= src.origin && !l.node.Raw? {
      assert Linked(c, l.node, l.at);
      ReferentLinked(src, c, l.node, l.at);
      assert Link(Referent(src, l.node), At(c.heap, l.at)) in c.links;
    }
  }

  class Collector {
    const src: Source
    var heap: Heap
    var rawNext: map<Addr, Addr>
    var slotNext: map<(nat, nat), nat>
    var values: map<Addr, (Addr, int)>
    var objects: map<(Table, Addr), Addr>
    var pending: seq<Work>
    ghost var links: set<Link>
    ghost var active: set<Link>

    ghost function Now(): State
      reads this
    {
      State(heap, rawNext, slotNext, links, active, values, objects, pending)
    }

    ghost predicate Valid()
      reads this
    {
      Ok(src, Now())
    }

    /** One scanning operation: the invariant is kept, `done` is finished. */
    twostate predicate Did(done: set<Link>, extra: nat)
      reads this
    {
      Valid() && Step(src, old(Now()), Now(), done, extra)
    }

    /** The block allocator: a fresh block outside static storage. */
    method Reserve(size: nat) returns (at: Addr)
      modifies this`heap
      ensures at >= src.origin && SameStores(heap, old(heap))
      ensures forall a :: at <= a < at + size ==> a !in old(heap.words) && a in heap.words
      ensures forall a :: a in heap.words && !(at <= a < at + size) ==> a in old(heap.words)
      ensures forall a :: a in old(heap.words) ==> a in heap.words && heap.words[a] == old(heap.words[a])
    {
      FreshBlockExists(heap.words.Keys, src.origin, size);
      at :| FreshBlock(heap.words.Keys, src.origin, size, at);
      heap := heap.(words := heap.words + Zeros(at, size));
    }

    /** Overwrites one word of copied storage. */
    method Put(at: Addr, value: Word)
      modifies this`heap
      ensures heap == old(heap).(words := old(heap).words[at := value])
    {
      heap := heap.(words := heap.words[at := value]);
    }

    /** Copies a block of the old heap to fresh storage. */
    method CopyWords(from: Addr, size: nat) returns (at: Addr)
      modifies this`heap
      ensures Copied(src, old(heap), heap, from, at, size)
    {
      at := Reserve(size);
      CopyBlock(at, from, size);
    }

    /** Fills a reserved block with words of the old heap. */
    method CopyBlock(at: Addr, from: Addr, size: nat)
      modifies this`heap
      ensures SameStores(heap, old(heap)) && old(heap.words.Keys) <= heap.words.Keys
      ensures forall a :: at <= a < at + size ==> a in heap.words && heap.words[a] == At(src.from, from + (a - at))
      ensures forall a :: a in old(heap.words) && !(at <= a < at + size) ==> heap.words[a] == old(heap.words[a])
    {
      hide At;
      var k := 0;
      while k < size
        invariant 0 <= k <= size
        invariant SameStores(heap, old(heap)) && old(heap.words.Keys) <= heap.words.Keys
        invariant forall a :: at <= a < at + k ==> a in heap.words && heap.words[a] == At(src.from, from + (a - at))
        invariant forall a :: a in old(heap.words) && !(at <= a < at + k) ==> heap.words[a] == old(heap.words[a])
      {
        Put(at + k, At(src.from, from + k));
        k := k + 1;
      }
    }

    /** Forwards a reference to a full value. */
    method ForwardValue(p: Addr, ty: int) returns (at: Addr)
      requires Valid() && (p >= src.origin ==> Value(EntryOf(src.img, ty), p) in src.ty.heads)
      modifies this
      ensures Did({}, 0) && active == old(active)
      ensures p < src.origin ==> at == p
      ensures p >= src.origin ==> Link(Value(EntryOf(src.img, ty), p), at) in links
      ensures p >= src.origin ==> p in values && values[p].0 == at
      ensures slotNext == old(slotNext) && heap.tables == old(heap.tables)
    {
      hide Ok, Step, EntryOf, Copied;
      if p < src.origin {
        at := p;
        StepRefl(src, Now());
      } else if p in values {
        at := values[p].0;
        StepRefl(src, Now());
        SameHead(src, Now(), p, ty);
      } else {
        ghost var s := Now();
        var e := EntryOf(src.img, ty);
        at := CopyWords(p, e.size);
        CopiedStores(src, s.heap, heap, p, at, e.size);
        ForwardedValueOk(src, s, heap, p, at, ty);
        values := values[p := (at, ty)];
        pending := pending + [Work(Boxes, p, at, e.size, ty)];
        links := links + {Link(Value(e, p), at)};
        assert Now() == ForwardedValue(src, s, heap, p, at, ty);
      }
    }

    /** Forwards a reference to an object kept by its address. */
    method ForwardObject(table: Table, id: Addr, ty: int) returns (at: Addr)
      requires Valid() && (id >= src.origin ==> Object(table, id) in src.ty.nodes)
      modifies this
      ensures Did({}, 0) && active == old(active)
      ensures id < src.origin ==> at == id
      ensures id >= src.origin ==> Link(Object(table, id), at) in links
      ensures id >= src.origin ==> (table, id) in objects && objects[(table, id)] == at
    {
      hide Ok, Step, EntryOf, At, Extent, LinkOf, Backing, Copied;
      if id < src.origin {
        at := id;
        StepRefl(src, Now());
      } else if (table, id) in objects {
        at := objects[(table, id)];
        StepRefl(src, Now());
        SameObjectLink(src, Now(), table, id);
      } else if table == Arrays {
        at := ForwardArray(id);
      } else {
        ghost var s := Now();
        var stored := At(src.from, id);
        if table == Environments {
          at := CopyWords(id, Extent(src, Link(Object(Environments, id), 0)));
          EnvironmentSize(src, id, at);
          ForwardedEnvironmentOk(src, s, heap, id, at, ty);
          objects := objects[(table, id) := at];
          pending := pending + [Work(Environments, id, at, Extent(src, Link(Object(Environments, id), at)), ty)];
          links := links + {Link(Object(Environments, id), at)};
          assert Now() == ForwardedEnvironment(src, s, heap, id, at, ty);
        } else {
          var size := Max0(At(src.from, id + 1));
          at := CopyWords(id, 2 + size);
          ForwardedObjectOk(src, s, heap, table, id, at);
          var w := Work(table, id + 2, at + 2, size, stored);
          objects := objects[(table, id) := at];
          pending := pending + [w];
          links := links + {Link(Object(table, id), at), LinkOf(src, w)};
          assert Now() == ForwardedObject(src, s, heap, table, id, at);
        }
      }
    }

    /** A trimmed copy of an array: header, then elements. */
    method CopyArray(id: Addr) returns (at: Addr)
      modifies this`heap
      ensures at >= src.origin && ArrayCopied(src, old(heap), heap, id, at)
    {
      hide At, EntryOf;
      var stored, data, length := At(src.from, id), At(src.from, id + 1), Max0(At(src.from, id + 2));
      var size := length * EntryOf(src.img, stored).size;
      at := Reserve(4 + size);
      PutHeader(at, stored, length);
      CopyBlock(at + 4, data, size);
    }

    /** Type, element address, length and capacity. */
    method PutHeader(at: Addr, stored: Word, length: nat)
      modifies this`heap
      ensures SameStores(heap, old(heap)) && old(heap.words.Keys) <= heap.words.Keys
      ensures heap.words.Keys == old(heap.words.Keys) + {at, at + 1, at + 2, at + 3}
      ensures heap.words[at] == stored && heap.words[at + 1] == at + 4
      ensures heap.words[at + 2] == length && heap.words[at + 3] == length
      ensures forall a :: a in old(heap.words) && !(at <= a < at + 4) ==> heap.words[a] == old(heap.words[a])
    {
      Put(at, stored);
      Put(at + 1, at + 4);
      Put(at + 2, length);
      Put(at + 3, length);
    }

    method ForwardArray(id: Addr) returns (at: Addr)
      requires Valid() && id >= src.origin && Object(Arrays, id) in src.ty.nodes && (Arrays, id) !in objects
      modifies this
      ensures Did({}, 0) && active == old(active)
      ensures Link(Object(Arrays, id), at) in links
      ensures (Arrays, id) in objects && objects[(Arrays, id)] == at
    {
      hide Ok, Step, EntryOf, At, LinkOf, Backing, AllocatedArray, ArrayCopied, Max0, Typed, CopyOf, Extends, Budget,
           Weight;
      ghost var s := Now();
      var size := Max0(At(src.from, id + 2)) * EntryOf(src.img, At(src.from, id)).size;
      at := CopyArray(id);
      OkTyped(src, s);
      ArrayBlock(src, s, heap, id, at);
      ForwardedArrayOk(src, s, heap, id, at);
      objects := objects[(Arrays, id) := at];
      pending := pending + [Work(Arrays, At(src.from, id + 1), at + 4, size, At(src.from, id))];
      links := links + {Link(Backing(src.img, src.from, id), at + 4), Link(Object(Arrays, id), at)};
      assert Now() == ForwardedArray(src, s, heap, id, at);
    }

    /** Forwards a resource: it gets the next slot of its table at its first
        visit, and that slot ever after. An owned resource moves; any other has
        its payload copied. */
    method ForwardSlot(tag: nat, id: nat) returns (next: nat)
      requires Valid() && HasCell(src.from, tag, id) && CellTyped(src, tag, id)
      modifies this
      ensures Did({}, 0) && active == old(active)
      ensures (tag, id) in slotNext && slotNext[(tag, id)] == next
      ensures (tag, id) in old(slotNext) ==> slotNext == old(slotNext) && heap.tables == old(heap.tables)
      ensures (tag, id) !in old(slotNext) ==>
        next == |Cells(old(heap), tag)| && NewSlot(src, old(Now()), Now(), tag, id)
    {
      hide Ok, Step, EntryOf, At, LinkOf, Copied, Cells, CellTyped, NewSlot;
      ghost var s := Now();
      if (tag, id) in slotNext {
        next := slotNext[(tag, id)];
        StepRefl(src, s);
      } else {
        next := |Cells(heap, tag)|;
        if tag == REGEXES {
          MoveResource(tag, id);
        } else {
          CopyResource(tag, id);
        }
        NewSlotKnown(src, s, Now(), tag, id);
      }
    }

    /** An owned resource keeps its payload. */
    method MoveResource(tag: nat, id: nat)
      requires Valid() && HasCell(src.from, tag, id) && tag == REGEXES && (tag, id) !in slotNext
      modifies this
      ensures Did({}, 0) && active == old(active) && NewSlot(src, old(Now()), Now(), tag, id)
    {
      hide Ok, Step, LinkOf, Cells, CellDone, NewSlot, CopyOf, Slotted;
      ghost var s := Now();
      var c := Cells(src.from, tag)[id];
      OwnedCell(src, s, tag, c);
      SlottedOk(src, s, tag, id, c.payload);
      SlottedShape(src, s, tag, id, c.payload);
      AddSlot(tag, id, c.payload);
    }

    /** The resource takes the next slot of its table. */
    method AddSlot(tag: nat, id: nat, payload: Addr)
      requires HasCell(src.from, tag, id)
      modifies this`heap, this`slotNext
      ensures Now() == Slotted(src, old(Now()), tag, id, payload)
    {
      hide Cells;
      var cells := Cells(heap, tag);
      slotNext := slotNext[(tag, id) := |cells|];
      heap := heap.(tables := heap.tables[tag := cells + [Cells(src.from, tag)[id].(payload := payload)]]);
    }

    /** Any other resource has its payload copied and queued. */
    method CopyResource(tag: nat, id: nat)
      requires Valid() && HasCell(src.from, tag, id) && CellTyped(src, tag, id)
      requires tag != REGEXES && (tag, id) !in slotNext
      modifies this
      ensures Did({}, 0) && active == old(active) && NewSlot(src, old(Now()), Now(), tag, id)
    {
      hide Ok, Step, LinkOf, Cells, Copied, NewSlot;
      ghost var s := Now();
      var c := Cells(src.from, tag)[id];
      var at := CopyWords(c.payload, c.words);
      CopiedStores(src, s.heap, heap, c.payload, at, c.words);
      ForwardedSlotOk(src, s, heap, tag, id, at);
      ghost var copied := s.(heap := heap, links := s.links + {Link(PacketOf(tag, c), at)},
        pending := s.pending + [PacketWork(tag, c.payload, at, c.words)]);
      SameCells(s.heap, heap);
      SlottedShape(src, copied, tag, id, at);
      links := links + {Link(PacketOf(tag, c), at)};
      pending := pending + [PacketWork(tag, c.payload, at, c.words)];
      assert Now() == copied;
      AddSlot(tag, id, at);
      assert Now() == ForwardedSlot(src, s, copied.heap, tag, id, at);
      NewSlotFrom(src, s, copied, Now(), tag, id);
    }

    // ----- edges (collect_trace.rs) -----------------------------------------

    /** Ghost: the scanner has read `l`; its parts are now being dealt with. */
    ghost method Enter(l: Link)
      requires Valid() && l in active && !IsSlot(l.node)
      modifies this`links, this`active
      ensures Valid() && Now() == Scan(src, old(Now()), l)
      ensures forall p :: p in PartLinks(src, l) ==> p !in old(active) - {l}
    {
      hide Ok, Step, PartLinks, IsSlot;
      ScanValid(src, Now(), l);
      links, active := links + PartLinks(src, l), active - {l} + PartLinks(src, l);
    }

    /** Edge::Value: redirect a reference to a full value. */
    method EdgeValue(ty: int, from: Addr, at: Addr)
      requires Valid() && Link(Ref(EntryOf(src.img, ty), from), at) in active
      modifies this
      ensures Did({Link(Ref(EntryOf(src.img, ty), from), at)}, 0)
    {
      hide Ok, Step, EntryOf, At, SlotDone, CopyOf, Typed;
      ghost var l := Link(Ref(EntryOf(src.img, ty), from), at);
      ghost var s0 := Now();
      ScannedTyped(src, s0, l);
      var p := At(src.from, from);
      if p >= src.origin { HandleTarget(src, l.node); }
      var next := ForwardValue(p, ty);
      ghost var s1 := Now();
      HandleDone(src, s1, l, next);
      RedirectStep(src, s1, l, next);
      Put(at, next);
      active := active - {l};
      assert Now() == Redirected(s1, l, next);
      StepTrans(src, s0, s1, Now(), {}, {l}, 0, 0);
      assert {} + {l} == {l};
    }

    /** Edge::Object: redirect a reference to an object. */
    method EdgeObject(table: Table, from: Addr, at: Addr, ty: int)
      requires Valid() && Link(Handle(table, from), at) in active
      modifies this
      ensures Did({Link(Handle(table, from), at)}, 0)
    {
      hide Ok, Step, EntryOf, At, SlotDone, CopyOf, Typed;
      ghost var l := Link(Handle(table, from), at);
      ghost var s0 := Now();
      ScannedTyped(src, s0, l);
      var id := At(src.from, from);
      if id >= src.origin { HandleTarget(src, l.node); }
      var next := ForwardObject(table, id, ty);
      ghost var s1 := Now();
      HandleDone(src, s1, l, next);
      RedirectStep(src, s1, l, next);
      Put(at, next);
      active := active - {l};
      assert Now() == Redirected(s1, l, next);
      StepTrans(src, s0, s1, Now(), {}, {l}, 0, 0);
      assert {} + {l} == {l};
    }

    /** Edge::Object of a resource: redirect the number of its slot. */
    method EdgeSlot(tag: nat, from: Addr, at: Addr)
      requires Valid() && Link(Slot(tag, from), at) in active
      modifies this
      ensures Did({Link(Slot(tag, from), at)}, 0)
    {
      hide Ok, Step, EntryOf, At, SlotDone, CopyOf, Typed, Cells, CellTyped;
      ghost var l := Link(Slot(tag, from), at);
      ghost var s0 := Now();
      ScannedTyped(src, s0, l);
      SlotTarget(src, l.node);
      var next := ForwardSlot(tag, At(src.from, from));
      ghost var s1 := Now();
      ResourceDone(src, s1, l, next);
      RedirectStep(src, s1, l, next);
      Put(at, next);
      active := active - {l};
      assert Now() == Redirected(s1, l, next);
      StepTrans(src, s0, s1, Now(), {}, {l}, 0, 0);
      assert {} + {l} == {l};
    }

    /** Edge::Storage: storage of its own is copied along. */
    method EdgeStorage(words: nat, from: Addr, at: Addr)
      requires Valid() && Link(Owned(words, from), at) in active
      modifies this
      ensures Did({Link(Owned(words, from), at)}, 0)
    {
      hide Ok, Step, At, SlotDone, CopyOf, Typed, Copied, Blob;
      ghost var l := Link(Owned(words, from), at);
      ghost var s0 := Now();
      ScannedTyped(src, s0, l);
      var p, next := At(src.from, from), 0;
      StepRefl(src, s0);
      if words > 0 {
        BelongingsTarget(src, l.node);
        next := CopyWords(p, words);
        CopiedBlobOk(src, s0, heap, words, p, next);
        links := links + {Link(Blob(words, p), next)};
      }
      ghost var s1 := Now();
      BelongingsDone(src, s1, l, next);
      RedirectStep(src, s1, l, next);
      Put(at, next);
      active := active - {l};
      assert Now() == Redirected(s1, l, next);
      StepTrans(src, s0, s1, Now(), {}, {l}, 0, 0);
      assert {} + {l} == {l};
    }

    /** Edge::Content: redirect a byte view to the trimmed copy of its storage. */
    method EdgeContent(from: Addr, at: Addr)
      requires Valid() && Link(Raw(from), at) in active
      modifies this
      ensures Did({Link(Raw(from), at)}, 0)
    {
      hide Ok, Step, At, SlotDone, CopyOf, Typed, Budget, Weight;
      ghost var l := Link(Raw(from), at);
      ghost var s0 := Now();
      ScannedTyped(src, s0, l);
      RawNode(src, l.node);
      var raw := At(src.from, from);
      var next;
      if raw < src.origin {
        next := raw;
        StepRefl(src, s0);
      } else if raw in rawNext {
        next := rawNext[raw];
        StepRefl(src, s0);
      } else {
        next := CopyRaw(raw);
      }
      ghost var s1 := Now();
      RawDone(src, s1, l, next);
      RedirectStep(src, s1, l, next);
      Put(at, next);
      active := active - {l};
      assert Now() == Redirected(s1, l, next);
      StepTrans(src, s0, s1, Now(), {}, {l}, 0, 0);
      assert {} + {l} == {l};
    }

    /** Copies raw storage, trimming its capacity to its published length. */
    method CopyRaw(raw: Addr) returns (next: Addr)
      requires Valid() && raw in src.from.raws && src.from.raws[raw].len <= |src.from.raws[raw].bytes|
      requires raw >= src.origin && raw !in rawNext
      modifies this
      ensures Did({}, 0) && active == old(active)
      ensures raw in rawNext && rawNext[raw] == next
    {
      hide Ok, Step, Budget, Weight, CopyOf;
      ghost var s0 := Now();
      FreshBlockExists(heap.raws.Keys, src.origin, 1);
      next :| FreshBlock(heap.raws.Keys, src.origin, 1, next);
      assert next !in heap.raws;
      AdmitRawOk(src, s0, raw, next);
      CopyFields(src, s0);
      var bytes := src.from.raws[raw];
      heap := heap.(raws := heap.raws[next := RawString(bytes.len, bytes.len, bytes.bytes[..bytes.len])]);
      rawNext := rawNext[raw := next];
      RawStep(src, s0, Now());
    }

    // ----- the scanner (trace.rs) -------------------------------------------

    /** A full value: its header, then its data. */
    method ScanValue(e: Entry, from: Addr, at: Addr)
      requires Valid() && Link(Value(e, from), at) in active
      modifies this
      ensures Did({Link(Value(e, from), at)}, Max0(e.size - HEADER))
    {
      hide Ok, Step, PartLinks;
      ghost var l := Link(Value(e, from), at);
      ghost var s0 := Now();
      Enter(l);
      ValueParts(src, e, from, at);
      if e.size == HEADER {
        ScanStep(src, s0, l);
        StepWeaken(src, s0, Now(), {l}, 0, Max0(e.size - HEADER));
        return;
      }
      assert Link(Data(e, from + HEADER), at + HEADER) in active;
      ScanData(e, from + HEADER, at + HEADER);
      LeafStep(src, s0, l, Now(), Max0(e.size - HEADER));
    }

    /** Data of a closed type; inline enum and Dyn payloads are followed here. */
    method ScanData(ty: Entry, start: Addr, to: Addr)
      requires Valid() && Link(Data(ty, start), to) in active
      modifies this
      ensures Did({Link(Data(ty, start), to)}, Max0(ty.size - HEADER))
    {
      hide Ok, Step, PartLinks, At, EntryOf, Typed, Descended, DataParts, ValidData;
      ghost var l0 := Link(Data(ty, start), to);
      ghost var s0 := Now();
      var e, from, at := ty, start, to;
      DescendRefl(s0, l0);
      while true
        invariant Valid() && Link(Data(e, from), at) in active
        invariant Descended(s0, Now(), l0, Link(Data(e, from), at))
        invariant e.size <= ty.size
        decreases e.size
      {
        ghost var l := Link(Data(e, from), at);
        ghost var s := Now();
        DataScanned(src, s, e, from, at);
        if e.layout.Enum? && InlinePayload(src.from, e, from) {
          var payload := EntryOf(src.img, e.layout.variants[At(src.from, from)].ty);
          InlineEnum(src, s, e, from, at);
          Enter(l);
          ghost var v := Link(Value(payload, from + 2), at + 2);
          DescendScan(src, s0, s, l0, l, v);
          ghost var t := Now();
          assert v in active by { DescendActive(s0, t, l0, v); }
          Enter(v);
          ValueParts(src, payload, from + 2, at + 2);
          if payload.size == HEADER {
            ScanStep(src, t, v);
            DescendStep(src, s0, t, l0, v, Now(), 0);
            StepWeaken(src, s0, Now(), {l0}, 0, Max0(ty.size - HEADER));
            return;
          }
          DescendScan(src, s0, t, l0, v, Link(Data(payload, from + 4), at + 4));
          e, from, at := payload, from + 4, at + 4;
          assert Link(Data(e, from), at) in active by { DescendActive(s0, Now(), l0, Link(Data(e, from), at)); }
        } else if e.layout.Dyn? && At(src.from, from + 1) != 1 {
          var payload := EntryOf(src.img, At(src.from, from));
          DynParts(src, e, from, at);
          if payload.size == HEADER {
            Enter(l);
            ScanStep(src, s, l);
            DescendStep(src, s0, s, l0, l, Now(), 0);
            StepWeaken(src, s0, Now(), {l0}, 0, Max0(ty.size - HEADER));
            return;
          }
          InlineDyn(src, s, e, from, at);
          Enter(l);
          DescendScan(src, s0, s, l0, l, Link(Data(payload, from + 2), at + 2));
          e, from, at := payload, from + 2, at + 2;
          assert Link(Data(e, from), at) in active by { DescendActive(s0, Now(), l0, Link(Data(e, from), at)); }
        } else {
          ScanLeaf(e, from, at);
          DescendStep(src, s0, s, l0, l, Now(), Max0(e.size - HEADER));
          StepWeaken(src, s0, Now(), {l0}, Max0(e.size - HEADER), Max0(ty.size - HEADER));
          return;
        }
      }
    }

    /** The scanner's returning arms: scalars, views and handles. */
    method ScanLeaf(e: Entry, from: Addr, at: Addr)
      requires Valid() && Link(Data(e, from), at) in active
      requires e.layout.Enum? ==> !InlinePayload(src.from, e, from)
      requires e.layout.Dyn? ==> At(src.from, from + 1) == 1
      modifies this
      ensures Did({Link(Data(e, from), at)}, Max0(e.size - HEADER))
    {
      hide Ok, Step, PartLinks, At, EntryOf, Typed, DataParts, ValidData;
      match e.layout
      case InlineRecord(_) =>
        QueueFields(e, from, at);
      case Dict(_, _) =>
        ScanDict(e, from, at);
      case _ =>
        ScanSlot(e, from, at);
    }

    /** Two whole columns. */
    method ScanDict(e: Entry, from: Addr, at: Addr)
      requires Valid() && Link(Data(e, from), at) in active && e.layout.Dict?
      modifies this
      ensures Did({Link(Data(e, from), at)}, Max0(e.size - HEADER))
    {
      hide Ok, Step, PartLinks, At, EntryOf, Typed, DataParts;
      ghost var l := Link(Data(e, from), at);
      ghost var s := Now();
      DictParts(src, e, from, at);
      Enter(l);
      ghost var keys, vals := Link(Handle(Arrays, from), at), Link(Handle(Arrays, from + 2), at + 2);
      ghost var t := Now();
      EdgeObject(Arrays, from, at, e.layout.key);
      ghost var u := Now();
      StepActive(src, t, u, {keys}, 0);
      EdgeObject(Arrays, from + 2, at + 2, e.layout.val);
      StepTrans(src, t, u, Now(), {keys}, {vals}, 0, 0);
      assert {keys} + {vals} == PartLinks(src, l);
      LeafStep(src, s, l, Now(), 0);
      StepWeaken(src, s, Now(), {l}, 0, Max0(e.size - HEADER));
    }

    /** At most one slot. */
    method ScanSlot(e: Entry, from: Addr, at: Addr)
      requires Valid() && Link(Data(e, from), at) in active && !e.layout.InlineRecord? && !e.layout.Dict?
      requires e.layout.Enum? ==> !InlinePayload(src.from, e, from)
      requires e.layout.Dyn? ==> At(src.from, from + 1) == 1
      modifies this
      ensures Did({Link(Data(e, from), at)}, Max0(e.size - HEADER))
    {
      hide Ok, Step, PartLinks, At, EntryOf, Typed, DataParts;
      ghost var l := Link(Data(e, from), at);
      ghost var s := Now();
      DataScanned(src, s, e, from, at);
      SlotParts(src, e, from, at);
      Enter(l);
      match e.layout {
        case Scalar =>
          StepRefl(src, Now());
        case Content =>
          if At(src.from, from + 3) == CONTENT_SLICE { EdgeContent(from, at); } else { StepRefl(src, Now()); }
        case Record(_) =>
          EdgeObject(Records, from, at, 0);
        case Array(elem) =>
          var kind := At(src.from, from + 3);
          if kind == ARRAY_SINGLE { EdgeValue(elem, from, at); }
          else if kind == ARRAY_SLICE { EdgeObject(Arrays, from, at, elem); }
          else { StepRefl(src, Now()); }
        case Enum(variants) =>
          var v := variants[At(src.from, from)];
          if v.Payload? { EdgeObject(Boxes, from + 2, at + 2, v.ty); } else { StepRefl(src, Now()); }
        case Dyn =>
          EdgeObject(Boxes, from + 2, at + 2, At(src.from, from));
        case Function =>
          if At(src.from, from + 1) != 0 {
            EdgeObject(Environments, from + 1, at + 1, 0);
          } else {
            StepRefl(src, Now());
          }
        case Newtype(inner) =>
          EdgeObject(Newtypes, from, at, inner);
        case Resource(tag) =>
          EdgeSlot(tag, from, at);
      }
      LeafStep(src, s, l, Now(), 0);
      StepWeaken(src, s, Now(), {l}, 0, Max0(e.size - HEADER));
    }

    /** Fields of an inline aggregate are queued, not scanned recursively. */
    method QueueFields(e: Entry, from: Addr, at: Addr)
      requires Valid() && Link(Data(e, from), at) in active && e.layout.InlineRecord?
      modifies this
      ensures Did({Link(Data(e, from), at)}, Max0(e.size - HEADER))
    {
      hide Ok, Step, PartLinks, At, EntryOf, Typed, Parts, Size, FirstParts, Used, LinkOf, Weight, Budget;
      ghost var l := Link(Data(e, from), at);
      ghost var s := Now();
      ScannedTyped(src, s, l);
      InlineParts(src.img, src.from, e, from);
      Enter(l);
      ghost var t := Now();
      var fields := e.layout.fields;
      FirstPartsAll(src, l);
      UsedBounds(src, l, 0);
      StepRefl(src, t);
      for i := 0 to |fields|
        invariant Valid()
        invariant 0 <= Used(src, l, i) && Step(src, t, Now(), FirstParts(src, l, i), Used(src, l, i))
      {
        var offset := 2 + fields[i].offset;
        var w := Work(Boxes, from + offset, at + offset, 0, fields[i].ty);
        ghost var u := Now();
        InlineWork(src, l, w, i);
        StillActive(src, l, t, u, i, Used(src, l, i));
        UsedNext(src, l, i);
        DeferOk(src, u, w);
        pending := pending + [w];
        active := active - {PartLink(l, PartsOf(src, l)[i])};
        assert Now() == Push(u, w).(active := u.active - {LinkOf(src, w)});
        PartExtent(src, l, i);
        NextPart(src, l, t, u, Now(), i, Used(src, l, i), Size(src.from, PartsOf(src, l)[i]));
        StepWeaken(src, t, Now(), FirstParts(src, l, i + 1), Used(src, l, i) + Size(src.from, PartsOf(src, l)[i]),
          Used(src, l, i + 1));
      }
      UsedBounds(src, l, |fields|);
      LeafStep(src, s, l, Now(), Used(src, l, |fields|));
      StepWeaken(src, s, Now(), {l}, Used(src, l, |fields|), Extent(src, l));
      DataExtent2(src, e, from, at);
    }

    // ----- published objects (trace.rs object, collect.rs finish) -----------

    /** Consecutive full values: record fields. */
    method ScanFields(e: Entry, extent: nat, from: Addr, at: Addr)
      requires Valid() && Link(Fields(e, extent, from), at) in active
      modifies this
      ensures Did({Link(Fields(e, extent, from), at)}, Less(extent))
    {
      hide Ok, Step, PartLinks, At, EntryOf, Typed, Parts, Size, FirstParts, Used, Weight, Budget, FieldsOf;
      ghost var l := Link(Fields(e, extent, from), at);
      ghost var s := Now();
      ScannedTyped(src, s, l);
      FieldParts(src.img, src.from, e, extent, from);
      RowExtent(src, l);
      Enter(l);
      ghost var t := Now();
      var fields := FieldsOf(e);
      FirstPartsAll(src, l);
      StepRefl(src, t);
      for i := 0 to |fields|
        invariant Valid() && Step(src, t, Now(), FirstParts(src, l, i), LessUsed(src, l, i))
      {
        ghost var u := Now();
        StillActive(src, l, t, u, i, LessUsed(src, l, i));
        var field := EntryOf(src.img, fields[i].ty);
        ScanValue(field, from + fields[i].offset, at + fields[i].offset);
        ValuePartSize(src, l, i, field);
        NextPart(src, l, t, u, Now(), i, LessUsed(src, l, i), Max0(field.size - HEADER));
        StepWeaken(src, t, Now(), FirstParts(src, l, i + 1), LessUsed(src, l, i) + Max0(field.size - HEADER),
          LessUsed(src, l, i + 1));
      }
      LessUsedBound(src, l);
      LeafStep(src, s, l, Now(), LessUsed(src, l, |fields|));
      StepWeaken(src, s, Now(), {l}, LessUsed(src, l, |fields|), Less(Extent(src, l)));
    }

    /** Consecutive full values: array elements. */
    method ScanElements(e: Entry, count: nat, from: Addr, at: Addr)
      requires Valid() && Link(Elems(e, count, from), at) in active
      modifies this
      ensures Did({Link(Elems(e, count, from), at)}, Less(count * e.size))
      ensures count == 0 ==> pending == old(pending) && KeysOf(Now()) == KeysOf(old(Now()))
    {
      hide Ok, Step, PartLinks, At, EntryOf, Typed, Parts, Size, FirstParts, Used, Weight, Budget;
      ghost var l := Link(Elems(e, count, from), at);
      ghost var s := Now();
      ScannedTyped(src, s, l);
      ElementParts(src.img, src.from, e, count, from);
      RowExtent(src, l);
      Enter(l);
      ghost var t := Now();
      FirstPartsAll(src, l);
      StepRefl(src, t);
      for i := 0 to count
        invariant Valid() && Step(src, t, Now(), FirstParts(src, l, i), LessUsed(src, l, i))
        invariant i == 0 ==> Now() == t
      {
        ghost var u := Now();
        StillActive(src, l, t, u, i, LessUsed(src, l, i));
        ScanValue(e, from + i * e.size, at + i * e.size);
        ValuePartSize(src, l, i, e);
        NextPart(src, l, t, u, Now(), i, LessUsed(src, l, i), Max0(e.size - HEADER));
        StepWeaken(src, t, Now(), FirstParts(src, l, i + 1), LessUsed(src, l, i) + Max0(e.size - HEADER),
          LessUsed(src, l, i + 1));
      }
      LessUsedBound(src, l);
      LeafStep(src, s, l, Now(), LessUsed(src, l, count));
      StepWeaken(src, s, Now(), {l}, LessUsed(src, l, count), Less(Extent(src, l)));
    }

    /** Captured values with their closed types. */
    method ScanCaptures(from: Addr, at: Addr)
      requires Valid() && Link(Object(Environments, from), at) in active
      modifies this
      ensures Did({Link(Object(Environments, from), at)}, 0)
    {
      hide Ok, Step, PartLinks, At, EntryOf, Typed, Parts, Size, FirstParts, Weight, Budget;
      ghost var l := Link(Object(Environments, from), at);
      ghost var s := Now();
      ScannedTyped(src, s, l);
      var count := Max0(At(src.from, from));
      CaptureParts(src.img, src.from, from);
      Enter(l);
      ghost var t := Now();
      FirstPartsAll(src, l);
      StepRefl(src, t);
      for i := 0 to count
        invariant Valid() && Step(src, t, Now(), FirstParts(src, l, i), 0)
      {
        ghost var u := Now();
        StillActive(src, l, t, u, i, 0);
        EdgeValue(At(src.from, from + 2 + count + i), from + 2 + i, at + 2 + i);
        NextPart(src, l, t, u, Now(), i, 0, 0);
      }
      LeafStep(src, s, l, Now(), 0);
    }

    /** The payload of a resource, as its table lays it out. */
    method ScanPacket(tag: nat, words: nat, from: Addr, at: Addr)
      requires Valid() && Link(Packet(tag, words, from), at) in active
      modifies this
      ensures Did({Link(Packet(tag, words, from), at)}, 0)
    {
      hide Ok, Step;
      if tag == BLAMES {
        ScanBlame(words, from, at);
      } else if tag == DIAGNOSTICS {
        ScanDiagnostic(words, from, at);
      } else {
        ScanRow(tag, words, from, at);
      }
    }

    /** The byte view of a blame. */
    method ScanBlame(words: nat, from: Addr, at: Addr)
      requires Valid() && Link(Packet(BLAMES, words, from), at) in active
      modifies this
      ensures Did({Link(Packet(BLAMES, words, from), at)}, 0)
    {
      hide Ok, Step, PartLinks, At, Typed;
      ghost var l := Link(Packet(BLAMES, words, from), at);
      ghost var s := Now();
      BlameParts(src, words, from, at);
      Enter(l);
      if At(src.from, from + 5) == CONTENT_SLICE {
        EdgeContent(from + 2, at + 2);
      } else {
        StepRefl(src, Now());
      }
      LeafStep(src, s, l, Now(), 0);
    }

    /** The message of a diagnostic under its closed type, and its subjects. */
    method ScanDiagnostic(words: nat, from: Addr, at: Addr)
      requires Valid() && Link(Packet(DIAGNOSTICS, words, from), at) in active
      modifies this
      ensures Did({Link(Packet(DIAGNOSTICS, words, from), at)}, 0)
    {
      hide Ok, Step, PartLinks, At, EntryOf, Typed, Max0;
      ghost var l := Link(Packet(DIAGNOSTICS, words, from), at);
      ghost var s := Now();
      var ty, subjects := At(src.from, from + 9), 2 * Max0(At(src.from, from + 6));
      DiagnosticParts(src, words, from, at);
      Enter(l);
      ghost var message := Link(Ref(EntryOf(src.img, ty), from + 4), at + 4);
      ghost var owned := Link(Owned(subjects, from + 5), at + 5);
      ghost var t := Now();
      EdgeValue(ty, from + 4, at + 4);
      ghost var u := Now();
      StepActive(src, t, u, {message}, 0);
      EdgeStorage(subjects, from + 5, at + 5);
      StepTrans(src, t, u, Now(), {message}, {owned}, 0, 0);
      assert {message} + {owned} == PartLinks(src, l);
      LeafStep(src, s, l, Now(), 0);
    }

    /** A row of references with their closed types: operands of a format, cases
        of a test, the value of a debug event; or none. */
    method ScanRow(tag: nat, words: nat, from: Addr, at: Addr)
      requires Valid() && Link(Packet(tag, words, from), at) in active && tag != BLAMES && tag != DIAGNOSTICS
      modifies this
      ensures Did({Link(Packet(tag, words, from), at)}, 0)
    {
      hide Ok, Step, PartLinks, At, EntryOf, Typed, Size, FirstParts, Weight, Budget, RowOf;
      ghost var l := Link(Packet(tag, words, from), at);
      ghost var s := Now();
      ScannedTyped(src, s, l);
      var row := RowOf(src.from, tag, from);
      assert PartsOf(src, l) == RowParts(src.img, src.from, row, from);
      Enter(l);
      ghost var t := Now();
      FirstPartsAll(src, l);
      StepRefl(src, t);
      for i := 0 to row.count
        invariant Valid() && Step(src, t, Now(), FirstParts(src, l, i), 0)
      {
        ghost var u := Now();
        StillActive(src, l, t, u, i, 0);
        EdgeValue(At(src.from, from + row.types + i), from + row.refs + i, at + row.refs + i);
        NextPart(src, l, t, u, Now(), i, 0, 0);
      }
      LeafStep(src, s, l, Now(), 0);
    }

    /** One unit of pending work. */
    method TraceObject(w: Work)
      requires Valid() && LinkOf(src, w) in active
      modifies this
      ensures Did({LinkOf(src, w)}, Less(Extent(src, LinkOf(src, w))))
      ensures Extent(src, LinkOf(src, w)) == 0 ==> pending == old(pending) && KeysOf(Now()) == KeysOf(old(Now()))
    {
      hide Ok, Step, At, EntryOf, Typed, Weight, Budget, InnerOf;
      ghost var s := Now();
      ghost var l := LinkOf(src, w);
      WorkExtent(src, s, w);
      match w {
        case PacketWork(tag, from, at, words) =>
          ScanPacket(tag, words, from, at);
          StepWeaken(src, s, Now(), {l}, 0, Less(Extent(src, l)));
        case Work(Boxes, from, at, _, ty) =>
          var e := EntryOf(src.img, ty);
          ScanValue(e, from, at);
          StepWeaken(src, s, Now(), {l}, Max0(e.size - HEADER), Less(Extent(src, l)));
        case Work(Newtypes, from, at, _, ty) =>
          var e := InnerOf(src.img, EntryOf(src.img, ty));
          ScanValue(e, from, at);
          StepWeaken(src, s, Now(), {l}, Max0(e.size - HEADER), Less(Extent(src, l)));
        case Work(Records, from, at, size, ty) =>
          ScanFields(EntryOf(src.img, ty), size, from, at);
        case Work(Arrays, from, at, size, ty) =>
          var e := EntryOf(src.img, ty);
          ScanElements(e, if e.size == 0 then 0 else size / e.size, from, at);
        case Work(Environments, from, at, _, _) =>
          ScanCaptures(from, at);
          StepWeaken(src, s, Now(), {l}, 0, Less(Extent(src, l)));
      }
    }

    /** The worklist: every pending block is scanned exactly once. */
    method Finish()
      requires Valid() && active == {}
      modifies this
      ensures Valid() && active == {} && pending == []
      ensures old(links) <= links && Extends(old(Now()).(pending := []), Now())
    {
      hide Ok, Step, Extent, LinkOf, Weight, Budget;
      while pending != []
        invariant Valid() && active == {}
        invariant old(links) <= links && Extends(old(Now()).(pending := []), Now().(pending := []))
        decreases Budget(src, KeysOf(Now())), Weight(src, pending), |pending|
      {
        ghost var s := Now();
        var w := pending[|pending| - 1];
        ghost var l := LinkOf(src, w);
        PopOk(src, s);
        pending := pending[..|pending| - 1];
        active := {l};
        ghost var t := Now();
        assert t == s.(pending := s.pending[..|s.pending| - 1], active := s.active + {l});
        TraceObject(w);
        FinishStep(src, t, Now(), l);
      }
    }

    // ----- telora_collect ---------------------------------------------------

    constructor (src: Source)
      requires Typed(src.img, src.from, src.origin, src.ty)
      ensures Valid() && this.src == src && active == {} && pending == [] && values == map[] && objects == map[]
      ensures slotNext == map[]
    {
      hide Ok, Typed;
      this.src := src;
      heap := Heap(map[], map p | p in src.from.raws && p < src.origin :: src.from.raws[p], map[]);
      rawNext, slotNext, values, objects, pending := map[], map[], map[], map[], [];
      links, active := {}, {};
      new;
      InitialOk(src);
      assert Now() == Initial(src);
    }

    /** The roots, in order; a root seen before gets the address it got then. */
    method MoveRoots(roots: seq<Root>) returns (moved: seq<Addr>)
      requires Valid() && active == {}
      requires forall i :: 0 <= i < |roots| ==> RootTyped(src, roots[i].ref, roots[i].ty)
      modifies this
      ensures Valid() && active == {} && slotNext == old(slotNext) && heap.tables == old(heap.tables)
      ensures |moved| == |roots| && forall i :: 0 <= i < |roots| ==>
        && Relocated(src, links, roots[i].ref, roots[i].ty, moved[i])
        && Forwarded(src, values, roots[i].ref, moved[i])
    {
      hide Ok, Step, EntryOf;
      moved := [];
      while |moved| < |roots|
        invariant Valid() && active == {} && |moved| <= |roots|
        invariant slotNext == old(slotNext) && heap.tables == old(heap.tables)
        invariant forall i :: 0 <= i < |moved| ==> Relocated(src, links, roots[i].ref, roots[i].ty, moved[i])
        invariant forall i :: 0 <= i < |moved| ==> Forwarded(src, values, roots[i].ref, moved[i])
      {
        ghost var s := Now();
        var next := ForwardValue(roots[|moved|].ref, roots[|moved|].ty);
        StepActive(src, s, Now(), {}, 0);
        StepForwarded(src, s, Now());
        moved := moved + [next];
      }
    }

    /** All ready demands, in place; other demands stay as they are. */
    method MoveDemands(demands: seq<Demand>) returns (patched: seq<Demand>)
      requires Valid() && active == {}
      requires forall i :: 0 <= i < |demands| && demands[i].Ready? ==> RootTyped(src, demands[i].ref, demands[i].ty)
      modifies this
      ensures Valid() && active == {} && slotNext == old(slotNext) && heap.tables == old(heap.tables)
      ensures old(links) <= links
      ensures |patched| == |demands|
      ensures forall i :: 0 <= i < |demands| ==> DemandMoved(src, links, demands[i], patched[i])
    {
      hide Ok, Step, EntryOf;
      patched := [];
      while |patched| < |demands|
        invariant Valid() && active == {} && |patched| <= |demands| && old(links) <= links
        invariant slotNext == old(slotNext) && heap.tables == old(heap.tables)
        invariant forall i :: 0 <= i < |patched| ==> DemandMoved(src, links, demands[i], patched[i])
      {
        var demand := demands[|patched|];
        if demand.Ready? {
          ghost var s := Now();
          var next := ForwardValue(demand.ref, demand.ty);
          StepActive(src, s, Now(), {}, 0);
          patched := patched + [demand.(ref := next)];
        } else {
          patched := patched + [demand];
        }
      }
    }

    /** Every slot of one table, in order: each keeps its number. */
    method KeepTable(tag: nat)
      requires Valid() && active == {} && Cells(heap, tag) == []
      requires forall id :: HasCell(src.from, tag, id) ==> CellTyped(src, tag, id)
      requires forall id :: (tag, id) !in slotNext
      modifies this
      ensures Valid() && active == {} && old(links) <= links
      ensures Kept(slotNext, tag, |Cells(src.from, tag)|)
      ensures forall t, id :: t != tag ==> ((t, id) in slotNext <==> (t, id) in old(slotNext))
      ensures forall t, id :: (t, id) in old(slotNext) ==>
        (t, id) in slotNext && slotNext[(t, id)] == old(slotNext)[(t, id)]
      ensures forall t :: t != tag ==> Cells(heap, t) == Cells(old(heap), t)
    {
      hide Ok, Step, EntryOf, Cells, CellTyped;
      for id := 0 to |Cells(src.from, tag)|
        invariant Valid() && active == {} && old(links) <= links
        invariant |Cells(heap, tag)| == id && Kept(slotNext, tag, id) && forall k :: k >= id ==> (tag, k) !in slotNext
        invariant forall t, k :: t != tag ==> ((t, k) in slotNext <==> (t, k) in old(slotNext))
        invariant forall t, k :: (t, k) in old(slotNext) ==>
          (t, k) in slotNext && slotNext[(t, k)] == old(slotNext)[(t, k)]
        invariant forall t :: t != tag ==> Cells(heap, t) == Cells(old(heap), t)
      {
        ghost var s := Now();
        var next := ForwardSlot(tag, id);
        StepActive(src, s, Now(), {}, 0);
        assert next == id;
      }
    }

    /** Owned resources that were not forwarded, by their old slots: each of
        them is released once. */
    method ReleaseOwned() returns (released: seq<nat>)
      ensures forall id: nat :: id in released <==> id < |Cells(src.from, REGEXES)| && (REGEXES, id) !in slotNext
      ensures forall i, j :: 0 <= i < j < |released| ==> released[i] < released[j]
    {
      released := [];
      for id := 0 to |Cells(src.from, REGEXES)|
        invariant forall k: nat :: k in released <==> k < id && (REGEXES, k) !in slotNext
        invariant forall i :: 0 <= i < |released| ==> released[i] < id
        invariant forall i, j :: 0 <= i < j < |released| ==> released[i] < released[j]
      {
        if (REGEXES, id) !in slotNext {
          released := released + [id];
        }
      }
    }

    /** Relocates the roots, then all ready demands in place, then the feedback
        under its old numbers, then everything reachable from them. Every
        relocated reference unfolds as before. Each resource that was reached
        has one new slot of its own, in which it is what it was, and each owned
        resource was either moved or released. */
    method Collect(roots: seq<Root>, demands: seq<Demand>)
      returns (moved: seq<Addr>, patched: seq<Demand>, released: seq<nat>)
      requires Valid() && active == {} && slotNext == map[]
      requires forall i :: 0 <= i < |roots| ==> RootTyped(src, roots[i].ref, roots[i].ty)
      requires forall i :: 0 <= i < |demands| && demands[i].Ready? ==> RootTyped(src, demands[i].ref, demands[i].ty)
      requires FeedbackTyped(src)
      modifies this
      ensures Valid() && active == {} && pending == []
      ensures Complete(src, CopyOf(src, Now())) && CopiedThroughout(src, CopyOf(src, Now()))
      ensures |moved| == |roots| && forall i :: 0 <= i < |roots| ==>
        Relocated(src, links, roots[i].ref, roots[i].ty, moved[i])
      ensures |patched| == |demands| && forall i :: 0 <= i < |demands| ==>
        DemandMoved(src, links, demands[i], patched[i])
      ensures |moved| == |roots| && forall i, fuel: nat :: 0 <= i < |roots| ==>
        RootTree(src, src.from, roots[i].ref, roots[i].ty, fuel) == RootTree(src, heap, moved[i], roots[i].ty, fuel)
      ensures forall i, j :: 0 <= i < |roots| && 0 <= j < |roots| && roots[i].ref == roots[j].ref ==>
        moved[i] == moved[j]
      ensures |patched| == |demands| && forall i :: 0 <= i < |demands| ==> DemandKept(src, heap, demands[i], patched[i])
      ensures Kept(slotNext, DIAGNOSTICS, |Cells(src.from, DIAGNOSTICS)|)
      ensures Kept(slotNext, DEBUG_EVENTS, |Cells(src.from, DEBUG_EVENTS)|)
      ensures ResourcesKept(src, heap, slotNext)
      ensures forall id: nat :: id in released <==> id < |Cells(src.from, REGEXES)| && (REGEXES, id) !in slotNext
      ensures forall i, j :: 0 <= i < j < |released| ==> released[i] < released[j]
    {
      hide Ok, Step, EntryOf, RootTree, Complete, CopyOf, Cells, CellTyped, DemandMoved, DemandKept, CopiedThroughout,
           Relocated;
      FreshTables(src, Now());
      moved := MoveRoots(roots);
      assert forall i, j :: 0 <= i < |roots| && 0 <= j < |roots| && roots[i].ref == roots[j].ref ==>
        moved[i] == moved[j];
      ghost var links0 := links;
      patched := MoveDemands(demands);
      FreshTables(src, Now());
      ghost var links1 := links;
      KeepTable(DIAGNOSTICS);
      KeepTable(DEBUG_EVENTS);
      Finish();
      released := ReleaseOwned();
      Settled(src, Now());
      ghost var c := CopyOf(src, Now());
      RootsKept(src, c, links0, roots, moved);
      DemandsKept(src, c, links1, demands, patched);
      LinksStay(src, links0, links1, links, roots, moved, demands, patched);
      AllResourcesKept(src, c);
      AllCopied(src, c);
    }
  }

  /** Every piece of storage that was copied, word by word. */
  ghost predicate CopiedThroughout(src: Source, c: Copy) {
    forall l :: l in c.links && !IsSlot(l.node) ==> CopiedWords.Exact(src, c, l.node, l.at)
  }

  lemma AllCopied(src: Source, c: Copy)
    requires Complete(src, c)
    ensures CopiedThroughout(src, c)
  {
    hide Complete, CopiedWords.Exact, IsSlot;
    forall l | l in c.links && !IsSlot(l.node)
      ensures CopiedWords.Exact(src, c, l.node, l.at)
    {
      assert l == Link(l.node, l.at);
      CopiedWords.CopiedExactly(src, c, l.node, l.at);
    }
  }

  lemma LinksStay(src: Source, l0: set<Link>, l1: set<Link>, links: set<Link>, roots: seq<Root>, moved: seq<Addr>,
                  demands: seq<Demand>, patched: seq<Demand>)
    requires l0 <= l1 <= links && |moved| == |roots| && |patched| == |demands|
    requires forall i :: 0 <= i < |roots| ==> Relocated(src, l0, roots[i].ref, roots[i].ty, moved[i])
    requires forall i :: 0 <= i < |demands| ==> DemandMoved(src, l1, demands[i], patched[i])
    ensures forall i :: 0 <= i < |roots| ==> Relocated(src, links, roots[i].ref, roots[i].ty, moved[i])
    ensures forall i :: 0 <= i < |demands| ==> DemandMoved(src, links, demands[i], patched[i])
  {
    hide EntryOf;
    forall i | 0 <= i < |demands|
      ensures DemandMoved(src, links, demands[i], patched[i])
    {
      assert DemandMoved(src, l1, demands[i], patched[i]);
    }
  }

  ghost predicate FeedbackTyped(src: Source) {
    forall tag: nat, id :: Feedback(tag) && HasCell(src.from, tag, id) ==> CellTyped(src, tag, id)
  }

  /** The first `n` resources of a table kept their numbers. */
  ghost predicate Kept(next: map<(nat, nat), nat>, tag: nat, n: nat) {
    forall id: nat :: id < n ==> (tag, id) in next && next[(tag, id)] == id
  }

  /** The demand after relocation: a ready one refers to the copy. */
  ghost predicate DemandMoved(src: Source, links: set<Link>, d: Demand, p: Demand) {
    if d.Ready? then p.Ready? && p.ty == d.ty && Relocated(src, links, d.ref, d.ty, p.ref) else p == d
  }

  /** A ready demand means what it meant; any other is untouched. */
  ghost predicate DemandKept(src: Source, h: Heap, d: Demand, p: Demand) {
    if d.Ready? then p.Ready? && p.ty == d.ty
      && forall fuel: nat :: RootTree(src, src.from, d.ref, d.ty, fuel) == RootTree(src, h, p.ref, d.ty, fuel)
    else p == d
  }

  /** What the old slot holds is what the new slot holds. */
  ghost predicate SameResource(src: Source, h: Heap, tag: nat, id: nat, k: nat)
    requires HasCell(src.from, tag, id) && HasCell(h, tag, k)
  {
    var was, now := Cells(src.from, tag)[id], Cells(h, tag)[k];
    && now.words == was.words
    && (tag == REGEXES ==> now.payload == was.payload)
    && (tag != REGEXES ==> forall fuel: nat ::
          Deep(src.img, src.from, src.origin, PacketOf(tag, was), fuel) ==
            Deep(src.img, h, src.origin, PacketOf(tag, now), fuel))
  }

  /** Forwarding pairs the resources that were reached with the new slots, one to
      one, and each pair holds the same. */
  ghost predicate ResourcesKept(src: Source, h: Heap, next: map<(nat, nat), nat>) {
    && (forall t, i :: (t, i) in next ==>
          HasCell(src.from, t, i) && HasCell(h, t, next[(t, i)]) && SameResource(src, h, t, i, next[(t, i)]))
    && (forall t, i, j :: (t, i) in next && (t, j) in next && next[(t, i)] == next[(t, j)] ==> i == j)
    && (forall t: nat, k: nat :: k < |Cells(h, t)| ==> Filled(next, t, k))
  }

  lemma FreshTables(src: Source, s: State)
    requires Ok(src, s) && s.slotNext == map[]
    ensures forall t: nat :: Cells(s.heap, t) == []
  {
    hide LinkOf, Typed, AllDone, TodoFresh, TodoApart, Present, RawsDone, StaticRaws, Cells;
    var c := CopyOf(src, s);
    assert TablesDone(src, c);
    forall t: nat
      ensures Cells(s.heap, t) == []
    {
      assert !Filled(c.slotNext, t, 0);
    }
  }

  lemma RootsKept(src: Source, c: Copy, links: set<Link>, roots: seq<Root>, moved: seq<Addr>)
    requires Complete(src, c) && links <= c.links && |moved| == |roots|
    requires forall i :: 0 <= i < |roots| ==> Relocated(src, links, roots[i].ref, roots[i].ty, moved[i])
    ensures forall i, fuel: nat :: 0 <= i < |roots| ==>
      RootTree(src, src.from, roots[i].ref, roots[i].ty, fuel) == RootTree(src, c.heap, moved[i], roots[i].ty, fuel)
  {
    hide Complete, RootTree, EntryOf;
    forall i, fuel: nat | 0 <= i < |roots|
      ensures RootTree(src, src.from, roots[i].ref, roots[i].ty, fuel) ==
        RootTree(src, c.heap, moved[i], roots[i].ty, fuel)
    {
      assert Relocated(src, links, roots[i].ref, roots[i].ty, moved[i]);
      RelocatedMeaning(src, c, roots[i].ref, roots[i].ty, moved[i], fuel);
    }
  }

  lemma DemandsKept(src: Source, c: Copy, links: set<Link>, demands: seq<Demand>, patched: seq<Demand>)
    requires Complete(src, c) && links <= c.links && |patched| == |demands|
    requires forall i :: 0 <= i < |demands| ==> DemandMoved(src, links, demands[i], patched[i])
    ensures forall i :: 0 <= i < |demands| ==> DemandKept(src, c.heap, demands[i], patched[i])
  {
    hide Complete, RootTree, EntryOf;
    forall i | 0 <= i < |demands|
      ensures DemandKept(src, c.heap, demands[i], patched[i])
    {
      var d, p := demands[i], patched[i];
      assert DemandMoved(src, links, d, p);
      if d.Ready? {
        forall fuel: nat
          ensures RootTree(src, src.from, d.ref, d.ty, fuel) == RootTree(src, c.heap, p.ref, d.ty, fuel)
        {
          RelocatedMeaning(src, c, d.ref, d.ty, p.ref, fuel);
        }
      }
    }
  }

  lemma AllResourcesKept(src: Source, c: Copy)
    requires Complete(src, c)
    ensures ResourcesKept(src, c.heap, c.slotNext)
  {
    hide LinkOf, Typed, AllDone, TodoFresh, TodoApart, Present, RawsDone, StaticRaws, Cells, SameResource, CellDone;
    assert TablesDone(src, c);
    forall t, i | (t, i) in c.slotNext
      ensures HasCell(src.from, t, i) && HasCell(c.heap, t, c.slotNext[(t, i)])
      ensures SameResource(src, c.heap, t, i, c.slotNext[(t, i)])
    {
      OneResourceKept(src, c, t, i, c.slotNext[(t, i)]);
    }
  }

  lemma OneResourceKept(src: Source, c: Copy, tag: nat, id: nat, k: nat)
    requires Complete(src, c) && HasCell(src.from, tag, id) && HasCell(c.heap, tag, k)
    requires CellDone(src, c, tag, Cells(src.from, tag)[id], Cells(c.heap, tag)[k])
    ensures SameResource(src, c.heap, tag, id, k)
  {
    hide Complete, Cells;
    var was, now := Cells(src.from, tag)[id], Cells(c.heap, tag)[k];
    if tag != REGEXES {
      forall fuel: nat
        ensures Deep(src.img, src.from, src.origin, PacketOf(tag, was), fuel) ==
          Deep(src.img, c.heap, src.origin, PacketOf(tag, now), fuel)
      {
        SameNode(src, c, PacketOf(tag, was), now.payload, fuel);
      }
    }
  }

  lemma CopiedStores(src: Source, was: Heap, heap: Heap, from: Addr, at: Addr, size: nat)
    requires Copied(src, was, heap, from, at, size)
    ensures SameStores(heap, was)
  {
    hide At;
  }

  /** Only words differ. */
  predicate SameStores(h: Heap, was: Heap) {
    h.raws == was.raws && h.tables == was.tables
  }

  function Zeros(at: Addr, size: nat): (m: map<Addr, Word>)
    ensures forall a :: a in m <==> at <= a < at + size
  {
    if size == 0 then map[] else Zeros(at, size - 1)[at + size - 1 := 0]
  }

  /** Between the states, one resource was forwarded to the end of its table. */
  ghost predicate NewSlot(src: Source, s: State, t: State, tag: nat, id: nat) {
    && t.slotNext == s.slotNext[(tag, id) := |Cells(s.heap, tag)|]
    && |Cells(t.heap, tag)| == |Cells(s.heap, tag)| + 1 && Cells(s.heap, tag) <= Cells(t.heap, tag)
    && (HasCell(src.from, tag, id) ==>
          var now := Cells(t.heap, tag)[|Cells(s.heap, tag)|]; now == Cells(src.from, tag)[id].(payload := now.payload))
    && forall k :: k != tag ==> Cells(t.heap, k) == Cells(s.heap, k)
  }

  lemma SlottedShape(src: Source, s: State, tag: nat, id: nat, at: Addr)
    requires HasCell(src.from, tag, id)
    ensures NewSlot(src, s, Slotted(src, s, tag, id, at), tag, id)
  {
  }

  lemma NewSlotFrom(src: Source, s: State, u: State, t: State, tag: nat, id: nat)
    requires NewSlot(src, u, t, tag, id) && u.slotNext == s.slotNext && SameStores(u.heap, s.heap)
    ensures NewSlot(src, s, t, tag, id)
  {
    hide Cells;
    SameCells(s.heap, u.heap);
  }

  lemma NewSlotKnown(src: Source, s: State, t: State, tag: nat, id: nat)
    requires NewSlot(src, s, t, tag, id)
    ensures (tag, id) in t.slotNext && t.slotNext[(tag, id)] == |Cells(s.heap, tag)|
  {
    hide Cells;
  }

  lemma OwnedCell(src: Source, s: State, tag: nat, c: Cell)
    requires tag == REGEXES
    ensures CellDone(src, CopyOf(src, s), tag, c, c.(payload := c.payload))
  {
  }

  /** The words from `at` on are free, outside static storage. */
  predicate FreshBlock(keys: set<Addr>, origin: Addr, size: nat, at: Addr) {
    at >= origin && forall a :: at <= a < at + size ==> a !in keys
  }

  lemma FreshBlockExists(keys: set<Addr>, origin: Addr, size: nat)
    ensures exists at :: FreshBlock(keys, origin, size, at)
  {
    var m := UpperBound(keys);
    var at := if m < origin then origin else m + 1;
    assert FreshBlock(keys, origin, size, at);
  }

  lemma UpperBound(keys: set<int>) returns (m: int)
    ensures forall a :: a in keys ==> a <= m
    decreases |keys|
  {
    m := 0;
    if x :| x in keys {
      var rest := keys - {x};
      var k := UpperBound(rest);
      m := if x > k then x else k;
      forall a | a in keys
        ensures a <= m
      {
        assert a == x || a in rest;
      }
    }
  }

  lemma EnvironmentSize(src: Source, id: Addr, at: Addr)
    ensures Extent(src, Link(Object(Environments, id), 0)) == Extent(src, Link(Object(Environments, id), at))
  {
  }

  /** What copying an array promises about storage. */
  ghost predicate ArrayCopied(src: Source, was: Heap, heap: Heap, id: Addr, at: Addr) {
    var length := Max0(At(src.from, id + 2));
    var size := length * EntryOf(src.img, At(src.from, id)).size;
    && SameStores(heap, was)
    && (forall a :: at <= a < at + (4 + size) ==> a !in was.words && a in heap.words)
    && (forall a :: a in was.words ==> a in heap.words && heap.words[a] == was.words[a])
    && heap.words[at] == At(src.from, id) && heap.words[at + 1] == at + 4 && heap.words[at + 2] == length
    && forall a :: at + 4 <= a < at + 4 + size ==> heap.words[a] == At(src.from, At(src.from, id + 1) + (a - (at + 4)))
  }

  lemma ArrayBlock(src: Source, s: State, heap: Heap, id: Addr, at: Addr)
    requires Typed(src.img, src.from, src.origin, src.ty) && Object(Arrays, id) in src.ty.nodes
    requires ArrayCopied(src, s.heap, heap, id, at)
    ensures AllocatedArray(src, CopyOf(src, s), heap, id, at)
    ensures EntryOf(src.img, At(src.from, id)).size == 0 ==> At(src.from, id + 2) == 0
  {
    hide Typed, Parts, Packed, WorkLinks;
    NodeValid(src, Object(Arrays, id));
  }

  /** Nothing pending, nothing active: the copy is complete. */
  lemma Settled(src: Source, s: State)
    requires Ok(src, s) && s.active == {} && s.pending == []
    ensures var c := CopyOf(src, s);
      Complete(src, c) && c.heap == s.heap && c.links == s.links && c.slotNext == s.slotNext
  {
    hide Inv, Typed, LinkOf;
  }
}
