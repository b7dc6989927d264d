/** How the pieces of one scan add up: each lemma relates the state before a
    link is scanned to the state after all of its parts have been dealt with. */
module ScanSteps {
  import opened HeapGraph
  import opened CopyRelation
  import opened CollectorState

  lemma StepRefl(src: Source, s: State)
    ensures Step(src, s, s, {}, 0)
  {
  }

  lemma StepWeaken(src: Source, s: State, t: State, done: set<Link>, x: nat, y: nat)
    requires Step(src, s, t, done, x) && x <= y
    ensures Step(src, s, t, done, y)
  {
    hide Budget, Weight;
  }

  /** A value that was forwarded before is forwarded with an equal layout. */
  lemma SameHead(src: Source, s: State, p: Addr, ty: int)
    requires Ok(src, s) && p in s.values && Value(EntryOf(src.img, ty), p) in src.ty.heads
    ensures Link(Value(EntryOf(src.img, ty), p), s.values[p].0) in s.links
    ensures EntryOf(src.img, s.values[p].1) == EntryOf(src.img, ty)
  {
    hide Inv, NodesFit, PartsTyped, EntryOf, Once, Headed, At;
  }

  lemma SameObjectLink(src: Source, s: State, table: Table, id: Addr)
    requires Ok(src, s) && (table, id) in s.objects
    ensures Link(Object(table, id), s.objects[(table, id)]) in s.links
  {
    hide Inv, Typed, EntryOf, Once, Headed;
  }

  lemma ScannedTyped(src: Source, s: State, l: Link)
    requires Ok(src, s) && l in s.active
    ensures Typed(src.img, src.from, src.origin, src.ty) && l.node in src.ty.nodes
  {
    hide Typed;
    ActiveInv(src, s, l);
    OkTyped(src, s);
  }

  /** Every part occupies storage. */
  lemma PartsPositive(src: Source, l: Link)
    requires Typed(src.img, src.from, src.origin, src.ty) && l.node in src.ty.nodes && !IsSlot(l.node)
    ensures forall p :: p in PartLinks(src, l) ==> Extent(src, p) > 0
  {
    hide PartLinks, Typed;
    forall p | p in PartLinks(src, l)
      ensures Extent(src, p) > 0
    {
      PartPositive(src, l, p);
    }
  }

  lemma PartPositive(src: Source, l: Link, p: Link)
    requires Typed(src.img, src.from, src.origin, src.ty) && l.node in src.ty.nodes && p in PartLinks(src, l)
    ensures Extent(src, p) > 0
  {
    hide Covers, Typed, PartLinks, Owns, Packed, Parts, At, Size, ValidNode;
    PartInside(src, l, p);
    NodeValid(src, l.node);
    NodeValid(src, p.node);
    PartIsPart(src, l, p);
    PartSize(src, l.node, p.node);
  }

  lemma NodeValid(src: Source, n: Node)
    requires Typed(src.img, src.from, src.origin, src.ty) && n in src.ty.nodes
    ensures ValidNode(src.img, src.from, n)
    ensures Packed(src.from, Parts(src.img, src.from, n), n.at, n.at + Size(src.from, n))
  {
    hide ValidNode, Packed, Parts, Size, PartsTyped, TargetsTyped;
  }

  lemma PartIsPart(src: Source, l: Link, p: Link)
    requires p in PartLinks(src, l)
    ensures p.node in Parts(src.img, src.from, l.node)
  {
    hide Parts;
  }

  lemma PartSize(src: Source, n: Node, p: Node)
    requires ValidNode(src.img, src.from, n) && ValidNode(src.img, src.from, p)
    requires p in Parts(src.img, src.from, n)
    ensures Size(src.from, p) > 0
  {
    hide At, EntryOf, InnerOf, FieldsOf;
  }

  lemma ScanValid(src: Source, s: State, l: Link)
    requires Ok(src, s) && l in s.active && !IsSlot(l.node)
    ensures Ok(src, Scan(src, s, l))
    ensures forall p :: p in PartLinks(src, l) ==> p !in s.active - {l}
  {
    hide Ok, Typed, PartLinks, Extent, IsSlot, WorkLinks;
    ScannedTyped(src, s, l);
    PartsPositive(src, l);
    ScanOk(src, s, l);
  }

  /** Scanning a link and then finishing all of its parts finishes the link. */
  lemma LeafStep(src: Source, s: State, l: Link, t: State, x: nat)
    requires Step(src, Scan(src, s, l), t, PartLinks(src, l), x) && l in s.active
    requires forall p :: p in PartLinks(src, l) ==> p !in s.active - {l}
    ensures Step(src, s, t, {l}, x)
  {
    hide Budget, Weight, PartLinks;
  }

  /** Scanning a link whose parts are all left active. */
  lemma ScanStep(src: Source, s: State, l: Link)
    requires l in s.active && PartLinks(src, l) == {}
    ensures Step(src, s, Scan(src, s, l), {l}, 0)
  {
    hide Budget, Weight, PartLinks;
  }

  /** `now` differs from `start` in that `l` took the place of `l0`. */
  ghost predicate Descended(start: State, now: State, l0: Link, l: Link) {
    && now == start.(links := now.links, active := now.active)
    && start.links <= now.links
    && l in now.active
    && now.active - {l} == start.active - {l0}
    && l !in start.active - {l0}
  }

  lemma DescendStep(src: Source, start: State, now: State, l0: Link, l: Link, t: State, x: nat)
    requires Descended(start, now, l0, l) && Step(src, now, t, {l}, x)
    ensures Step(src, start, t, {l0}, x)
  {
    hide Budget, Weight;
    assert t.active == now.active - {l};
  }

  lemma DescendScan(src: Source, start: State, now: State, l0: Link, l: Link, p: Link)
    requires Descended(start, now, l0, l) && PartLinks(src, l) == {p}
    requires p !in now.active - {l}
    ensures Descended(start, Scan(src, now, l), l0, p)
  {
    hide PartLinks;
    assert p in PartLinks(src, l);
  }

  // ----- slots --------------------------------------------------------------

  lemma HandleDone(src: Source, s: State, l: Link, to: Word)
    requires l.node.Handle? || l.node.Ref?
    requires At(src.from, l.node.at) < src.origin ==> to == At(src.from, l.node.at)
    requires var p := At(src.from, l.node.at);
      p >= src.origin ==> Link(if l.node.Ref? then Value(l.node.e, p) else Object(l.node.table, p), to) in s.links
    ensures SlotDone(src, Redirect(CopyOf(src, s), l, to), l)
  {
    hide WorkLinks;
    assert At(Redirect(CopyOf(src, s), l, to).heap, l.at) == to;
  }

  lemma RawDone(src: Source, s: State, l: Link, to: Word)
    requires l.node.Raw?
    requires var p := At(src.from, l.node.at);
      if p < src.origin then to == p else p in s.rawNext && to == s.rawNext[p]
    ensures SlotDone(src, Redirect(CopyOf(src, s), l, to), l)
  {
    hide WorkLinks;
    assert At(Redirect(CopyOf(src, s), l, to).heap, l.at) == to;
  }

  lemma ResourceDone(src: Source, s: State, l: Link, to: nat)
    requires l.node.Slot? && At(src.from, l.node.at) >= 0
    requires var k := (l.node.tag, At(src.from, l.node.at) as nat); k in s.slotNext && s.slotNext[k] == to
    ensures SlotDone(src, Redirect(CopyOf(src, s), l, to), l)
  {
    hide WorkLinks;
    assert At(Redirect(CopyOf(src, s), l, to).heap, l.at) == to;
  }

  /** A resource slot in the typing names a slot, and its payload is in the
      typing unless it is owned outside the heap. */
  lemma SlotTarget(src: Source, n: Node)
    requires Typed(src.img, src.from, src.origin, src.ty) && n in src.ty.nodes && n.Slot?
    ensures var id := At(src.from, n.at);
      HasCell(src.from, n.tag, id) && CellTyped(src, n.tag, id)
  {
    hide NodesFit, PartsTyped, At, Typed, ValidNode, Cells;
    NodeValid(src, n);
    SlotValid(src, n);
    if n.tag != REGEXES {
      SlotPayload(src, n);
      NodeValid(src, PacketOf(n.tag, Cells(src.from, n.tag)[At(src.from, n.at)]));
      PacketValid(src, n.tag, Cells(src.from, n.tag)[At(src.from, n.at)]);
    }
  }

  lemma BelongingsDone(src: Source, s: State, l: Link, to: Addr)
    requires l.node.Owned?
    requires if l.node.words == 0 then to == 0 else Link(Blob(l.node.words, At(src.from, l.node.at)), to) in s.links
    ensures SlotDone(src, Redirect(CopyOf(src, s), l, to), l)
  {
    hide WorkLinks;
    assert At(Redirect(CopyOf(src, s), l, to).heap, l.at) == to;
  }

  lemma BelongingsTarget(src: Source, n: Node)
    requires Typed(src.img, src.from, src.origin, src.ty) && n in src.ty.nodes && n.Owned? && n.words > 0
    ensures Blob(n.words, At(src.from, n.at)) in src.ty.nodes
  {
    hide NodesFit, PartsTyped, At, Cells;
    assert Blob(n.words, At(src.from, n.at)) in Belongings(src.from, n);
  }

  /** The payload of a resource is storage in the typing, or owned elsewhere. */
  ghost predicate CellTyped(src: Source, tag: nat, id: nat)
    requires HasCell(src.from, tag, id)
  {
    tag == REGEXES || (PacketOf(tag, Cells(src.from, tag)[id]) in src.ty.nodes && Cells(src.from, tag)[id].words > 0)
  }

  lemma SlotValid(src: Source, n: Node)
    requires n.Slot? && ValidNode(src.img, src.from, n)
    ensures HasCell(src.from, n.tag, At(src.from, n.at))
  {
    hide At, Cells;
  }

  lemma PacketValid(src: Source, tag: nat, c: Cell)
    requires ValidNode(src.img, src.from, PacketOf(tag, c))
    ensures c.words > 0
  {
  }

  lemma SlotPayload(src: Source, n: Node)
    requires Typed(src.img, src.from, src.origin, src.ty) && n in src.ty.nodes && n.Slot? && n.tag != REGEXES
    requires HasCell(src.from, n.tag, At(src.from, n.at))
    ensures PacketOf(n.tag, Cells(src.from, n.tag)[At(src.from, n.at)]) in src.ty.nodes
  {
    hide NodesFit, PartsTyped, At, Cells;
    assert PacketOf(n.tag, Cells(src.from, n.tag)[At(src.from, n.at)]) in Payloads(src.from, n);
  }

  lemma RedirectStep(src: Source, s: State, l: Link, to: Word)
    requires Ok(src, s) && l in s.active && IsSlot(l.node)
    requires SlotDone(src, Redirect(CopyOf(src, s), l, to), l)
    ensures Ok(src, Redirected(s, l, to)) && Step(src, s, Redirected(s, l, to), {l}, 0)
  {
    hide Ok, SlotDone, CopyOf, IsSlot;
    RedirectOk(src, s, l, to);
  }

  /** What a handle in the typing designates is in the typing as well. */
  lemma HandleTarget(src: Source, n: Node)
    requires Typed(src.img, src.from, src.origin, src.ty) && n in src.ty.nodes
    requires At(src.from, n.at) >= src.origin
    ensures n.Handle? ==> Object(n.table, At(src.from, n.at)) in src.ty.nodes
    ensures n.Ref? ==> Value(n.e, At(src.from, n.at)) in src.ty.heads
  {
    hide NodesFit, PartsTyped, At;
    if n.Handle? {
      assert Object(n.table, At(src.from, n.at)) in Target(src.from, src.origin, n);
    } else if n.Ref? {
      assert Value(n.e, At(src.from, n.at)) in Target(src.from, src.origin, n);
    }
  }

  lemma RawNode(src: Source, n: Node)
    requires Typed(src.img, src.from, src.origin, src.ty) && n in src.ty.nodes && n.Raw?
    ensures var p := At(src.from, n.at); p in src.from.raws && src.from.raws[p].len <= |src.from.raws[p].bytes|
  {
    hide At, Typed, Parts, Size, Packed;
    NodeValid(src, n);
  }

  lemma RawStep(src: Source, s: State, t: State)
    requires t == s.(heap := t.heap, rawNext := t.rawNext)
    requires forall p :: p in s.rawNext ==> p in t.rawNext && t.rawNext[p] == s.rawNext[p]
    ensures Step(src, s, t, {}, 0)
  {
    hide Budget, Weight;
  }

  // ----- the parts of each kind of node -------------------------------------

  lemma ValueParts(src: Source, e: Entry, from: Addr, at: Addr)
    ensures PartLinks(src, Link(Value(e, from), at)) ==
      if e.size == HEADER then {} else {Link(Data(e, from + HEADER), at + HEADER)}
  {
    OnlyPart(src, Link(Value(e, from), at));
  }

  lemma NoParts(src: Source, e: Entry, from: Addr, at: Addr)
    requires DataParts(src.img, src.from, e, from) == []
    ensures PartLinks(src, Link(Data(e, from), at)) == {}
  {
    hide DataParts;
    OnlyPart(src, Link(Data(e, from), at));
  }

  lemma OneDataPart(src: Source, e: Entry, from: Addr, at: Addr, p: Node)
    requires DataParts(src.img, src.from, e, from) == [p]
    ensures PartLinks(src, Link(Data(e, from), at)) == {Link(p, at + (p.at - from))}
  {
    hide DataParts;
    OnlyPart(src, Link(Data(e, from), at));
  }

  lemma ContentParts(src: Source, e: Entry, from: Addr, at: Addr)
    requires e.layout.Content?
    ensures PartLinks(src, Link(Data(e, from), at)) ==
      if At(src.from, from + 3) == CONTENT_SLICE then {Link(Raw(from), at)} else {}
  {
    hide At, PartLinks;
    if At(src.from, from + 3) == CONTENT_SLICE {
      OneDataPart(src, e, from, at, Raw(from));
    } else {
      NoParts(src, e, from, at);
    }
  }

  lemma HandleParts(src: Source, e: Entry, from: Addr, at: Addr)
    requires e.layout.Record? || e.layout.Newtype?
    ensures var t := if e.layout.Record? then Records else Newtypes;
      PartLinks(src, Link(Data(e, from), at)) == {Link(Handle(t, from), at)}
  {
    hide At, PartLinks;
    OneDataPart(src, e, from, at, Handle(if e.layout.Record? then Records else Newtypes, from));
  }

  lemma ArrayParts(src: Source, e: Entry, from: Addr, at: Addr)
    requires e.layout.Array?
    ensures PartLinks(src, Link(Data(e, from), at)) ==
      if At(src.from, from + 3) == ARRAY_SINGLE then {Link(Ref(EntryOf(src.img, e.layout.elem), from), at)}
      else if At(src.from, from + 3) == ARRAY_SLICE then {Link(Handle(Arrays, from), at)}
      else {}
  {
    hide At, PartLinks, EntryOf;
    if At(src.from, from + 3) == ARRAY_SINGLE {
      OneDataPart(src, e, from, at, Ref(EntryOf(src.img, e.layout.elem), from));
    } else if At(src.from, from + 3) == ARRAY_SLICE {
      OneDataPart(src, e, from, at, Handle(Arrays, from));
    } else {
      NoParts(src, e, from, at);
    }
  }

  lemma DictParts(src: Source, e: Entry, from: Addr, at: Addr)
    requires e.layout.Dict?
    ensures PartLinks(src, Link(Data(e, from), at)) ==
      {Link(Handle(Arrays, from), at), Link(Handle(Arrays, from + 2), at + 2)}
  {
    hide At;
    var l := Link(Data(e, from), at);
    assert PartsOf(src, l) == [Handle(Arrays, from), Handle(Arrays, from + 2)];
    assert PartLink(l, PartsOf(src, l)[0]) in PartLinks(src, l);
    assert PartLink(l, PartsOf(src, l)[1]) in PartLinks(src, l);
  }

  lemma FunctionParts(src: Source, e: Entry, from: Addr, at: Addr)
    requires e.layout.Function?
    ensures PartLinks(src, Link(Data(e, from), at)) ==
      if At(src.from, from + 1) == 0 then {} else {Link(Handle(Environments, from + 1), at + 1)}
  {
    hide At, PartLinks;
    if At(src.from, from + 1) == 0 { NoParts(src, e, from, at); }
    else { OneDataPart(src, e, from, at, Handle(Environments, from + 1)); }
  }

  lemma EnumParts(src: Source, e: Entry, from: Addr, at: Addr)
    requires e.layout.Enum? && 0 <= At(src.from, from) < |e.layout.variants|
    ensures var v := e.layout.variants[At(src.from, from)];
      PartLinks(src, Link(Data(e, from), at)) ==
        if v.Nullary? then {}
        else if v.boxed then {Link(Handle(Boxes, from + 2), at + 2)}
        else {Link(Value(EntryOf(src.img, v.ty), from + 2), at + 2)}
  {
    hide At, PartLinks, EntryOf;
    var v := e.layout.variants[At(src.from, from)];
    if v.Nullary? { NoParts(src, e, from, at); }
    else if v.boxed { OneDataPart(src, e, from, at, Handle(Boxes, from + 2)); }
    else { OneDataPart(src, e, from, at, Value(EntryOf(src.img, v.ty), from + 2)); }
  }

  lemma DynParts(src: Source, e: Entry, from: Addr, at: Addr)
    requires e.layout.Dyn?
    ensures var payload := EntryOf(src.img, At(src.from, from));
      PartLinks(src, Link(Data(e, from), at)) ==
        if At(src.from, from + 1) == 1 then {Link(Handle(Boxes, from + 2), at + 2)}
        else if payload.size == HEADER then {}
        else {Link(Data(payload, from + 2), at + 2)}
  {
    hide At, PartLinks, EntryOf;
    var payload := EntryOf(src.img, At(src.from, from));
    if At(src.from, from + 1) == 1 { OneDataPart(src, e, from, at, Handle(Boxes, from + 2)); }
    else if payload.size == HEADER { NoParts(src, e, from, at); }
    else { OneDataPart(src, e, from, at, Data(payload, from + 2)); }
  }

  /** The scanner reads a valid layout, and an embedded payload is smaller. */
  lemma DataScanned(src: Source, s: State, e: Entry, from: Addr, at: Addr)
    requires Ok(src, s) && Link(Data(e, from), at) in s.active
    ensures e.size >= HEADER && ValidData(src.img, src.from, e, from)
  {
    hide Ok, Typed, ValidData, Packed, Parts, Size;
    ScannedTyped(src, s, Link(Data(e, from), at));
    NodeValid(src, Data(e, from));
  }

  lemma PayloadSmaller(src: Source, s: State, e: Entry, from: Addr, at: Addr, p: Node)
    requires Ok(src, s) && Link(Data(e, from), at) in s.active
    requires DataParts(src.img, src.from, e, from) == [p] && p.at == from + 2
    ensures p in src.ty.nodes && Size(src.from, p) + 4 <= e.size
  {
    hide Ok, Typed, ValidData, DataParts, Size, At;
    ScannedTyped(src, s, Link(Data(e, from), at));
    NodeValid(src, Data(e, from));
    DataExtent(src, e, from);
    assert Parts(src.img, src.from, Data(e, from)) == [p];
    PartTyped(src, Data(e, from), 0);
  }

  lemma DataExtent(src: Source, e: Entry, from: Addr)
    requires e.size >= HEADER
    ensures Size(src.from, Data(e, from)) == e.size - HEADER
  {
  }

  lemma PartTyped(src: Source, n: Node, i: nat)
    requires Typed(src.img, src.from, src.origin, src.ty) && n in src.ty.nodes && i < |Parts(src.img, src.from, n)|
    ensures Parts(src.img, src.from, n)[i] in src.ty.nodes
  {
    hide Parts, NodesFit, TargetsTyped;
  }

  // ----- scanning many parts in a row ---------------------------------------

  /** Links of the first `n` parts. */
  function FirstParts(src: Source, l: Link, n: nat): set<Link>
    requires n <= |PartsOf(src, l)|
  {
    set i | 0 <= i < n :: PartLink(l, PartsOf(src, l)[i])
  }

  lemma FirstPartsNext(src: Source, l: Link, n: nat)
    requires n < |PartsOf(src, l)|
    ensures FirstParts(src, l, n + 1) == FirstParts(src, l, n) + {PartLink(l, PartsOf(src, l)[n])}
    ensures PartLink(l, PartsOf(src, l)[n]) in PartLinks(src, l)
  {
    hide Parts;
  }

  lemma FirstPartsAll(src: Source, l: Link)
    ensures FirstParts(src, l, |PartsOf(src, l)|) == PartLinks(src, l)
    ensures FirstParts(src, l, 0) == {}
  {
    hide Parts;
  }

  /** A later part is none of the earlier ones. */
  lemma LaterPart(src: Source, l: Link, n: nat)
    requires Typed(src.img, src.from, src.origin, src.ty) && l.node in src.ty.nodes && !IsSlot(l.node)
    requires n < |PartsOf(src, l)|
    ensures PartLink(l, PartsOf(src, l)[n]) !in FirstParts(src, l, n)
  {
    hide Typed, PartLinks, Parts, Size, Packed, At, ValidNode;
    NodeValid(src, l.node);
    PartsPositive(src, l);
    FirstPartsNext(src, l, n);
    EndsGrow(src, l, n);
  }

  lemma EndsGrow(src: Source, l: Link, n: nat)
    requires Packed(src.from, PartsOf(src, l), l.node.at, l.node.at + Extent(src, l))
    requires forall p :: p in PartLinks(src, l) ==> Extent(src, p) > 0
    requires n < |PartsOf(src, l)|
    ensures forall j :: 0 <= j < n ==> PartsOf(src, l)[j].at < PartsOf(src, l)[n].at
  {
    hide Parts, Size;
    forall j | 0 <= j < n
      ensures PartsOf(src, l)[j].at < PartsOf(src, l)[n].at
    {
      assert PartLink(l, PartsOf(src, l)[j]) in PartLinks(src, l);
    }
  }

  /** Words taken up by the first `n` parts, counted from the node's start. */
  function Used(src: Source, l: Link, n: nat): int
    requires n <= |PartsOf(src, l)|
  {
    if n == 0 then 0 else PartsOf(src, l)[n - 1].at + Size(src.from, PartsOf(src, l)[n - 1]) - l.node.at
  }

  lemma UsedNext(src: Source, l: Link, n: nat)
    requires Typed(src.img, src.from, src.origin, src.ty) && l.node in src.ty.nodes
    requires n < |PartsOf(src, l)|
    ensures 0 <= Used(src, l, n)
    ensures Used(src, l, n) + Size(src.from, PartsOf(src, l)[n]) <= Used(src, l, n + 1) <= Extent(src, l)
    ensures PartsOf(src, l)[n] in src.ty.nodes
  {
    hide Parts, Size, Typed, At, ValidNode;
    NodeValid(src, l.node);
    PartTyped(src, l.node, n);
  }

  /** One part finished after the first `n`. */
  lemma NextPart(src: Source, l: Link, s: State, t: State, u: State, n: nat, x: nat, y: nat)
    requires n < |PartsOf(src, l)|
    requires Step(src, s, t, FirstParts(src, l, n), x) && Step(src, t, u, {PartLink(l, PartsOf(src, l)[n])}, y)
    ensures Step(src, s, u, FirstParts(src, l, n + 1), x + y)
  {
    hide Step, Parts;
    FirstPartsNext(src, l, n);
    StepTrans(src, s, t, u, FirstParts(src, l, n), {PartLink(l, PartsOf(src, l)[n])}, x, y);
  }

  // ----- payloads that are followed in the scanning loop --------------------

  lemma DescendRefl(s: State, l: Link)
    requires l in s.active
    ensures Descended(s, s, l, l)
  {
  }

  lemma DescendActive(start: State, now: State, l0: Link, l: Link)
    requires Descended(start, now, l0, l)
    ensures l in now.active
  {
  }

  lemma InlineEnum(src: Source, s: State, e: Entry, from: Addr, at: Addr)
    requires Ok(src, s) && Link(Data(e, from), at) in s.active && e.layout.Enum? && InlinePayload(src.from, e, from)
    ensures var payload := EntryOf(src.img, e.layout.variants[At(src.from, from)].ty);
      && PartLinks(src, Link(Data(e, from), at)) == {Link(Value(payload, from + 2), at + 2)}
      && payload.size + 4 <= e.size
  {
    hide Ok, At, EntryOf, PartLinks;
    EnumParts(src, e, from, at);
    PayloadSmaller(src, s, e, from, at, Value(EntryOf(src.img, e.layout.variants[At(src.from, from)].ty), from + 2));
  }

  lemma InlineDyn(src: Source, s: State, e: Entry, from: Addr, at: Addr)
    requires Ok(src, s) && Link(Data(e, from), at) in s.active && e.layout.Dyn? && At(src.from, from + 1) != 1
    requires EntryOf(src.img, At(src.from, from)).size != HEADER
    ensures EntryOf(src.img, At(src.from, from)).size + 2 <= e.size
  {
    hide Ok, At, EntryOf;
    PayloadSmaller(src, s, e, from, at, Data(EntryOf(src.img, At(src.from, from)), from + 2));
  }

  lemma StepActive(src: Source, s: State, t: State, done: set<Link>, x: nat)
    requires Step(src, s, t, done, x)
    ensures t.active == s.active - done && s.links <= t.links
  {
    hide Budget, Weight;
  }

  /** The slots of every layout that holds at most one. */
  lemma SlotParts(src: Source, e: Entry, from: Addr, at: Addr)
    requires !e.layout.InlineRecord? && !e.layout.Dict? && ValidData(src.img, src.from, e, from)
    requires e.layout.Enum? ==> !InlinePayload(src.from, e, from)
    requires e.layout.Dyn? ==> At(src.from, from + 1) == 1
    ensures PartLinks(src, Link(Data(e, from), at)) == SlotLinks(src, e, from, at)
  {
    hide At, EntryOf, PartLinks, DataParts;
    match e.layout
    case Scalar => ScalarParts(src, e, from, at);
    case Content => ContentParts(src, e, from, at);
    case Record(_) => HandleParts(src, e, from, at);
    case Newtype(_) => HandleParts(src, e, from, at);
    case Array(_) => ArrayParts(src, e, from, at);
    case Enum(_) => EnumParts(src, e, from, at);
    case Dyn => DynParts(src, e, from, at);
    case Function => FunctionParts(src, e, from, at);
    case Resource(_) => ResourceParts(src, e, from, at);
  }

  lemma ResourceParts(src: Source, e: Entry, from: Addr, at: Addr)
    requires e.layout.Resource?
    ensures PartLinks(src, Link(Data(e, from), at)) == {Link(Slot(e.layout.tag, from), at)}
  {
    hide PartLinks;
    OneDataPart(src, e, from, at, Slot(e.layout.tag, from));
  }

  lemma BlameParts(src: Source, words: nat, from: Addr, at: Addr)
    ensures PartLinks(src, Link(Packet(BLAMES, words, from), at)) ==
      if At(src.from, from + 5) == CONTENT_SLICE then {Link(Raw(from + 2), at + 2)} else {}
  {
    hide At;
    OnlyPart(src, Link(Packet(BLAMES, words, from), at));
  }

  lemma DiagnosticParts(src: Source, words: nat, from: Addr, at: Addr)
    ensures PartLinks(src, Link(Packet(DIAGNOSTICS, words, from), at)) ==
      {Link(Ref(EntryOf(src.img, At(src.from, from + 9)), from + 4), at + 4),
       Link(Owned(2 * Max0(At(src.from, from + 6)), from + 5), at + 5)}
  {
    hide At, EntryOf, Max0;
    var l := Link(Packet(DIAGNOSTICS, words, from), at);
    assert PartLink(l, PartsOf(src, l)[0]) in PartLinks(src, l);
    assert PartLink(l, PartsOf(src, l)[1]) in PartLinks(src, l);
  }

  lemma ScalarParts(src: Source, e: Entry, from: Addr, at: Addr)
    requires e.layout.Scalar?
    ensures PartLinks(src, Link(Data(e, from), at)) == {}
  {
    hide PartLinks;
    NoParts(src, e, from, at);
  }

  function SlotLinks(src: Source, e: Entry, from: Addr, at: Addr): set<Link> {
    match e.layout
    case Content => if At(src.from, from + 3) == CONTENT_SLICE then {Link(Raw(from), at)} else {}
    case Record(_) => {Link(Handle(Records, from), at)}
    case Newtype(_) => {Link(Handle(Newtypes, from), at)}
    case Array(elem) =>
      if At(src.from, from + 3) == ARRAY_SINGLE then {Link(Ref(EntryOf(src.img, elem), from), at)}
      else if At(src.from, from + 3) == ARRAY_SLICE then {Link(Handle(Arrays, from), at)}
      else {}
    case Enum(variants) =>
      var tag := At(src.from, from);
      if 0 <= tag < |variants| && variants[tag].Payload? && variants[tag].boxed then
        {Link(Handle(Boxes, from + 2), at + 2)} else {}
    case Dyn => {Link(Handle(Boxes, from + 2), at + 2)}
    case Function => if At(src.from, from + 1) == 0 then {} else {Link(Handle(Environments, from + 1), at + 1)}
    case Resource(tag) => {Link(Slot(tag, from), at)}
    case _ => {}
  }

  lemma DataExtent2(src: Source, e: Entry, from: Addr, at: Addr)
    ensures Extent(src, Link(Data(e, from), at)) == Max0(e.size - HEADER)
  {
  }

  /** A queued field of an inline aggregate stands for its part. */
  lemma InlineWork(src: Source, l: Link, w: Work, i: nat)
    requires l.node.Data? && l.node.e.layout.InlineRecord? && i < |l.node.e.layout.fields|
    requires var f := l.node.e.layout.fields[i];
      w == Work(Boxes, l.node.at + (2 + f.offset), l.at + (2 + f.offset), 0, f.ty)
    ensures i < |PartsOf(src, l)| && LinkOf(src, w) == PartLink(l, PartsOf(src, l)[i])
  {
    hide EntryOf, Parts;
    InlineParts(src.img, src.from, l.node.e, l.node.at);
  }

  lemma PartExtent(src: Source, l: Link, i: nat)
    requires i < |PartsOf(src, l)|
    ensures Extent(src, PartLink(l, PartsOf(src, l)[i])) == Size(src.from, PartsOf(src, l)[i])
  {
    hide Parts, Size;
  }

  lemma UsedBounds(src: Source, l: Link, n: nat)
    requires Typed(src.img, src.from, src.origin, src.ty) && l.node in src.ty.nodes && n <= |PartsOf(src, l)|
    ensures 0 <= Used(src, l, n) <= Extent(src, l)
    ensures n == 0 ==> Used(src, l, n) == 0
  {
    hide Parts, Size, Typed, At, ValidNode;
    if n > 0 {
      NodeValid(src, l.node);
    }
  }

  /** Parts that have not been dealt with are still active. */
  lemma StillActive(src: Source, l: Link, t: State, u: State, n: nat, x: nat)
    requires Typed(src.img, src.from, src.origin, src.ty) && l.node in src.ty.nodes && !IsSlot(l.node)
    requires n < |PartsOf(src, l)| && PartLinks(src, l) <= t.active
    requires Step(src, t, u, FirstParts(src, l, n), x)
    ensures PartLink(l, PartsOf(src, l)[n]) in u.active
  {
    hide Typed, Parts, FirstParts, Step, PartLinks;
    StepActive(src, t, u, FirstParts(src, l, n), x);
    LaterPart(src, l, n);
    FirstPartsNext(src, l, n);
  }

  /** One less, but not below nothing. */
  function Less(x: nat): nat {
    if x == 0 then 0 else x - 1
  }

  function LessUsed(src: Source, l: Link, n: nat): nat
    requires n <= |PartsOf(src, l)|
  {
    if n == 0 || Used(src, l, n) <= 0 then 0 else Used(src, l, n) - 1
  }

  /** Room for a value after the first `n` parts. */
  lemma ValuePartSize(src: Source, l: Link, n: nat, e: Entry)
    requires Typed(src.img, src.from, src.origin, src.ty) && l.node in src.ty.nodes && n < |PartsOf(src, l)|
    requires PartsOf(src, l)[n].Value? && PartsOf(src, l)[n].e == e
    ensures LessUsed(src, l, n) + Max0(e.size - HEADER) <= LessUsed(src, l, n + 1)
  {
    hide Parts, Typed, At, ValidNode, Used;
    UsedNext(src, l, n);
    ValueExtent(src, e, PartsOf(src, l)[n].at, 0);
  }

  lemma LessUsedBound(src: Source, l: Link)
    requires Typed(src.img, src.from, src.origin, src.ty) && l.node in src.ty.nodes
    ensures LessUsed(src, l, |PartsOf(src, l)|) <= Less(Extent(src, l))
  {
    hide Parts, Typed, At, Size, Used;
    UsedBounds(src, l, |PartsOf(src, l)|);
  }

  /** How much storage the nodes that are scanned part by part take up. */
  lemma RowExtent(src: Source, l: Link)
    ensures l.node.Fields? ==> Extent(src, l) == l.node.extent
    ensures l.node.Elems? ==> Extent(src, l) == l.node.count * l.node.e.size
    ensures l.node.Packet? ==> Extent(src, l) == l.node.words
  {
  }

  lemma WorkExtent(src: Source, s: State, w: Work)
    requires Ok(src, s) && LinkOf(src, w) in s.active
    ensures w.PacketWork? ==> Extent(src, LinkOf(src, w)) > 0
    ensures w.Work? ==>
      var e, l := EntryOf(src.img, w.ty), LinkOf(src, w);
      && (w.table == Boxes ==> Extent(src, l) == e.size && e.size >= 2)
      && (w.table == Newtypes ==> Extent(src, l) == InnerOf(src.img, e).size && InnerOf(src.img, e).size >= 2)
      && (w.table == Records ==> Extent(src, l) == w.size && w.size > 0)
      && (w.table == Environments ==> Extent(src, l) > 0)
      && (w.table == Arrays && Extent(src, l) == 0 ==> e.size == 0 || w.size / e.size == 0)
  {
    hide Ok, At, EntryOf, InnerOf, Typed, Packed, Parts;
    ScannedTyped(src, s, LinkOf(src, w));
    NodeValid(src, LinkOf(src, w).node);
    if w.Work? && w.table == Arrays {
      var e := EntryOf(src.img, w.ty);
      if e.size != 0 && w.size / e.size > 0 {
        ProductAtLeast(w.size / e.size, e.size);
      }
    }
  }

  /** One round of the worklist, with nothing else active. */
  lemma FinishStep(src: Source, s: State, t: State, l: Link)
    requires s.active == {l} && Step(src, s, t, {l}, Less(Extent(src, l)))
    requires Extent(src, l) == 0 ==> t.pending == s.pending && KeysOf(t) == KeysOf(s)
    ensures t.active == {} && s.links <= t.links && Extends(s, t)
    ensures Budget(src, KeysOf(t)) < Budget(src, KeysOf(s))
      || (Budget(src, KeysOf(t)) == Budget(src, KeysOf(s))
          && if Extent(src, l) == 0 then t.pending == s.pending
             else Weight(src, t.pending) < Weight(src, s.pending) + Extent(src, l))
  {
    hide Budget, Weight, Extent;
  }
}
