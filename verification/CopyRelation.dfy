/** What a copying collection maintains between the old heap and the new one:
    a set of links, each pairing a node of the old heap with its new address.
    A link that is no longer `todo` corresponds word for word, up to relocated
    references, to linked nodes. */
module CopyRelation {
  import opened HeapGraph

  datatype Link = Link(node: Node, at: Addr)

  /** The collector's inputs, fixed during one collection. */
  datatype Source = Source(img: Image, from: Heap, origin: Addr, ty: Typing)

  /** New storage, forwarded raw strings and resources, all links, and those not
      yet scanned. */
  datatype Copy = Copy(
    heap: Heap, rawNext: map<Addr, Addr>, slotNext: map<(nat, nat), nat>, links: set<Link>, todo: set<Link>)

  function PartLink(l: Link, part: Node): Link {
    Link(part, l.at + (part.at - l.node.at))
  }

  function PartsOf(src: Source, l: Link): seq<Node> {
    Parts(src.img, src.from, l.node)
  }

  function Extent(src: Source, l: Link): nat {
    Size(src.from, l.node)
  }

  predicate Covers(src: Source, l: Link, a: Addr) {
    l.at <= a < l.at + Extent(src, l)
  }

  /** The word at `a` belongs to `l` itself, not to one of its parts. */
  ghost predicate Owns(src: Source, l: Link, a: Addr) {
    && Covers(src, l, a)
    && forall i :: 0 <= i < |PartsOf(src, l)| ==> !Covers(src, PartLink(l, PartsOf(src, l)[i]), a)
  }

  /** A slot was redirected to the copy of what it designated. */
  ghost predicate SlotDone(src: Source, c: Copy, l: Link) {
    var p := At(src.from, l.node.at);
    if l.node.Slot? then p >= 0 && (l.node.tag, p) in c.slotNext && At(c.heap, l.at) == c.slotNext[(l.node.tag, p)]
    else if l.node.Owned? then
      if l.node.words == 0 then At(c.heap, l.at) == 0 else Link(Blob(l.node.words, p), At(c.heap, l.at)) in c.links
    else if p < src.origin then At(c.heap, l.at) == p
    else if !(l.node.Ref? || l.node.Handle?) then p in c.rawNext && At(c.heap, l.at) == c.rawNext[p]
    else forall t :: t in Target(src.from, src.origin, l.node) ==> Link(t, At(c.heap, l.at)) in c.links
  }

  /** An array header: same type and length, elements right behind it. */
  ghost predicate ArrayDone(src: Source, c: Copy, l: Link) {
    && At(c.heap, l.at) == At(src.from, l.node.at)
    && At(c.heap, l.at + 1) == l.at + 4
    && At(c.heap, l.at + 2) == At(src.from, l.node.at + 2)
    && Link(Backing(src.img, src.from, l.node.at), l.at + 4) in c.links
  }

  /** Everything else: own words unchanged, parts linked in place. */
  ghost predicate PlainDone(src: Source, c: Copy, l: Link) {
    && (forall a :: Owns(src, l, a) ==> At(c.heap, a) == At(src.from, l.node.at + (a - l.at)))
    && (forall i :: 0 <= i < |PartsOf(src, l)| ==> PartLink(l, PartsOf(src, l)[i]) in c.links)
  }

  ghost predicate IsArray(n: Node) {
    n.Object? && n.table == Arrays
  }

  ghost predicate Done(src: Source, c: Copy, l: Link) {
    if IsSlot(l.node) then SlotDone(src, c, l)
    else if IsArray(l.node) then ArrayDone(src, c, l)
    else PlainDone(src, c, l)
  }

  /** Still the bytes that were copied from the old heap. */
  ghost predicate Fresh(src: Source, c: Copy, l: Link) {
    forall a :: Covers(src, l, a) ==> At(c.heap, a) == At(src.from, l.node.at + (a - l.at))
  }

  ghost predicate Apart(src: Source, l: Link, m: Link) {
    forall a :: !(Covers(src, l, a) && Covers(src, m, a))
  }

  ghost predicate Untouched(src: Source, d: Link, t: Link) {
    forall a :: !(Owns(src, d, a) && Covers(src, t, a))
  }

  ghost predicate RawsDone(src: Source, c: Copy) {
    forall p :: p in c.rawNext ==>
      && p in src.from.raws
      && src.from.raws[p].len <= |src.from.raws[p].bytes|
      && c.rawNext[p] in c.heap.raws
      && c.heap.raws[c.rawNext[p]] ==
           RawString(src.from.raws[p].len, src.from.raws[p].len, src.from.raws[p].bytes[..src.from.raws[p].len])
  }

  /** A forwarded resource: the same payload, where it lives now. */
  ghost predicate CellDone(src: Source, c: Copy, tag: nat, was: Cell, now: Cell) {
    && now == was.(payload := now.payload)
    && (if tag == REGEXES then now.payload == was.payload else Link(PacketOf(tag, was), now.payload) in c.links)
  }

  /** Some resource was forwarded to the slot. */
  ghost predicate Filled(next: map<(nat, nat), nat>, tag: nat, k: nat) {
    exists i :: (tag, i) in next && next[(tag, i)] == k
  }

  /** Each forwarded resource has one new slot of its own, and there are no others. */
  ghost predicate TablesDone(src: Source, c: Copy) {
    && (forall t, i :: (t, i) in c.slotNext ==>
          && i < |Cells(src.from, t)| && c.slotNext[(t, i)] < |Cells(c.heap, t)|
          && CellDone(src, c, t, Cells(src.from, t)[i], Cells(c.heap, t)[c.slotNext[(t, i)]]))
    && (forall t, i, j ::
          (t, i) in c.slotNext && (t, j) in c.slotNext && c.slotNext[(t, i)] == c.slotNext[(t, j)] ==> i == j)
    && (forall t: nat, k: nat :: k < |Cells(c.heap, t)| ==> Filled(c.slotNext, t, k))
  }

  ghost predicate StaticRaws(src: Source, c: Copy) {
    forall p :: p < src.origin && p in src.from.raws ==> p in c.heap.raws && c.heap.raws[p] == src.from.raws[p]
  }

  ghost predicate LinksTyped(src: Source, c: Copy) {
    c.todo <= c.links && forall l :: l in c.links ==> l.node in src.ty.nodes && l.at >= src.origin
  }

  ghost predicate AllDone(src: Source, c: Copy) {
    forall l :: l in c.links && l !in c.todo ==> Done(src, c, l)
  }

  ghost predicate TodoFresh(src: Source, c: Copy) {
    forall l :: l in c.todo ==> !IsArray(l.node) && Fresh(src, c, l)
  }

  ghost predicate TodoApart(src: Source, c: Copy) {
    && (forall l, m :: l in c.todo && m in c.todo && l != m ==> Apart(src, l, m))
    && (forall d, t :: d in c.links && d !in c.todo && t in c.todo ==> Untouched(src, d, t))
  }

  ghost predicate Present(src: Source, c: Copy) {
    forall l, a :: l in c.links && Covers(src, l, a) ==> a in c.heap.words
  }

  /** The collector's invariant. */
  ghost predicate Inv(src: Source, c: Copy) {
    && LinksTyped(src, c)
    && AllDone(src, c)
    && TodoFresh(src, c)
    && TodoApart(src, c)
    && Present(src, c)
    && RawsDone(src, c)
    && TablesDone(src, c)
    && StaticRaws(src, c)
  }

  /** Resources stay forwarded while their slots do not move. */
  lemma SameTables(src: Source, c: Copy, d: Copy)
    requires TablesDone(src, c) && c.links <= d.links && d.slotNext == c.slotNext && d.heap.tables == c.heap.tables
    ensures TablesDone(src, d)
  {
    hide Cells, Filled;
    SameCells(c.heap, d.heap);
    forall t, i | (t, i) in d.slotNext
      ensures i < |Cells(src.from, t)| && d.slotNext[(t, i)] < |Cells(d.heap, t)|
      ensures CellDone(src, d, t, Cells(src.from, t)[i], Cells(d.heap, t)[d.slotNext[(t, i)]])
    {
      assert CellDone(src, c, t, Cells(src.from, t)[i], Cells(c.heap, t)[c.slotNext[(t, i)]]);
    }
  }

  lemma SameCells(h: Heap, k: Heap)
    requires h.tables == k.tables
    ensures forall t :: Cells(h, t) == Cells(k, t)
  {
  }

  // ----- nodes and their parts ----------------------------------------------

  lemma SlotShape(src: Source, l: Link)
    requires IsSlot(l.node)
    ensures Owns(src, l, l.at) && PartsOf(src, l) == []
    ensures forall a :: Covers(src, l, a) ==> a == l.at
  {
  }

  lemma ArrayShape(src: Source, l: Link)
    requires IsArray(l.node)
    ensures forall a :: l.at <= a < l.at + 4 ==> Owns(src, l, a)
    ensures PartsOf(src, l) == []
  {
  }

  lemma OwnsIsCovered(src: Source, l: Link)
    ensures forall a :: Owns(src, l, a) ==> Covers(src, l, a)
  {
  }

  lemma WordUpdated(c: Copy, l: Link, to: Word)
    ensures forall a :: At(Redirect(c, l, to).heap, a) == if a == l.at then to else At(c.heap, a)
  {
  }

  lemma SameWordsAt(c: Copy, d: Copy)
    requires c.heap.words == d.heap.words
    ensures forall a :: At(d.heap, a) == At(c.heap, a)
  {
  }

  lemma DisjointApart(src: Source, l: Link, m: Link)
    requires forall a :: Covers(src, l, a) ==> !Covers(src, m, a)
    ensures Apart(src, l, m) && Apart(src, m, l)
  {
    hide Covers;
  }

  /** Links that are already there do not cover unallocated words. */
  lemma NewApart(src: Source, c: Copy, m: Link, l: Link)
    requires Present(src, c) && m in c.links
    requires forall a :: Covers(src, l, a) ==> a !in c.heap.words
    ensures Apart(src, m, l) && Apart(src, l, m)
    ensures Untouched(src, m, l) && Untouched(src, l, m)
  {
    hide Covers, Owns, Apart, Untouched;
    DisjointApart(src, m, l);
    OwnsApart(src, m, l);
    OwnsApart(src, l, m);
  }

  lemma PartKinds(img: Image, h: Heap, n: Node, i: nat)
    requires i < |Parts(img, h, n)|
    ensures !IsArray(Parts(img, h, n)[i]) && !Parts(img, h, n)[i].Elems?
    ensures Parts(img, h, n)[i].Fields? ==> n.Object? && Parts(img, h, n)[i].at == n.at + 2 && Size(h, n) >= 2
  {
    hide At, EntryOf, Max0, InnerOf, FieldsOf;
  }

  lemma PartInside(src: Source, l: Link, p: Link)
    requires Typed(src.img, src.from, src.origin, src.ty) && l.node in src.ty.nodes
    requires p in PartLinks(src, l)
    ensures p.node in src.ty.nodes && !IsArray(p.node)
    ensures p.node.at - p.at == l.node.at - l.at && p.at >= l.at
    ensures forall a :: Covers(src, p, a) ==> Covers(src, l, a) && !Owns(src, l, a)
    ensures !p.node.Elems? && (p.node.Fields? ==> Covers(src, l, p.at - 1))
  {
    hide Parts, Size, At, ValidNode;
    var i :| 0 <= i < |PartsOf(src, l)| && p == PartLink(l, PartsOf(src, l)[i]);
    PartKinds(src.img, src.from, l.node, i);
    assert Packed(src.from, PartsOf(src, l), l.node.at, l.node.at + Extent(src, l));
  }

  lemma PartsApart(src: Source, l: Link, p: Link, q: Link)
    requires Typed(src.img, src.from, src.origin, src.ty) && l.node in src.ty.nodes
    requires p in PartLinks(src, l) && q in PartLinks(src, l) && p != q
    ensures Apart(src, p, q)
  {
    hide Parts, Size, At, ValidNode;
    var i :| 0 <= i < |PartsOf(src, l)| && p == PartLink(l, PartsOf(src, l)[i]);
    var j :| 0 <= j < |PartsOf(src, l)| && q == PartLink(l, PartsOf(src, l)[j]);
    assert Packed(src.from, PartsOf(src, l), l.node.at, l.node.at + Extent(src, l));
  }

  // ----- the three steps of a collection ------------------------------------

  function PartLinks(src: Source, l: Link): set<Link> {
    set i | 0 <= i < |PartsOf(src, l)| :: PartLink(l, PartsOf(src, l)[i])
  }

  /** Scanning a node leaves its own words and hands its parts on. */
  function Expand(src: Source, c: Copy, l: Link): Copy {
    c.(links := c.links + PartLinks(src, l), todo := c.todo - {l} + PartLinks(src, l))
  }

  /** A finished link stays finished while its own words and its forwarded
      references stay put. */
  lemma DoneGrows(src: Source, c: Copy, d: Copy, l: Link)
    requires Done(src, c, l) && c.links <= d.links
    requires forall p :: p in c.rawNext ==> p in d.rawNext && d.rawNext[p] == c.rawNext[p]
    requires forall k :: k in c.slotNext ==> k in d.slotNext && d.slotNext[k] == c.slotNext[k]
    requires forall a :: Owns(src, l, a) ==> At(d.heap, a) == At(c.heap, a)
    ensures Done(src, d, l)
  {
    hide Parts, Size, At, Target, Backing, Owns, PartsOf;
    if IsSlot(l.node) {
      SlotShape(src, l);
    } else if IsArray(l.node) {
      ArrayShape(src, l);
    }
  }

  lemma ExpandDone(src: Source, c: Copy, l: Link)
    requires Inv(src, c) && l in c.todo && !IsSlot(l.node)
    ensures AllDone(src, Expand(src, c, l))
  {
    hide Parts, Size, At, Target, Backing, RawsDone, StaticRaws, TodoApart, Present;
    var e := Expand(src, c, l);
    forall d | d in e.links && d !in e.todo
      ensures Done(src, e, d)
    {
      if d == l {
        assert Fresh(src, c, l);
        forall i | 0 <= i < |PartsOf(src, l)|
          ensures PartLink(l, PartsOf(src, l)[i]) in e.links
        {
          assert PartLink(l, PartsOf(src, l)[i]) in PartLinks(src, l);
        }
      } else {
        DoneGrows(src, c, e, d);
      }
    }
  }

  lemma ExpandApart(src: Source, c: Copy, l: Link)
    requires Typed(src.img, src.from, src.origin, src.ty)
    requires LinksTyped(src, c) && TodoApart(src, c) && l in c.todo
    ensures TodoApart(src, Expand(src, c, l))
  {
    hide Covers, Owns, PartLinks, Typed;
    forall p | p in PartLinks(src, l)
      ensures forall a :: Covers(src, p, a) ==> Covers(src, l, a) && !Owns(src, l, a)
    {
      PartInside(src, l, p);
    }
    forall p, q | p in PartLinks(src, l) && q in PartLinks(src, l) && p != q
      ensures Apart(src, p, q)
    {
      PartsApart(src, l, p, q);
    }
    var e := Expand(src, c, l);
    forall t, m | t in e.todo && m in e.todo && t != m
      ensures Apart(src, t, m)
    {
      if t in c.todo && t != l && m !in c.todo - {l} { assert Apart(src, t, l); }
      if m in c.todo && m != l && t !in c.todo - {l} { assert Apart(src, l, m); }
    }
    forall d, t | d in e.links && d !in e.todo && t in e.todo
      ensures Untouched(src, d, t)
    {
      if d == l {
        if t in c.todo - {l} { OwnsApart(src, l, t); }
      } else if t !in c.todo - {l} {
        assert Untouched(src, d, l);
      }
    }
  }

  lemma OwnsApart(src: Source, l: Link, m: Link)
    requires Apart(src, l, m)
    ensures Untouched(src, l, m)
  {
  }

  lemma PartFresh(src: Source, c: Copy, l: Link, p: Link)
    requires forall a :: Covers(src, p, a) ==> Covers(src, l, a)
    requires p.node.at - p.at == l.node.at - l.at
    requires Fresh(src, c, l)
    ensures Fresh(src, c, p)
  {
    hide Covers, At;
    forall a | Covers(src, p, a)
      ensures At(c.heap, a) == At(src.from, p.node.at + (a - p.at))
    {
      assert l.node.at + (a - l.at) == p.node.at + (a - p.at);
    }
  }

  lemma SameWords(src: Source, c: Copy, e: Copy, l: Link)
    requires Fresh(src, c, l)
    requires forall a :: Covers(src, l, a) ==> At(e.heap, a) == At(c.heap, a)
    ensures Fresh(src, e, l)
  {
    hide Covers, At;
  }

  lemma ExpandParts(src: Source, c: Copy, l: Link)
    requires Typed(src.img, src.from, src.origin, src.ty)
    requires LinksTyped(src, c) && TodoFresh(src, c) && Present(src, c) && l in c.todo
    ensures var e := Expand(src, c, l); LinksTyped(src, e) && TodoFresh(src, e) && Present(src, e)
  {
    hide Covers, Owns, Typed, PartLinks, Fresh, IsArray, At;
    var e := Expand(src, c, l);
    forall p | p in PartLinks(src, l)
      ensures p.node in src.ty.nodes && !IsArray(p.node) && Fresh(src, c, p) && p.at >= l.at
      ensures forall a :: Covers(src, p, a) ==> Covers(src, l, a)
    {
      PartInside(src, l, p);
      assert Fresh(src, c, l);
      PartFresh(src, c, l, p);
    }
    forall t | t in e.todo
      ensures Fresh(src, e, t)
    {
      SameWords(src, c, e, t);
    }
  }

  lemma ExpandInv(src: Source, c: Copy, l: Link)
    requires Typed(src.img, src.from, src.origin, src.ty) && Inv(src, c)
    requires l in c.todo && !IsSlot(l.node)
    ensures Inv(src, Expand(src, c, l))
  {
    hide TablesDone, AllDone, TodoApart, LinksTyped, TodoFresh, Present, PartLinks;
    ExpandDone(src, c, l);
    ExpandApart(src, c, l);
    ExpandParts(src, c, l);
    SameTables(src, c, Expand(src, c, l));
  }

  /** Redirecting a slot: one word of storage that only this link covers. */
  function Redirect(c: Copy, l: Link, to: Word): Copy {
    c.(heap := c.heap.(words := c.heap.words[l.at := to]), todo := c.todo - {l})
  }

  lemma RedirectDone(src: Source, c: Copy, l: Link, to: Word)
    requires Inv(src, c) && l in c.todo && IsSlot(l.node)
    requires SlotDone(src, Redirect(c, l, to), l)
    ensures AllDone(src, Redirect(c, l, to))
  {
    hide At, SlotDone, ArrayDone, PlainDone, Covers, Owns, IsSlot, IsArray, LinksTyped, TodoFresh, Present, RawsDone,
         StaticRaws;
    var e := Redirect(c, l, to);
    SlotShape(src, l);
    OwnsIsCovered(src, l);
    WordUpdated(c, l, to);
    forall d | d in e.links && d !in e.todo
      ensures Done(src, e, d)
    {
      if d == l {
        SlotIsDone(src, e, l);
      } else {
        assert Untouched(src, d, l);
        DoneGrows(src, c, e, d);
      }
    }
  }

  lemma SlotIsDone(src: Source, c: Copy, l: Link)
    requires IsSlot(l.node) && SlotDone(src, c, l)
    ensures Done(src, c, l)
  {
  }

  lemma RedirectInv(src: Source, c: Copy, l: Link, to: Word)
    requires Inv(src, c) && l in c.todo && IsSlot(l.node)
    requires SlotDone(src, Redirect(c, l, to), l)
    ensures Inv(src, Redirect(c, l, to))
  {
    hide TablesDone, At, AllDone, SlotDone, Covers, Owns, IsSlot, IsArray, Fresh, Untouched, Apart;
    var e := Redirect(c, l, to);
    RedirectDone(src, c, l, to);
    SlotShape(src, l);
    OwnsIsCovered(src, l);
    WordUpdated(c, l, to);
    forall t | t in e.todo
      ensures Fresh(src, e, t) && Untouched(src, l, t)
    {
      OwnsApart(src, l, t);
      NotCovered(src, t, l, l.at);
      SameWords(src, c, e, t);
    }
    SameTables(src, c, e);
  }

  lemma NotCovered(src: Source, t: Link, l: Link, a: Addr)
    requires Apart(src, t, l) && Covers(src, l, a)
    ensures !Covers(src, t, a)
  {
    hide Covers;
  }

  /** A block of words copied into storage that no link covers. */
  ghost predicate Allocated(src: Source, c: Copy, heap: Heap, l: Link) {
    && (forall a :: Covers(src, l, a) ==> a !in c.heap.words && a in heap.words)
    && (forall a :: a in c.heap.words ==> a in heap.words && At(heap, a) == At(c.heap, a))
    && heap.raws == c.heap.raws && heap.tables == c.heap.tables
    && forall a :: Covers(src, l, a) ==> At(heap, a) == At(src.from, l.node.at + (a - l.at))
  }

  function Admit(c: Copy, heap: Heap, l: Link): Copy {
    c.(heap := heap, links := c.links + {l}, todo := c.todo + {l})
  }

  /** Growing the heap leaves finished links finished. */
  lemma GrowDone(src: Source, c: Copy, d: Copy)
    requires Inv(src, c) && c.links <= d.links && c.rawNext == d.rawNext && c.slotNext == d.slotNext
    requires forall a :: a in c.heap.words ==> At(d.heap, a) == At(c.heap, a)
    ensures forall l :: l in c.links && l !in c.todo ==> Done(src, d, l)
  {
    hide At, SlotDone, ArrayDone, PlainDone, Covers, Owns, Done, TodoFresh, TodoApart, RawsDone, StaticRaws;
    forall l | l in c.links && l !in c.todo
      ensures Done(src, d, l)
    {
      OwnsIsCovered(src, l);
      DoneGrows(src, c, d, l);
    }
  }

  lemma AdmitFresh(src: Source, c: Copy, heap: Heap, l: Link)
    requires LinksTyped(src, c) && TodoFresh(src, c) && Present(src, c)
    requires Allocated(src, c, heap, l) && !IsArray(l.node)
    ensures TodoFresh(src, Admit(c, heap, l))
  {
    hide Covers, At, IsArray;
    var e := Admit(c, heap, l);
    forall t | t in c.todo
      ensures Fresh(src, e, t)
    {
      SameWords(src, c, e, t);
    }
  }

  lemma AdmitInv(src: Source, c: Copy, heap: Heap, l: Link)
    requires Inv(src, c) && Allocated(src, c, heap, l)
    requires l.node in src.ty.nodes && !IsArray(l.node) && l.at >= src.origin
    ensures Inv(src, Admit(c, heap, l))
  {
    hide TablesDone, At, Covers, Owns, Done, Apart, Untouched, TodoFresh, IsArray;
    var e := Admit(c, heap, l);
    GrowDone(src, c, e);
    AdmitFresh(src, c, heap, l);
    forall m | m in c.links
      ensures Apart(src, m, l) && Apart(src, l, m) && Untouched(src, m, l)
    {
      NewApart(src, c, m, l);
    }
    SameTables(src, c, e);
  }

  // ----- arrays and raw strings ---------------------------------------------

  /** An array gets a new header whose elements follow it. */
  ghost predicate AllocatedArray(src: Source, c: Copy, heap: Heap, id: Addr, at: Addr) {
    var n := Extent(src, Link(Backing(src.img, src.from, id), at + 4));
    && (forall a :: at <= a < at + 4 + n ==> a !in c.heap.words && a in heap.words)
    && (forall a :: a in c.heap.words ==> a in heap.words && At(heap, a) == At(c.heap, a))
    && heap.raws == c.heap.raws && heap.tables == c.heap.tables
    && At(heap, at) == At(src.from, id)
    && At(heap, at + 1) == at + 4
    && At(heap, at + 2) == At(src.from, id + 2)
    && forall a :: at + 4 <= a < at + 4 + n ==> At(heap, a) == At(src.from, At(src.from, id + 1) + (a - (at + 4)))
  }

  function AdmitArray(src: Source, c: Copy, heap: Heap, id: Addr, at: Addr): Copy {
    var elems := Link(Backing(src.img, src.from, id), at + 4);
    c.(heap := heap, links := c.links + {elems, Link(Object(Arrays, id), at)}, todo := c.todo + {elems})
  }

  /** What an allocated array says about its two links. */
  lemma ArrayLinks(src: Source, c: Copy, heap: Heap, id: Addr, at: Addr)
    requires AllocatedArray(src, c, heap, id, at)
    ensures var elems, header := Link(Backing(src.img, src.from, id), at + 4), Link(Object(Arrays, id), at);
      var e := AdmitArray(src, c, heap, id, at);
      && (forall a :: Covers(src, header, a) ==> at <= a < at + 4)
      && (forall a :: Covers(src, header, a) || Covers(src, elems, a) ==> a !in c.heap.words && a in heap.words)
      && !IsArray(elems.node) && Fresh(src, e, elems) && Done(src, e, header) && Apart(src, header, elems)
      && (forall a :: a in c.heap.words ==> a in heap.words && At(heap, a) == At(c.heap, a))
      && heap.raws == c.heap.raws && heap.tables == c.heap.tables
  {
    hide Parts, At;
  }

  lemma AdmitArrayApart(src: Source, c: Copy, heap: Heap, id: Addr, at: Addr)
    requires Inv(src, c) && AllocatedArray(src, c, heap, id, at)
    ensures TodoApart(src, AdmitArray(src, c, heap, id, at))
  {
    hide At, Backing, AllocatedArray, AllDone, TodoFresh, Done, Fresh, RawsDone, StaticRaws, Covers, Owns, Apart,
         Untouched, IsArray;
    var elems := Link(Backing(src.img, src.from, id), at + 4);
    var header := Link(Object(Arrays, id), at);
    ArrayLinks(src, c, heap, id, at);
    forall m | m in c.links
      ensures Apart(src, m, elems) && Apart(src, elems, m)
      ensures Untouched(src, m, elems) && Untouched(src, header, m)
    {
      NewApart(src, c, m, elems);
      NewApart(src, c, m, header);
    }
    OwnsApart(src, header, elems);
  }

  lemma AdmitArrayFresh(src: Source, c: Copy, heap: Heap, id: Addr, at: Addr)
    requires LinksTyped(src, c) && TodoFresh(src, c) && Present(src, c) && AllocatedArray(src, c, heap, id, at)
    ensures TodoFresh(src, AdmitArray(src, c, heap, id, at))
  {
    hide At, Backing, AllocatedArray, IsArray, Fresh, Covers, Apart, Done;
    var e := AdmitArray(src, c, heap, id, at);
    ArrayLinks(src, c, heap, id, at);
    forall t | t in c.todo
      ensures Fresh(src, e, t)
    {
      SameWords(src, c, e, t);
    }
  }

  lemma BackingTyped(src: Source, id: Addr)
    requires Object(Arrays, id) in src.ty.nodes && Typed(src.img, src.from, src.origin, src.ty)
    ensures Backing(src.img, src.from, id) in src.ty.nodes
  {
    hide Backing, NodesFit, TargetsTyped;
  }

  lemma AdmitArrayPresent(src: Source, c: Copy, heap: Heap, id: Addr, at: Addr)
    requires LinksTyped(src, c) && Present(src, c) && AllocatedArray(src, c, heap, id, at)
    requires Object(Arrays, id) in src.ty.nodes && Typed(src.img, src.from, src.origin, src.ty) && at >= src.origin
    ensures var e := AdmitArray(src, c, heap, id, at); LinksTyped(src, e) && Present(src, e)
  {
    hide At, Backing, AllocatedArray, Typed, Fresh, Covers, Apart, Done, IsArray;
    ArrayLinks(src, c, heap, id, at);
    BackingTyped(src, id);
  }

  lemma AdmitArrayInv(src: Source, c: Copy, heap: Heap, id: Addr, at: Addr)
    requires Inv(src, c) && AllocatedArray(src, c, heap, id, at)
    requires Object(Arrays, id) in src.ty.nodes && Typed(src.img, src.from, src.origin, src.ty) && at >= src.origin
    ensures Inv(src, AdmitArray(src, c, heap, id, at))
  {
    hide TablesDone, At, Backing, AllocatedArray, Typed, Fresh, Covers, Apart, Done, IsArray, TodoApart, TodoFresh,
         Present, LinksTyped;
    ArrayLinks(src, c, heap, id, at);
    AdmitArrayApart(src, c, heap, id, at);
    AdmitArrayFresh(src, c, heap, id, at);
    AdmitArrayPresent(src, c, heap, id, at);
    GrowDone(src, c, AdmitArray(src, c, heap, id, at));
    SameTables(src, c, AdmitArray(src, c, heap, id, at));
  }

  /** A raw string is copied once, trimmed to its published bytes. */
  function AdmitRaw(src: Source, c: Copy, p: Addr, next: Addr): Copy
    requires p in src.from.raws && src.from.raws[p].len <= |src.from.raws[p].bytes|
  {
    var raw := src.from.raws[p];
    c.(rawNext := c.rawNext[p := next],
       heap := c.heap.(raws := c.heap.raws[next := RawString(raw.len, raw.len, raw.bytes[..raw.len])]))
  }

  lemma AdmitRawInv(src: Source, c: Copy, p: Addr, next: Addr)
    requires Inv(src, c) && p in src.from.raws && src.from.raws[p].len <= |src.from.raws[p].bytes|
    requires p !in c.rawNext && next !in c.heap.raws && next >= src.origin
    ensures Inv(src, AdmitRaw(src, c, p, next))
  {
    hide TablesDone, At, Covers, Owns, Apart, Untouched, Done, Fresh, IsArray;
    var e := AdmitRaw(src, c, p, next);
    SameWordsAt(c, e);
    forall l | l in c.links && l !in c.todo
      ensures Done(src, e, l)
    {
      DoneGrows(src, c, e, l);
    }
    forall t | t in c.todo
      ensures Fresh(src, e, t)
    {
      SameWords(src, c, e, t);
    }
    SameTables(src, c, e);
  }

  /** A resource gets the next slot of its table. */
  function AdmitSlot(src: Source, c: Copy, tag: nat, id: nat, payload: Addr): Copy
    requires id < |Cells(src.from, tag)|
  {
    var cells := Cells(c.heap, tag);
    c.(slotNext := c.slotNext[(tag, id) := |cells|],
       heap := c.heap.(tables := c.heap.tables[tag := cells + [Cells(src.from, tag)[id].(payload := payload)]]))
  }

  lemma AdmitSlotTables(src: Source, c: Copy, tag: nat, id: nat, payload: Addr)
    requires TablesDone(src, c) && id < |Cells(src.from, tag)| && (tag, id) !in c.slotNext
    requires CellDone(src, c, tag, Cells(src.from, tag)[id], Cells(src.from, tag)[id].(payload := payload))
    ensures TablesDone(src, AdmitSlot(src, c, tag, id, payload))
  {
    hide CellDone;
    var e := AdmitSlot(src, c, tag, id, payload);
    forall t, i | (t, i) in e.slotNext
      ensures i < |Cells(src.from, t)| && e.slotNext[(t, i)] < |Cells(e.heap, t)|
      ensures CellDone(src, e, t, Cells(src.from, t)[i], Cells(e.heap, t)[e.slotNext[(t, i)]])
    {
      SameCell(src, c, e, t, Cells(src.from, t)[i], Cells(e.heap, t)[e.slotNext[(t, i)]]);
    }
    forall t: nat, k: nat | k < |Cells(e.heap, t)|
      ensures Filled(e.slotNext, t, k)
    {
      if t != tag || k < |Cells(c.heap, t)| {
        assert Filled(c.slotNext, t, k);
        var i :| (t, i) in c.slotNext && c.slotNext[(t, i)] == k;
        assert (t, i) in e.slotNext && e.slotNext[(t, i)] == k;
      } else {
        assert (tag, id) in e.slotNext && e.slotNext[(tag, id)] == k;
      }
    }
  }

  lemma SameCell(src: Source, c: Copy, d: Copy, tag: nat, was: Cell, now: Cell)
    requires c.links == d.links
    ensures CellDone(src, c, tag, was, now) == CellDone(src, d, tag, was, now)
  {
  }

  lemma AdmitSlotInv(src: Source, c: Copy, tag: nat, id: nat, payload: Addr)
    requires Inv(src, c) && id < |Cells(src.from, tag)| && (tag, id) !in c.slotNext
    requires CellDone(src, c, tag, Cells(src.from, tag)[id], Cells(src.from, tag)[id].(payload := payload))
    ensures Inv(src, AdmitSlot(src, c, tag, id, payload))
  {
    hide TablesDone, CellDone, At, Covers, Owns, Apart, Untouched, Done, Fresh, IsArray, Cells;
    var e := AdmitSlot(src, c, tag, id, payload);
    AdmitSlotTables(src, c, tag, id, payload);
    SameWordsAt(c, e);
    forall l | l in c.links && l !in c.todo
      ensures Done(src, e, l)
    {
      DoneGrows(src, c, e, l);
    }
    forall t | t in c.todo
      ensures Fresh(src, e, t)
    {
      SameWords(src, c, e, t);
    }
  }
}
