/** The collector's bookkeeping: forwarding tables, the pending stack and the
    links they stand for. */
module CollectorState {
  import opened HeapGraph
  import opened CopyRelation

  /** Pending work: which scanner entry, where the bytes came from, where they
      are now, how many, and the closed type of the payload; or the payload of a
      resource, by its table. */
  datatype Work =
    | Work(table: Table, from: Addr, at: Addr, size: nat, ty: int)
    | PacketWork(tag: nat, from: Addr, at: Addr, words: nat)

  function LinkOf(src: Source, w: Work): Link {
    match w
    case PacketWork(tag, from, at, words) => Link(Packet(tag, words, from), at)
    case Work(table, from, at, size, ty) =>
      var e := EntryOf(src.img, ty);
      match table
      case Boxes => Link(Value(e, from), at)
      case Newtypes => Link(Value(InnerOf(src.img, e), from), at)
      case Records => Link(Fields(e, size, from), at)
      case Arrays => Link(Elems(e, if e.size == 0 then 0 else size / e.size, from), at)
      case Environments => Link(Object(Environments, from), at)
  }

  function WorkLinks(src: Source, ws: seq<Work>): set<Link> {
    set w | w in ws :: LinkOf(src, w)
  }

  /** Storage, links, forwarding tables, the pending stack, and the links that
      are being scanned right now. */
  datatype State = State(
    heap: Heap, rawNext: map<Addr, Addr>, slotNext: map<(nat, nat), nat>, links: set<Link>, active: set<Link>,
    values: map<Addr, (Addr, int)>, objects: map<(Table, Addr), Addr>, pending: seq<Work>)

  ghost function CopyOf(src: Source, s: State): Copy {
    Copy(s.heap, s.rawNext, s.slotNext, s.links, s.active + WorkLinks(src, s.pending))
  }

  ghost predicate Forwarding(src: Source, s: State) {
    && (forall p :: p in s.values ==>
          var n := Value(EntryOf(src.img, s.values[p].1), p); n in src.ty.heads && Link(n, s.values[p].0) in s.links)
    && (forall k :: k in s.objects ==> Link(Object(k.0, k.1), s.objects[k]) in s.links)
  }

  /** No link waits twice, and none that waits is being scanned. */
  ghost predicate Once(src: Source, s: State) {
    && (forall i, j :: 0 <= i < j < |s.pending| ==> LinkOf(src, s.pending[i]) != LinkOf(src, s.pending[j]))
    && (forall w :: w in s.pending ==> LinkOf(src, w) !in s.active)
  }

  /** Payload links sit right behind a header word. */
  ghost predicate Headed(s: State) {
    forall l :: l in s.links && (l.node.Fields? || l.node.Elems?) ==> l.at - 1 in s.heap.words
  }

  ghost predicate Ok(src: Source, s: State) {
    && Typed(src.img, src.from, src.origin, src.ty)
    && Inv(src, CopyOf(src, s))
    && Forwarding(src, s)
    && Once(src, s)
    && Headed(s)
  }

  /** Before anything is copied: static storage only, nothing forwarded. */
  function Initial(src: Source): State {
    State(Heap(map[], map p | p in src.from.raws && p < src.origin :: src.from.raws[p], map[]),
          map[], map[], {}, {}, map[], map[], [])
  }

  lemma InitialOk(src: Source)
    requires Typed(src.img, src.from, src.origin, src.ty)
    ensures Ok(src, Initial(src))
  {
    hide Typed, Done, Fresh, Apart, Untouched, Covers, CellDone, EntryOf, LinkOf, IsArray;
    assert WorkLinks(src, []) == {};
  }

  // ----- progress -----------------------------------------------------------

  function HeadAddresses(src: Source): set<Addr> {
    set n | n in src.ty.heads :: n.at
  }

  function ObjectKeys(src: Source): set<(Table, Addr)> {
    set n | n in src.ty.nodes && n.Object? :: (n.table, n.at)
  }

  function SlotKeys(src: Source): set<(nat, nat)> {
    set t, i | t in src.from.tables && 0 <= i < |src.from.tables[t]| :: (t, i)
  }

  /** What has been forwarded. */
  datatype Keys = Keys(values: set<Addr>, objects: set<(Table, Addr)>, slots: set<(nat, nat)>)

  function KeysOf(s: State): Keys {
    Keys(s.values.Keys, s.objects.Keys, s.slotNext.Keys)
  }

  /** References and resources that have not been forwarded yet. */
  function Budget(src: Source, k: Keys): nat {
    |HeadAddresses(src) - k.values| + |ObjectKeys(src) - k.objects| + |SlotKeys(src) - k.slots|
  }

  function Weight(src: Source, ws: seq<Work>): nat {
    if ws == [] then 0 else Extent(src, LinkOf(src, ws[|ws| - 1])) + Weight(src, ws[..|ws| - 1])
  }

  /** How one scanning operation may change the state: it finishes the links
      `done`, forgets nothing, and either forwards something new or queues at
      most `extra` words of embedded values. */
  ghost predicate Step(src: Source, s: State, t: State, done: set<Link>, extra: nat) {
    && t.active == s.active - done
    && s.links <= t.links
    && Extends(s, t)
    && (Budget(src, KeysOf(t)) < Budget(src, KeysOf(s))
        || (Budget(src, KeysOf(t)) == Budget(src, KeysOf(s))
            && Weight(src, t.pending) <= Weight(src, s.pending) + extra))
  }

  ghost predicate Extends(s: State, t: State) {
    && s.pending <= t.pending
    && (forall p :: p in s.values ==> p in t.values && t.values[p] == s.values[p])
    && (forall k :: k in s.objects ==> k in t.objects && t.objects[k] == s.objects[k])
    && (forall p :: p in s.rawNext ==> p in t.rawNext && t.rawNext[p] == s.rawNext[p])
    && (forall k :: k in s.slotNext ==> k in t.slotNext && t.slotNext[k] == s.slotNext[k])
  }

  lemma StepTrans(src: Source, s: State, t: State, u: State, d1: set<Link>, d2: set<Link>, x1: nat, x2: nat)
    requires Step(src, s, t, d1, x1) && Step(src, t, u, d2, x2)
    ensures Step(src, s, u, d1 + d2, x1 + x2)
  {
    hide Budget, Weight;
  }

  // ----- state changes ------------------------------------------------------

  lemma WorkLinksPush(src: Source, ws: seq<Work>, w: Work)
    ensures WorkLinks(src, ws + [w]) == WorkLinks(src, ws) + {LinkOf(src, w)}
    ensures Weight(src, ws + [w]) == Weight(src, ws) + Extent(src, LinkOf(src, w))
  {
    hide LinkOf, Extent;
    var vs := ws + [w];
    assert vs[..|vs| - 1] == ws;
    forall l | l in WorkLinks(src, ws) + {LinkOf(src, w)}
      ensures l in WorkLinks(src, vs)
    {
      if l != LinkOf(src, w) {
        var v :| v in ws && l == LinkOf(src, v);
        assert v in vs;
      } else {
        assert w in vs;
      }
    }
  }

  /** Queue a link that is not waiting already. */
  function Push(s: State, w: Work): State {
    s.(pending := s.pending + [w])
  }

  lemma CopyFields(src: Source, s: State)
    ensures var c := CopyOf(src, s);
      c.heap == s.heap && c.links == s.links && c.rawNext == s.rawNext && c.slotNext == s.slotNext
      && c.todo == s.active + WorkLinks(src, s.pending)
  {
  }

  lemma SameLinksOk(src: Source, s: State, t: State)
    requires Ok(src, s) && Once(src, t) && CopyOf(src, t) == CopyOf(src, s)
    requires t.values == s.values && t.objects == s.objects
    ensures Ok(src, t)
  {
    hide Inv, Typed, CopyOf, Once;
    CopyFields(src, s);
    CopyFields(src, t);
  }

  lemma ActiveNotQueued(src: Source, s: State, l: Link)
    requires Once(src, s) && l in s.active
    ensures l !in WorkLinks(src, s.pending)
  {
    hide LinkOf;
  }

  /** Moving an active link to the pending stack changes nothing else. */
  lemma DeferOnce(src: Source, s: State, w: Work)
    requires Once(src, s) && LinkOf(src, w) in s.active
    ensures Once(src, Push(s, w).(active := s.active - {LinkOf(src, w)}))
  {
    hide LinkOf;
    ActiveNotQueued(src, s, LinkOf(src, w));
    forall v | v in s.pending
      ensures LinkOf(src, v) != LinkOf(src, w)
    {
    }
  }

  lemma DeferOk(src: Source, s: State, w: Work)
    requires Ok(src, s) && LinkOf(src, w) in s.active
    ensures var t := Push(s, w).(active := s.active - {LinkOf(src, w)});
      Ok(src, t) && Step(src, s, t, {LinkOf(src, w)}, Extent(src, LinkOf(src, w)))
  {
    hide LinkOf, Inv, Typed, Extent, Forwarding, Headed, Budget, Once, WorkLinks, Weight;
    var l := LinkOf(src, w);
    var t := Push(s, w).(active := s.active - {l});
    WorkLinksPush(src, s.pending, w);
    assert CopyOf(src, t) == CopyOf(src, s);
    DeferOnce(src, s, w);
    SameLinksOk(src, s, t);
  }

  /** Taking the top of the pending stack. */
  lemma PopOnce(src: Source, s: State)
    requires Once(src, s) && s.pending != []
    ensures var n := |s.pending| - 1;
      var l := LinkOf(src, s.pending[n]);
      Once(src, s.(pending := s.pending[..n], active := s.active + {l})) && l !in s.active
  {
    hide LinkOf;
    var n := |s.pending| - 1;
    assert s.pending[n] in s.pending;
    forall w | w in s.pending[..n]
      ensures w in s.pending && LinkOf(src, w) != LinkOf(src, s.pending[n])
    {
    }
  }

  lemma PopOk(src: Source, s: State)
    requires Ok(src, s) && s.pending != []
    ensures var n := |s.pending| - 1;
      var l := LinkOf(src, s.pending[n]);
      var t := s.(pending := s.pending[..n], active := s.active + {l});
      Ok(src, t) && l !in s.active && Weight(src, s.pending) == Weight(src, t.pending) + Extent(src, l)
  {
    hide LinkOf, Inv, Typed, Extent, Forwarding, Headed, Once, WorkLinks, Weight;
    var n := |s.pending| - 1;
    var w := s.pending[n];
    var l := LinkOf(src, w);
    var t := s.(pending := s.pending[..n], active := s.active + {l});
    assert s.pending == t.pending + [w];
    WorkLinksPush(src, t.pending, w);
    assert CopyOf(src, t) == CopyOf(src, s);
    PopOnce(src, s);
    SameLinksOk(src, s, t);
  }

  /** Scanning an active link hands its parts on. */
  function Scan(src: Source, s: State, l: Link): State {
    s.(links := s.links + PartLinks(src, l), active := s.active - {l} + PartLinks(src, l))
  }

  lemma ActiveInv(src: Source, s: State, l: Link)
    requires Ok(src, s) && l in s.active
    ensures var c := CopyOf(src, s); Inv(src, c) && l in c.todo && l in c.links && l.node in src.ty.nodes
  {
    hide Typed, AllDone, TodoFresh, TodoApart, Present, RawsDone, StaticRaws, WorkLinks;
  }

  lemma CoversStart(src: Source, p: Link)
    requires Extent(src, p) > 0
    ensures Covers(src, p, p.at)
  {
    hide Extent;
  }

  /** Parts of a scanned link were not waiting anywhere. */
  lemma PartsNew(src: Source, s: State, l: Link, p: Link)
    requires Ok(src, s) && l in s.active && p in PartLinks(src, l)
    requires Extent(src, p) > 0
    ensures p !in WorkLinks(src, s.pending) && (p in s.active ==> p == l)
  {
    hide Covers, Extent, PartLinks, Typed, WorkLinks, Once, Forwarding, Headed, LinksTyped, AllDone, TodoFresh,
         Present, RawsDone, StaticRaws;
    ActiveInv(src, s, l);
    PartInside(src, l, p);
    CoversStart(src, p);
    ActiveNotQueued(src, s, l);
    assert p in CopyOf(src, s).todo && p != l ==> Apart(src, p, l);
  }

  lemma ScanOk(src: Source, s: State, l: Link)
    requires Ok(src, s) && l in s.active && !IsSlot(l.node)
    requires forall p :: p in PartLinks(src, l) ==> Extent(src, p) > 0
    ensures Ok(src, Scan(src, s, l))
    ensures forall p :: p in PartLinks(src, l) ==> p !in s.active - {l} && p !in WorkLinks(src, s.pending)
  {
    hide LinkOf, Inv, Extent, Typed, PartLinks, IsSlot, WorkLinks;
    var t := Scan(src, s, l);
    ActiveInv(src, s, l);
    ExpandInv(src, CopyOf(src, s), l);
    ActiveNotQueued(src, s, l);
    forall p | p in PartLinks(src, l)
      ensures p !in WorkLinks(src, s.pending) && (p in s.active ==> p == l)
      ensures (p.node.Fields? ==> p.at - 1 in s.heap.words) && !p.node.Elems?
    {
      PartsNew(src, s, l, p);
      PartHeaded(src, s, l, p);
    }
    assert CopyOf(src, t) == Expand(src, CopyOf(src, s), l);
    QueuedStay(src, s, t);
  }

  /** Queued links stay distinct from active ones when only new links join. */
  lemma QueuedStay(src: Source, s: State, t: State)
    requires Once(src, s) && t.pending == s.pending
    requires forall l :: l in t.active && l !in s.active ==> l !in WorkLinks(src, s.pending)
    ensures Once(src, t)
  {
    hide LinkOf;
    forall w | w in t.pending
      ensures LinkOf(src, w) !in t.active
    {
      assert LinkOf(src, w) in WorkLinks(src, s.pending);
    }
  }

  lemma PartHeaded(src: Source, s: State, l: Link, p: Link)
    requires Ok(src, s) && l in s.active && p in PartLinks(src, l)
    ensures p.node.Fields? ==> p.at - 1 in s.heap.words
    ensures !p.node.Elems?
  {
    hide Covers, PartLinks, Typed, WorkLinks, Once, Forwarding, Headed, LinksTyped, AllDone, TodoFresh, TodoApart,
         RawsDone, StaticRaws;
    ActiveInv(src, s, l);
    PartInside(src, l, p);
  }

  // ----- new storage --------------------------------------------------------

  /** A freshly copied block becomes an active link. */
  function Admitted(s: State, heap: Heap, l: Link): State {
    s.(heap := heap, links := s.links + {l}, active := s.active + {l})
  }

  lemma NewLink(src: Source, s: State, heap: Heap, l: Link)
    requires Ok(src, s) && Allocated(src, CopyOf(src, s), heap, l) && Extent(src, l) > 0
    ensures l !in s.links && l !in s.active && l !in WorkLinks(src, s.pending)
  {
    hide Typed, Extent, Covers, WorkLinks, Once, Forwarding, Headed, AllDone, TodoFresh, TodoApart, RawsDone,
         StaticRaws, At;
    CoversStart(src, l);
  }

  lemma GrownWords(src: Source, s: State, heap: Heap, l: Link)
    requires Allocated(src, CopyOf(src, s), heap, l)
    ensures forall a :: a in s.heap.words ==> a in heap.words
  {
    hide Covers, At, WorkLinks;
  }

  lemma AdmitOk(src: Source, s: State, heap: Heap, l: Link)
    requires Ok(src, s) && Allocated(src, CopyOf(src, s), heap, l) && Extent(src, l) > 0
    requires l.node in src.ty.nodes && !IsArray(l.node) && l.at >= src.origin
    requires !l.node.Fields? && !l.node.Elems?
    ensures Ok(src, Admitted(s, heap, l))
    ensures l !in s.links && l !in s.active && l !in WorkLinks(src, s.pending)
  {
    hide Typed, Extent, Inv, Allocated, WorkLinks, Once, IsArray;
    var t := Admitted(s, heap, l);
    NewLink(src, s, heap, l);
    AdmitInv(src, CopyOf(src, s), heap, l);
    GrownWords(src, s, heap, l);
    assert CopyOf(src, t) == Admit(CopyOf(src, s), heap, l);
    QueuedStay(src, s, t);
  }

  /** A new array header is finished at once; its elements become active. */
  function AdmittedArray(src: Source, s: State, heap: Heap, id: Addr, at: Addr): State {
    var elems := Link(Backing(src.img, src.from, id), at + 4);
    s.(heap := heap, links := s.links + {elems, Link(Object(Arrays, id), at)}, active := s.active + {elems})
  }

  lemma NewArrayLinks(src: Source, s: State, heap: Heap, id: Addr, at: Addr)
    requires Ok(src, s) && AllocatedArray(src, CopyOf(src, s), heap, id, at)
    ensures var elems := Link(Backing(src.img, src.from, id), at + 4);
      elems !in s.links && elems !in s.active && elems !in WorkLinks(src, s.pending)
    ensures at + 3 in heap.words && forall a :: a in s.heap.words ==> a in heap.words
  {
    hide Typed, WorkLinks, Once, Forwarding, AllDone, TodoFresh, TodoApart, Present, RawsDone, StaticRaws, At, Extent;
    assert at + 3 !in s.heap.words;
  }

  lemma AdmitArrayOk(src: Source, s: State, heap: Heap, id: Addr, at: Addr)
    requires Ok(src, s) && AllocatedArray(src, CopyOf(src, s), heap, id, at)
    requires Object(Arrays, id) in src.ty.nodes && at >= src.origin
    ensures Ok(src, AdmittedArray(src, s, heap, id, at))
    ensures var elems := Link(Backing(src.img, src.from, id), at + 4);
      elems !in s.links && elems !in s.active && elems !in WorkLinks(src, s.pending)
  {
    hide Typed, Inv, AllocatedArray, WorkLinks, Once, Backing;
    var t := AdmittedArray(src, s, heap, id, at);
    NewArrayLinks(src, s, heap, id, at);
    AdmitArrayInv(src, CopyOf(src, s), heap, id, at);
    assert CopyOf(src, t) == AdmitArray(src, CopyOf(src, s), heap, id, at);
    QueuedStay(src, s, t);
  }

  /** Recording a forwarded reference. */
  lemma ForwardValueOk(src: Source, s: State, p: Addr, at: Addr, ty: int)
    requires Ok(src, s) && Value(EntryOf(src.img, ty), p) in src.ty.heads
    requires Link(Value(EntryOf(src.img, ty), p), at) in s.links && p !in s.values
    ensures Ok(src, s.(values := s.values[p := (at, ty)]))
    ensures Budget(src, KeysOf(s.(values := s.values[p := (at, ty)]))) < Budget(src, KeysOf(s))
  {
    hide LinkOf, Typed, Inv, EntryOf, WorkLinks, Budget;
    var t := s.(values := s.values[p := (at, ty)]);
    assert CopyOf(src, t) == CopyOf(src, s);
    assert t.values.Keys == s.values.Keys + {p};
    FewerValues(src, KeysOf(s), Value(EntryOf(src.img, ty), p));
  }

  lemma ForwardObjectOk(src: Source, s: State, table: Table, id: Addr, at: Addr)
    requires Ok(src, s) && Link(Object(table, id), at) in s.links && (table, id) !in s.objects
    requires Object(table, id) in src.ty.nodes
    ensures Ok(src, s.(objects := s.objects[(table, id) := at]))
    ensures Budget(src, KeysOf(s.(objects := s.objects[(table, id) := at]))) < Budget(src, KeysOf(s))
  {
    hide LinkOf, Typed, Inv, EntryOf, WorkLinks, Budget;
    var t := s.(objects := s.objects[(table, id) := at]);
    assert CopyOf(src, t) == CopyOf(src, s);
    assert t.objects.Keys == s.objects.Keys + {(table, id)};
    FewerObjects(src, KeysOf(s), Object(table, id));
  }

  lemma FewerValues(src: Source, k: Keys, n: Node)
    requires n in src.ty.heads && n.at !in k.values
    ensures Budget(src, k.(values := k.values + {n.at})) < Budget(src, k)
  {
    SmallerWithout(HeadAddresses(src), k.values, n.at);
  }

  lemma FewerObjects(src: Source, k: Keys, n: Node)
    requires n in src.ty.nodes && n.Object? && (n.table, n.at) !in k.objects
    ensures Budget(src, k.(objects := k.objects + {(n.table, n.at)})) < Budget(src, k)
  {
    SmallerWithout(ObjectKeys(src), k.objects, (n.table, n.at));
  }

  lemma FewerSlots(src: Source, k: Keys, tag: nat, id: nat)
    requires HasCell(src.from, tag, id) && (tag, id) !in k.slots
    ensures Budget(src, k.(slots := k.slots + {(tag, id)})) < Budget(src, k)
  {
    assert (tag, id) in SlotKeys(src);
    SmallerWithout(SlotKeys(src), k.slots, (tag, id));
  }

  lemma SmallerWithout<T>(all: set<T>, seen: set<T>, x: T)
    requires x in all && x !in seen
    ensures |all - (seen + {x})| < |all - seen|
  {
    assert all - seen == (all - (seen + {x})) + {x};
  }

  // ----- slots --------------------------------------------------------------

  function Redirected(s: State, l: Link, to: Word): State {
    s.(heap := s.heap.(words := s.heap.words[l.at := to]), active := s.active - {l})
  }

  lemma RedirectOk(src: Source, s: State, l: Link, to: Word)
    requires Ok(src, s) && l in s.active && IsSlot(l.node)
    requires SlotDone(src, Redirect(CopyOf(src, s), l, to), l)
    ensures Ok(src, Redirected(s, l, to))
  {
    hide LinkOf, Typed, Inv, SlotDone, IsSlot;
    RedirectInv(src, CopyOf(src, s), l, to);
    var t := Redirected(s, l, to);
    forall w | w in s.pending
      ensures LinkOf(src, w) != l
    {
    }
    assert CopyOf(src, t) == Redirect(CopyOf(src, s), l, to);
  }

  /** Recording a forwarded resource. */
  lemma AdmitSlotOk(src: Source, s: State, tag: nat, id: nat, payload: Addr)
    requires Ok(src, s) && HasCell(src.from, tag, id) && (tag, id) !in s.slotNext
    requires CellDone(src, CopyOf(src, s), tag, Cells(src.from, tag)[id], Cells(src.from, tag)[id].(payload := payload))
    ensures var c := AdmitSlot(src, CopyOf(src, s), tag, id, payload);
      var t := s.(heap := c.heap, slotNext := c.slotNext);
      Ok(src, t) && Extends(s, t) && Budget(src, KeysOf(t)) < Budget(src, KeysOf(s))
  {
    hide LinkOf, Typed, Inv, CellDone, Cells, WorkLinks, Weight, Budget;
    AdmitSlotInv(src, CopyOf(src, s), tag, id, payload);
    var c := AdmitSlot(src, CopyOf(src, s), tag, id, payload);
    var t := s.(heap := c.heap, slotNext := c.slotNext);
    assert CopyOf(src, t) == c;
    assert t.slotNext.Keys == s.slotNext.Keys + {(tag, id)};
    FewerSlots(src, KeysOf(s), tag, id);
  }

  lemma AdmitRawOk(src: Source, s: State, p: Addr, next: Addr)
    requires Ok(src, s) && p in src.from.raws && src.from.raws[p].len <= |src.from.raws[p].bytes|
    requires p !in s.rawNext && next !in s.heap.raws && next >= src.origin
    ensures var c := AdmitRaw(src, CopyOf(src, s), p, next);
      Ok(src, s.(heap := c.heap, rawNext := c.rawNext))
  {
    hide LinkOf, Typed, Inv;
    AdmitRawInv(src, CopyOf(src, s), p, next);
    var c := AdmitRaw(src, CopyOf(src, s), p, next);
    var t := s.(heap := c.heap, rawNext := c.rawNext);
    assert CopyOf(src, t) == c;
  }

  // ----- forwarding ---------------------------------------------------------

  /** What the block copier promises: a fresh block that repeats old words. */
  ghost predicate Copied(src: Source, was: Heap, heap: Heap, from: Addr, at: Addr, size: nat) {
    && at >= src.origin
    && heap.raws == was.raws && heap.tables == was.tables
    && (forall a :: at <= a < at + size ==> a !in was.words && a in heap.words)
    && (forall a :: at <= a < at + size ==> At(heap, a) == At(src.from, from + (a - at)))
    && (forall a :: a in was.words ==> a in heap.words && At(heap, a) == At(was, a))
  }

  lemma CopiedAllocated(src: Source, s: State, heap: Heap, l: Link)
    requires Copied(src, s.heap, heap, l.node.at, l.at, Extent(src, l))
    ensures Allocated(src, CopyOf(src, s), heap, l)
  {
    hide At, Extent, WorkLinks;
  }

  lemma ValueExtent(src: Source, e: Entry, p: Addr, at: Addr)
    requires Typed(src.img, src.from, src.origin, src.ty) && Value(e, p) in src.ty.nodes
    ensures Extent(src, Link(Value(e, p), at)) == e.size && e.size >= 2
  {
    hide At, Parts, Packed, PartsTyped, TargetsTyped;
    assert ValidNode(src.img, src.from, Value(e, p));
  }

  function ForwardedValue(src: Source, s: State, heap: Heap, p: Addr, at: Addr, ty: int): State {
    var e := EntryOf(src.img, ty);
    s.(heap := heap, links := s.links + {Link(Value(e, p), at)}, values := s.values[p := (at, ty)],
       pending := s.pending + [Work(Boxes, p, at, e.size, ty)])
  }

  lemma HeadTyped(src: Source, n: Node)
    requires Typed(src.img, src.from, src.origin, src.ty) && n in src.ty.heads
    ensures n in src.ty.nodes
  {
    hide NodesFit, PartsTyped, At;
  }

  lemma ForwardedValueOk(src: Source, s: State, heap: Heap, p: Addr, at: Addr, ty: int)
    requires Ok(src, s) && Value(EntryOf(src.img, ty), p) in src.ty.heads && p !in s.values
    requires Copied(src, s.heap, heap, p, at, EntryOf(src.img, ty).size)
    ensures var t := ForwardedValue(src, s, heap, p, at, ty); Ok(src, t) && Step(src, s, t, {}, 0)
  {
    hide Ok, Typed, EntryOf, Copied, Allocated, CopyOf, Extent, Weight, Budget, WorkLinks;
    var e := EntryOf(src.img, ty);
    var l := Link(Value(e, p), at);
    OkTyped(src, s);
    CopiedOrigin(src, s.heap, heap, p, at, e.size);
    HeadTyped(src, l.node);
    ValueExtent(src, e, p, at);
    CopiedAllocated(src, s, heap, l);
    AdmitOk(src, s, heap, l);
    var s1 := Admitted(s, heap, l);
    ForwardValueOk(src, s1, p, at, ty);
    var s2 := s1.(values := s1.values[p := (at, ty)]);
    DeferOk(src, s2, Work(Boxes, p, at, e.size, ty));
    assert (s.active + {l}) - {l} == s.active;
  }

  lemma OkTyped(src: Source, s: State)
    requires Ok(src, s)
    ensures Typed(src.img, src.from, src.origin, src.ty)
  {
    hide Typed, Inv, Forwarding, Once, Headed;
  }

  lemma CopiedOrigin(src: Source, was: Heap, heap: Heap, from: Addr, at: Addr, size: nat)
    requires Copied(src, was, heap, from, at, size)
    ensures at >= src.origin
  {
    hide At;
  }

  /** Captured environments are queued whole. */
  function ForwardedEnvironment(src: Source, s: State, heap: Heap, id: Addr, at: Addr, ty: int): State {
    var l := Link(Object(Environments, id), at);
    s.(heap := heap, links := s.links + {l}, objects := s.objects[(Environments, id) := at],
       pending := s.pending + [Work(Environments, id, at, Extent(src, l), ty)])
  }

  lemma ForwardedEnvironmentOk(src: Source, s: State, heap: Heap, id: Addr, at: Addr, ty: int)
    requires Ok(src, s) && Object(Environments, id) in src.ty.nodes && (Environments, id) !in s.objects
    requires Copied(src, s.heap, heap, id, at, Extent(src, Link(Object(Environments, id), at)))
    ensures var t := ForwardedEnvironment(src, s, heap, id, at, ty); Ok(src, t) && Step(src, s, t, {}, 0)
  {
    hide Ok, Typed, Copied, Allocated, CopyOf, Extent, Weight, Budget, WorkLinks, IsArray;
    var l := Link(Object(Environments, id), at);
    OkTyped(src, s);
    CopiedOrigin(src, s.heap, heap, id, at, Extent(src, l));
    EnvironmentExtent(src, id, at);
    CopiedAllocated(src, s, heap, l);
    AdmitOk(src, s, heap, l);
    var s1 := Admitted(s, heap, l);
    ForwardObjectOk(src, s1, Environments, id, at);
    var s2 := s1.(objects := s1.objects[(Environments, id) := at]);
    DeferOk(src, s2, Work(Environments, id, at, Extent(src, l), ty));
    assert (s.active + {l}) - {l} == s.active;
  }

  lemma EnvironmentExtent(src: Source, id: Addr, at: Addr)
    requires Typed(src.img, src.from, src.origin, src.ty) && Object(Environments, id) in src.ty.nodes
    ensures Extent(src, Link(Object(Environments, id), at)) > 0
    ensures !IsArray(Object(Environments, id))
  {
    hide At, Parts, Packed, PartsTyped, TargetsTyped;
    assert ValidNode(src.img, src.from, Object(Environments, id));
  }

  /** Records, boxes and newtypes: the header is finished at once, the content
      behind it is queued under its stored type. */
  function ForwardedObject(src: Source, s: State, heap: Heap, table: Table, id: Addr, at: Addr): State
  {
    var w := Work(table, id + 2, at + 2, Max0(At(src.from, id + 1)), At(src.from, id));
    s.(heap := heap, links := s.links + {Link(Object(table, id), at), LinkOf(src, w)},
       objects := s.objects[(table, id) := at], pending := s.pending + [w])
  }

  lemma ForwardedObjectOk(src: Source, s: State, heap: Heap, table: Table, id: Addr, at: Addr)
    requires table == Records || table == Boxes || table == Newtypes
    requires Ok(src, s) && Object(table, id) in src.ty.nodes && (table, id) !in s.objects
    requires Copied(src, s.heap, heap, id, at, 2 + Max0(At(src.from, id + 1)))
    ensures var t := ForwardedObject(src, s, heap, table, id, at); Ok(src, t) && Step(src, s, t, {}, 0)
  {
    hide Ok, Typed, Copied, Allocated, CopyOf, Extent, Weight, Budget, WorkLinks, IsArray, LinkOf, PartLinks, IsSlot,
         At, Max0;
    var l := Link(Object(table, id), at);
    var w := Work(table, id + 2, at + 2, Max0(At(src.from, id + 1)), At(src.from, id));
    var content := LinkOf(src, w);
    OkTyped(src, s);
    ObjectShape(src, table, id, at);
    CopiedOrigin(src, s.heap, heap, id, at, Extent(src, l));
    CopiedAllocated(src, s, heap, l);
    AdmitOk(src, s, heap, l);
    var s1 := Admitted(s, heap, l);
    ScanOk(src, s1, l);
    var s2 := Scan(src, s1, l);
    ForwardObjectOk(src, s2, table, id, at);
    var s3 := s2.(objects := s2.objects[(table, id) := at]);
    DeferOk(src, s3, w);
    assert content !in s.active && l !in s.active;
    assert ((s.active + {l}) - {l} + {content}) - {content} == s.active;
    assert s.links + {l} + {content} == s.links + {l, content};
  }

  /** A node with at most one part. */
  lemma OnlyPart(src: Source, l: Link)
    requires |PartsOf(src, l)| <= 1
    ensures PartLinks(src, l) == if PartsOf(src, l) == [] then {} else {PartLink(l, PartsOf(src, l)[0])}
  {
    hide Parts;
  }

  lemma ObjectPart(src: Source, table: Table, id: Addr, at: Addr)
    requires table == Records || table == Boxes || table == Newtypes
    ensures var l := Link(Object(table, id), at);
      var content := LinkOf(src, Work(table, id + 2, at + 2, Max0(At(src.from, id + 1)), At(src.from, id)));
      && Extent(src, l) == 2 + Max0(At(src.from, id + 1)) && !IsArray(l.node) && !IsSlot(l.node)
      && PartsOf(src, l) == [content.node] && PartLink(l, content.node) == content && content != l
  {
    hide EntryOf, InnerOf, At, Max0;
  }

  lemma ObjectShape(src: Source, table: Table, id: Addr, at: Addr)
    requires table == Records || table == Boxes || table == Newtypes
    requires Typed(src.img, src.from, src.origin, src.ty) && Object(table, id) in src.ty.nodes
    ensures var l := Link(Object(table, id), at);
      var content := LinkOf(src, Work(table, id + 2, at + 2, Max0(At(src.from, id + 1)), At(src.from, id)));
      && Extent(src, l) == 2 + Max0(At(src.from, id + 1))
      && !IsArray(l.node) && !IsSlot(l.node)
      && PartLinks(src, l) == {content} && Extent(src, content) > 0 && content != l
  {
    hide LinkOf, PartsOf, Typed, Extent, PartLinks, At, Max0;
    var l := Link(Object(table, id), at);
    var content := LinkOf(src, Work(table, id + 2, at + 2, Max0(At(src.from, id + 1)), At(src.from, id)));
    ObjectPart(src, table, id, at);
    OnlyPart(src, l);
    ContentExtent(src, table, id, at, content);
  }

  lemma ContentExtent(src: Source, table: Table, id: Addr, at: Addr, content: Link)
    requires table == Records || table == Boxes || table == Newtypes
    requires Typed(src.img, src.from, src.origin, src.ty) && Object(table, id) in src.ty.nodes
    requires content == LinkOf(src, Work(table, id + 2, at + 2, Max0(At(src.from, id + 1)), At(src.from, id)))
    ensures Extent(src, content) > 0
  {
    hide EntryOf, InnerOf, Packed, TargetsTyped, At, Parts;
    ObjectPart(src, table, id, at);
    assert ValidNode(src.img, src.from, Object(table, id));
    assert content.node == Parts(src.img, src.from, Object(table, id))[0];
    assert ValidNode(src.img, src.from, content.node);
  }

  /** Arrays: a trimmed copy with its elements behind the header. */
  function ForwardedArray(src: Source, s: State, heap: Heap, id: Addr, at: Addr): State {
    var e := EntryOf(src.img, At(src.from, id));
    var n := Max0(At(src.from, id + 2));
    var w := Work(Arrays, At(src.from, id + 1), at + 4, n * e.size, At(src.from, id));
    s.(heap := heap, links := s.links + {Link(Backing(src.img, src.from, id), at + 4), Link(Object(Arrays, id), at)},
       objects := s.objects[(Arrays, id) := at], pending := s.pending + [w])
  }

  lemma ForwardedArrayOk(src: Source, s: State, heap: Heap, id: Addr, at: Addr)
    requires Ok(src, s) && Object(Arrays, id) in src.ty.nodes && (Arrays, id) !in s.objects && at >= src.origin
    requires AllocatedArray(src, CopyOf(src, s), heap, id, at)
    requires EntryOf(src.img, At(src.from, id)).size == 0 ==> At(src.from, id + 2) == 0
    ensures var t := ForwardedArray(src, s, heap, id, at); Ok(src, t) && Step(src, s, t, {}, 0)
  {
    hide Ok, Typed, AllocatedArray, CopyOf, Extent, Weight, Budget, WorkLinks, LinkOf, At, EntryOf, Backing;
    var e := EntryOf(src.img, At(src.from, id));
    var elems := Link(Backing(src.img, src.from, id), at + 4);
    var w := Work(Arrays, At(src.from, id + 1), at + 4, Max0(At(src.from, id + 2)) * e.size, At(src.from, id));
    ArrayWork(src, id, at);
    AdmitArrayOk(src, s, heap, id, at);
    var s1 := AdmittedArray(src, s, heap, id, at);
    ForwardObjectOk(src, s1, Arrays, id, at);
    var s2 := s1.(objects := s1.objects[(Arrays, id) := at]);
    DeferOk(src, s2, w);
    assert (s.active + {elems}) - {elems} == s.active;
  }

  lemma ArrayWork(src: Source, id: Addr, at: Addr)
    requires EntryOf(src.img, At(src.from, id)).size == 0 ==> At(src.from, id + 2) == 0
    ensures var e := EntryOf(src.img, At(src.from, id));
      LinkOf(src, Work(Arrays, At(src.from, id + 1), at + 4, Max0(At(src.from, id + 2)) * e.size, At(src.from, id)))
        == Link(Backing(src.img, src.from, id), at + 4)
  {
    hide At, EntryOf;
    var e, n := EntryOf(src.img, At(src.from, id)), Max0(At(src.from, id + 2));
    if e.size != 0 {
      QuotientOfProduct(n, e.size);
    }
  }

  /** The slot a resource is about to get. */
  function Slotted(src: Source, s: State, tag: nat, id: nat, payload: Addr): State
    requires HasCell(src.from, tag, id)
  {
    var cells := Cells(s.heap, tag);
    s.(slotNext := s.slotNext[(tag, id) := |cells|],
       heap := s.heap.(tables := s.heap.tables[tag := cells + [Cells(src.from, tag)[id].(payload := payload)]]))
  }

  /** A resource whose payload is storage: the payload is copied and queued. */
  function ForwardedSlot(src: Source, s: State, heap: Heap, tag: nat, id: nat, at: Addr): State
    requires HasCell(src.from, tag, id)
  {
    var c := Cells(src.from, tag)[id];
    var w := PacketWork(tag, c.payload, at, c.words);
    var copied := s.(heap := heap, links := s.links + {Link(PacketOf(tag, c), at)}, pending := s.pending + [w]);
    Slotted(src, copied, tag, id, at)
  }

  /** Only the heap's tables and the forwarding of slots change. */
  lemma SlottedOk(src: Source, s: State, tag: nat, id: nat, payload: Addr)
    requires Ok(src, s) && HasCell(src.from, tag, id) && (tag, id) !in s.slotNext
    requires CellDone(src, CopyOf(src, s), tag, Cells(src.from, tag)[id], Cells(src.from, tag)[id].(payload := payload))
    ensures var t := Slotted(src, s, tag, id, payload);
      Ok(src, t) && Step(src, s, t, {}, 0) && Budget(src, KeysOf(t)) < Budget(src, KeysOf(s))
  {
    hide Ok, CellDone, WorkLinks, Budget, Weight;
    AdmitSlotOk(src, s, tag, id, payload);
    CopyFields(src, s);
  }

  lemma ForwardedSlotOk(src: Source, s: State, heap: Heap, tag: nat, id: nat, at: Addr)
    requires Ok(src, s) && HasCell(src.from, tag, id) && (tag, id) !in s.slotNext && tag != REGEXES
    requires var c := Cells(src.from, tag)[id];
      PacketOf(tag, c) in src.ty.nodes && c.words > 0 && Copied(src, s.heap, heap, c.payload, at, c.words)
    ensures var t := ForwardedSlot(src, s, heap, tag, id, at); Ok(src, t) && Step(src, s, t, {}, 0)
  {
    hide Ok, Typed, Copied, Allocated, Extent, Weight, Budget, WorkLinks, IsArray, Cells;
    var c := Cells(src.from, tag)[id];
    var l := Link(PacketOf(tag, c), at);
    var w := PacketWork(tag, c.payload, at, c.words);
    OkTyped(src, s);
    CopiedOrigin(src, s.heap, heap, c.payload, at, c.words);
    PacketFits(src, s, heap, tag, c, at);
    CopiedAllocated(src, s, heap, l);
    AdmitOk(src, s, heap, l);
    var s1 := Admitted(s, heap, l);
    DeferOk(src, s1, w);
    assert (s.active + {l}) - {l} == s.active;
    var s2 := s.(heap := heap, links := s.links + {l}, pending := s.pending + [w]);
    assert s2 == Push(s1, w).(active := s1.active - {l});
    SlottedOk(src, s2, tag, id, at);
  }

  lemma PacketFits(src: Source, s: State, heap: Heap, tag: nat, c: Cell, at: Addr)
    ensures Extent(src, Link(PacketOf(tag, c), at)) == c.words
    ensures !IsArray(PacketOf(tag, c))
    ensures Copied(src, s.heap, heap, c.payload, at, c.words) ==> heap.tables == s.heap.tables
  {
    hide At;
  }

  /** Storage that belongs to one slot is copied whenever the slot is scanned: it
      holds no reference, so its copy is finished at once. */
  lemma CopiedBlobOk(src: Source, s: State, heap: Heap, words: nat, p: Addr, at: Addr)
    requires Ok(src, s) && Blob(words, p) in src.ty.nodes && words > 0 && Copied(src, s.heap, heap, p, at, words)
    ensures var t := s.(heap := heap, links := s.links + {Link(Blob(words, p), at)});
      Ok(src, t) && Step(src, s, t, {}, 0)
  {
    hide Ok, Typed, Copied, Allocated, Extent, Weight, Budget, WorkLinks, IsArray, PartLinks;
    var l := Link(Blob(words, p), at);
    OkTyped(src, s);
    CopiedOrigin(src, s.heap, heap, p, at, words);
    BlobShape(src, words, p, at);
    CopiedAllocated(src, s, heap, l);
    AdmitOk(src, s, heap, l);
    var s1 := Admitted(s, heap, l);
    ScanOk(src, s1, l);
    assert s.links + {l} + {} == s.links + {l} && (s.active + {l}) - {l} + {} == s.active;
    assert Scan(src, s1, l) == s.(heap := heap, links := s.links + {l});
  }

  lemma BlobShape(src: Source, words: nat, p: Addr, at: Addr)
    ensures var l := Link(Blob(words, p), at);
      Extent(src, l) == words && !IsArray(l.node) && !IsSlot(l.node) && PartLinks(src, l) == {}
  {
  }
}
