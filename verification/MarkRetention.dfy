/** What a nonmoving collection has to keep, said without the scanner: what is in
    use, read off the roots, the layout image and the tables alone, and what every
    root means to its reader once all other storage is gone. */
module MarkRetention {
  import opened HeapGraph
  import opened MarkGraph
  import opened ReferenceWords

  // ----- use ----------------------------------------------------------------------

  /** The `i`th reference of a published buffer designates `n`. */
  ghost predicate Lists(w: World, a: Addr, i: nat, ty: int, n: Node) {
    At(w.heap, a + i) > 0 && n == Value(EntryOf(w.img, ty), At(w.heap, a + i))
  }

  /** A published root gives its owner the storage `n`. */
  ghost predicate RootGives(w: World, p: Root, n: Node) {
    match p
    case RootValue(a, ty) => a > 0 && n == Value(EntryOf(w.img, ty), a)
    case RootStorage(_) => false
    case RootReferences(a, count, ty) => exists i: nat :: i < count && Lists(w, a, i, ty, n)
    case RootResource(a, tag, words) => n == Packet(tag, words, a)
    case RootObject(a, table, size, ty) => ObjectGives(EntryOf(w.img, ty), w.img, a, table, size, n)
  }

  /** The payload of an object under construction, of closed type `e`. */
  ghost predicate ObjectGives(e: Entry, img: Image, a: Addr, table: Table, size: nat, n: Node) {
    match table
    case Records => n == Fields(e, size, a)
    case Boxes => n == Value(e, a)
    case Arrays => n == Elems(e, if e.size == 0 then 0 else size / e.size, a)
    case Environments => n == Object(Environments, a)
    case Newtypes =>
      match e.layout {
        case Newtype(inner) => n == Value(EntryOf(img, inner), a)
        case InlineRecord(fields) => |fields| == 1 && n == Value(EntryOf(img, fields[0].ty), a)
        case _ => false
      }
  }

  /** So does a demand: its value once it is ready, its diagnostic if it failed. */
  ghost predicate DemandGives(w: World, d: Demand, n: Node) {
    match d
    case Unready => false
    case Ready(a, ty) => a > 0 && n == Value(EntryOf(w.img, ty), a)
    case Failed(report) => report.payload != 0 && n == Packet(1, report.words, report.payload)
  }

  /** So does each slot of a table of feedback. */
  ghost predicate FeedbackGives(w: World, tag: nat, id: nat, n: Node) {
    (tag == 1 || tag == 6) && id < |Cells(w.heap, tag)|
    && n == Packet(tag, Cells(w.heap, tag)[id].words, Cells(w.heap, tag)[id].payload)
  }

  ghost predicate Given(w: World, r: Roots, n: Node) {
    || (exists p :: p in r.published && RootGives(w, p, n))
    || (exists d :: d in r.demands && DemandGives(w, d, n))
    || (exists tag: nat, id: nat :: FeedbackGives(w, tag, id, n))
  }

  /** The slot `s` designates the storage `n`. */
  ghost predicate Designates(w: World, s: Node, n: Node) {
    match s
    case Ref(e, a) => At(w.heap, a) > 0 && n == Value(e, At(w.heap, a))
    case Handle(t, a) => At(w.heap, a) > 0 && n == Object(t, At(w.heap, a))
    case Owned(words, a) => words > 0 && n == Data(Entry(Scalar, 2 + words), At(w.heap, a))
    case Slot(tag, a) =>
      var id := At(w.heap, a);
      tag != 3 && 0 <= id < |Cells(w.heap, tag)|
      && n == Packet(tag, Cells(w.heap, tag)[id].words, Cells(w.heap, tag)[id].payload)
    case _ => false
  }

  /** A word of `m` that the image calls a reference leads to `n`. */
  ghost predicate Leads(w: World, m: Node, n: Node) {
    exists s :: Holds(w.img, w.heap, m, s) && Designates(w, s, n)
  }

  ghost predicate UsedIn(w: World, r: Roots, n: Node, steps: nat)
    decreases steps
  {
    if steps == 0 then Given(w, r, n) else exists m :: UsedIn(w, r, m, steps - 1) && Leads(w, m, n)
  }

  /** A root gives `n`, or references lead to it from there. */
  ghost predicate Used(w: World, r: Roots, n: Node) {
    exists steps: nat :: UsedIn(w, r, n, steps)
  }

  /** Storage that a root names by its address alone. */
  ghost predicate Named(r: Roots, a: Addr) {
    a != 0 && (
      || (exists p :: p in r.published && p.ref == a)
      || (exists d :: d in r.demands && d.Failed? && d.report.payload == a)
      || a in r.buffers)
  }

  /** Something in use lies at `a`: itself, the elements of an array, or the raw
      storage behind one of its byte views. */
  ghost predicate LiesAt(w: World, n: Node, a: Addr) {
    || (a == n.at && Size(w.heap, n) > 0)
    || (n.Object? && n.table == Arrays && a == At(w.heap, n.at + 1) && Stored(w, n.at))
    || (exists s :: Holds(w.img, w.heap, n, s) && s.Raw? && a == At(w.heap, s.at))
  }

  /** The array has elements that take room. */
  ghost predicate Stored(w: World, a: Addr) {
    At(w.heap, a + 2) > 0 && EntryOf(w.img, At(w.heap, a)).size > 0
  }

  ghost predicate Needed(w: World, r: Roots, a: Addr) {
    Named(r, a) || exists n :: Used(w, r, n) && LiesAt(w, n, a)
  }

  /** A block of which a root or something in use needs a word. */
  ghost predicate InUse(w: World, r: Roots, b: set<Addr>) {
    exists a :: a in b && Needed(w, r, a)
  }

  ghost predicate Names(w: World, n: Node, tag: nat, id: int) {
    exists s :: Holds(w.img, w.heap, n, s) && s.Slot? && s.tag == tag && At(w.heap, s.at) == id
  }

  /** A slot of a resource table that the Host knows by number or something in use
      names. */
  ghost predicate SlotUsed(w: World, r: Roots, tag: nat, id: int) {
    || ((tag == 1 || tag == 6) && 0 <= id < |Cells(w.heap, tag)|)
    || exists n :: Used(w, r, n) && Names(w, n, tag, id)
  }

  // ----- roots --------------------------------------------------------------------

  ghost predicate Started(w: World, r: Roots) {
    WellTyped(w) && StartOf(w, r).nodes <= w.ty.nodes
  }

  lemma RootExactly(w: World, p: Root, n: Node)
    requires RootNodes(w, p) <= w.ty.nodes && WellTyped(w)
    ensures n in RootNodes(w, p) <==> RootGives(w, p, n)
  {
    hide At, Parts, Packed, PartsTyped, TargetsTyped, EntryOf, WellTyped;
    match p
    case RootReferences(a, count, ty) =>
      if n in RootNodes(w, p) {
        var q :| q in WordsAt(w.heap, a, count) && q >= NULL_ORIGIN && n == Value(EntryOf(w.img, ty), q);
        var i: nat :| i < count && WordsAt(w.heap, a, count)[i] == q;
        assert Lists(w, a, i, ty, n);
      }
      if i: nat :| i < count && Lists(w, a, i, ty, n) {
        assert WordsAt(w.heap, a, count)[i] == At(w.heap, a + i);
      }
    case RootObject(a, table, size, ty) =>
      var m := NodeOf(w, Item.Payload(table, a, size, ty));
      assert m in RootNodes(w, p);
      NodeFits(w, m);
    case _ =>
  }

  lemma DemandExactly(w: World, d: Demand, n: Node)
    ensures n in DemandNodes(w, d) <==> DemandGives(w, d, n)
  {
    hide EntryOf;
  }

  /** The trace starts from exactly what the roots give. */
  lemma GivenExactly(w: World, r: Roots, n: Node)
    requires Started(w, r)
    ensures n in StartOf(w, r).nodes <==> Given(w, r, n)
  {
    hide WellTyped, RootNodes, DemandNodes, RootGives, DemandGives, Cells;
    forall p | p in r.published
      ensures n in RootNodes(w, p) <==> RootGives(w, p, n)
    {
      forall m | m in RootNodes(w, p)
        ensures m in w.ty.nodes
      {
        assert m in StartNodes(w, r);
      }
      RootExactly(w, p, n);
    }
    forall d | d in r.demands
      ensures n in DemandNodes(w, d) <==> DemandGives(w, d, n)
    {
      DemandExactly(w, d, n);
    }
    FeedbackExactly(w, n);
  }

  lemma FeedbackExactly(w: World, n: Node)
    ensures n in TableNodes(w, DIAGNOSTICS) + TableNodes(w, DEBUG_EVENTS)
      <==> exists tag: nat, id: nat :: FeedbackGives(w, tag, id, n)
  {
    hide Cells;
    if tag: nat, id: nat :| FeedbackGives(w, tag, id, n) {
      assert n == PacketOf(tag, Cells(w.heap, tag)[id]);
    }
    if n in TableNodes(w, DIAGNOSTICS) {
      var id :| 0 <= id < |Cells(w.heap, DIAGNOSTICS)| && n == PacketOf(DIAGNOSTICS, Cells(w.heap, DIAGNOSTICS)[id]);
      assert FeedbackGives(w, DIAGNOSTICS, id, n);
    }
    if n in TableNodes(w, DEBUG_EVENTS) {
      var id :| 0 <= id < |Cells(w.heap, DEBUG_EVENTS)| && n == PacketOf(DEBUG_EVENTS, Cells(w.heap, DEBUG_EVENTS)[id]);
      assert FeedbackGives(w, DEBUG_EVENTS, id, n);
    }
  }

  /** Storage that roots name is exactly the storage a trace retains as it is. */
  lemma NamedExactly(r: Roots, a: Addr)
    ensures a in StartSpans(r) <==> Named(r, a)
  {
    if d :| d in r.demands && d.Failed? && d.report.payload == a && a != 0 {
      assert a in DemandSpans(d);
    }
  }

  // ----- storage inside storage ----------------------------------------------------

  ghost predicate IsArray(n: Node) {
    n.Object? && n.table == Arrays
  }

  /** `n` is `m` or one of its parts, at any depth. */
  ghost predicate Within(w: World, m: Node, n: Node, steps: nat)
    decreases steps
  {
    if steps == 0 then n == m
    else if IsSlot(m) then false
    else if IsArray(m) then Within(w, Backing(w.img, w.heap, m.at), n, steps - 1)
    else exists p :: p in Parts(w.img, w.heap, m) && Within(w, p, n, steps - 1)
  }

  lemma PartNext(w: World, n: Node, p: Node)
    requires !IsSlot(n)
    ensures IsArray(n) ==> Next(w, n) == {Backing(w.img, w.heap, n.at)}
    ensures !IsArray(n) ==> (p in Next(w, n) <==> p in Parts(w.img, w.heap, n))
  {
    hide Parts, Backing;
  }

  lemma {:induction false} WithinNext(w: World, m: Node, x: Node, n: Node, steps: nat)
    requires Within(w, m, x, steps) && !IsSlot(x) && n in Next(w, x)
    ensures Within(w, m, n, steps + 1)
    decreases steps
  {
    hide Next, Parts, Backing, IsSlot;
    if steps == 0 {
      PartNext(w, x, n);
      if IsArray(x) {
        assert Within(w, Backing(w.img, w.heap, x.at), n, 0);
      } else {
        assert Within(w, n, n, 0);
      }
    } else if IsArray(m) {
      WithinNext(w, Backing(w.img, w.heap, m.at), x, n, steps - 1);
    } else {
      var p :| p in Parts(w.img, w.heap, m) && Within(w, p, x, steps - 1);
      WithinNext(w, p, x, n, steps - 1);
    }
  }

  lemma {:induction false} WithinFound(w: World, m: Node, s: Node, steps: nat)
    requires Within(w, m, s, steps) && IsSlot(s)
    ensures Found(w.img, w.heap, m, s, steps)
    decreases steps
  {
    hide Parts, Backing, IsSlot;
    if steps > 0 {
      if IsArray(m) {
        WithinFound(w, Backing(w.img, w.heap, m.at), s, steps - 1);
      } else {
        var p :| p in Parts(w.img, w.heap, m) && Within(w, p, s, steps - 1);
        WithinFound(w, p, s, steps - 1);
      }
    }
  }

  /** Parts lie inside the words of their owner, unless they are elements of an array. */
  lemma {:induction false} WithinSpan(w: World, m: Node, n: Node, steps: nat)
    requires WellTyped(w) && m in w.ty.nodes && Within(w, m, n, steps)
    ensures n in w.ty.nodes
    ensures !IsArray(m) ==> m.at <= n.at && n.at + Size(w.heap, n) <= m.at + Size(w.heap, m)
    decreases steps
  {
    hide WellTyped, Next, Parts, Backing, IsSlot, Size;
    if steps > 0 {
      if IsArray(m) {
        var b := Backing(w.img, w.heap, m.at);
        PartNext(w, m, b) by { ObjectIsNoSlot(m); }
        NextTyped(w, m);
        WithinSpan(w, b, n, steps - 1);
      } else {
        var p :| p in Parts(w.img, w.heap, m) && Within(w, p, n, steps - 1);
        PartNext(w, m, p);
        NextTyped(w, m);
        NodeFits(w, m);
        PartIn(w, m, p);
        PartIsNoArray(w, m, p);
        WithinSpan(w, p, n, steps - 1);
      }
    }
  }

  lemma ObjectIsNoSlot(n: Node)
    requires IsArray(n)
    ensures !IsSlot(n)
  {
  }

  lemma PartIn(w: World, n: Node, p: Node)
    requires p in Parts(w.img, w.heap, n)
    requires Packed(w.heap, Parts(w.img, w.heap, n), n.at, n.at + Size(w.heap, n))
    ensures n.at <= p.at && p.at + Size(w.heap, p) <= n.at + Size(w.heap, n)
  {
    hide Parts, Size;
  }

  lemma PartIsNoArray(w: World, n: Node, p: Node)
    requires p in Parts(w.img, w.heap, n)
    ensures !IsArray(p)
  {
    hide At, EntryOf;
  }

  lemma {:induction false} FoundReached(w: World, roots: set<Node>, n: Node, s: Node, steps: nat)
    requires Reachable(w, roots, n) && Found(w.img, w.heap, n, s, steps)
    ensures Reachable(w, roots, s) && IsSlot(s)
    decreases steps
  {
    hide Next, Parts, Backing, Reachable, IsSlot;
    if !IsSlot(n) {
      if IsArray(n) {
        var b := Backing(w.img, w.heap, n.at);
        PartNext(w, n, b);
        ReachStep(w, roots, n, b);
        FoundReached(w, roots, b, s, steps - 1);
      } else {
        var p :| p in Parts(w.img, w.heap, n) && Found(w.img, w.heap, p, s, steps - 1);
        PartNext(w, n, p);
        ReachStep(w, roots, n, p);
        FoundReached(w, roots, p, s, steps - 1);
      }
    }
  }

  // ----- what is in use is what the trace reaches ----------------------------------------

  lemma TypedFits(w: World)
    requires WellTyped(w)
    ensures Fitting(w.img, w.heap, w.ty.nodes)
  {
    hide NodesFit, PartsTyped, TargetsTyped;
  }

  /** A slot leads where the trace goes on. */
  lemma SlotLeads(w: World, s: Node, n: Node)
    requires IsSlot(s) && !s.Raw?
    ensures n in Next(w, s) <==> Designates(w, s, n)
  {
    hide At, Parts, Backing, Cells;
  }

  /** Slots held by something reachable are reached. */
  lemma HeldReached(w: World, from: set<Node>, m: Node, s: Node)
    requires WellTyped(w) && from <= w.ty.nodes && Reachable(w, from, m) && Holds(w.img, w.heap, m, s)
    ensures Reachable(w, from, s) && IsSlot(s)
  {
    hide WellTyped, Reachable, Holds, Found, Fitting, IsSlot;
    ReachTyped(w, from, m);
    TypedFits(w);
    ScannerExact(w.img, w.heap, w.ty.nodes, m, s);
    var steps: nat :| Found(w.img, w.heap, m, s, steps);
    FoundReached(w, from, m, s, steps);
  }

  lemma {:induction false} UsedReached(w: World, r: Roots, n: Node, steps: nat)
    requires Started(w, r) && UsedIn(w, r, n, steps)
    ensures Reachable(w, StartOf(w, r).nodes, n)
    decreases steps
  {
    hide WellTyped, Reachable, Holds, Next, IsSlot, StartOf, Given, Designates;
    var from := StartOf(w, r).nodes;
    if steps == 0 {
      GivenExactly(w, r, n);
      ReachRoot(w, from, n);
    } else {
      var m :| UsedIn(w, r, m, steps - 1) && Leads(w, m, n);
      var s :| Holds(w.img, w.heap, m, s) && Designates(w, s, n);
      UsedReached(w, r, m, steps - 1);
      HeldReached(w, from, m, s);
      DesignatesBySlot(w, s, n);
      SlotLeads(w, s, n);
      ReachStep(w, from, s, n);
    }
  }

  lemma DesignatesBySlot(w: World, s: Node, n: Node)
    requires Designates(w, s, n)
    ensures !s.Raw?
  {
  }

  /** Whatever is reached is inside something in use. */
  lemma {:induction false} ReachedUsed(w: World, r: Roots, n: Node, steps: nat) returns (m: Node, depth: nat)
    requires Started(w, r) && ReachedIn(w, StartOf(w, r).nodes, n, steps)
    ensures Used(w, r, m) && Within(w, m, n, depth) && m in w.ty.nodes
    decreases steps
  {
    hide WellTyped, Next, IsSlot, StartOf, Given, Designates, Used, Within, Holds;
    var from := StartOf(w, r).nodes;
    if steps == 0 {
      GivenExactly(w, r, n);
      m, depth := n, 0;
      UsedGiven(w, r, n);
      WithinSelf(w, n);
    } else {
      var x :| ReachedIn(w, from, x, steps - 1) && n in Next(w, x);
      m, depth := ReachedUsed(w, r, x, steps - 1);
      if IsSlot(x) {
        HeldWithin(w, m, x, depth);
        RawLeadsNowhere(w, x, n);
        SlotLeads(w, x, n);
        UsedLeads(w, r, m, x, n);
        WithinSpan(w, m, x, depth);
        NextTyped(w, x);
        m, depth := n, 0;
        WithinSelf(w, n);
      } else {
        WithinNext(w, m, x, n, depth);
        depth := depth + 1;
      }
    }
  }

  lemma RawLeadsNowhere(w: World, x: Node, n: Node)
    requires n in Next(w, x)
    ensures !x.Raw?
  {
    hide At, Backing;
  }

  lemma WithinSelf(w: World, n: Node)
    ensures Within(w, n, n, 0)
  {
  }

  lemma UsedGiven(w: World, r: Roots, n: Node)
    requires Given(w, r, n)
    ensures Used(w, r, n)
  {
    hide Given;
    assert UsedIn(w, r, n, 0);
  }

  lemma UsedLeads(w: World, r: Roots, m: Node, s: Node, n: Node)
    requires Used(w, r, m) && Holds(w.img, w.heap, m, s) && Designates(w, s, n)
    ensures Used(w, r, n)
  {
    hide UsedIn, Holds, Designates;
    var steps: nat :| UsedIn(w, r, m, steps);
    LeadsOn(w, r, m, n, steps);
  }

  lemma LeadsOn(w: World, r: Roots, m: Node, n: Node, steps: nat)
    requires UsedIn(w, r, m, steps) && Leads(w, m, n)
    ensures UsedIn(w, r, n, steps + 1)
  {
    hide Leads, Given;
  }

  /** A slot inside a node is held by it. */
  lemma HeldWithin(w: World, m: Node, s: Node, depth: nat)
    requires WellTyped(w) && m in w.ty.nodes && Within(w, m, s, depth) && IsSlot(s)
    ensures Holds(w.img, w.heap, m, s)
  {
    hide WellTyped, Holds, Within, Found, Fitting, IsSlot;
    TypedFits(w);
    WithinFound(w, m, s, depth);
    ScannerExact(w.img, w.heap, w.ty.nodes, m, s);
  }

  // ----- exactly what is in use is retained -----------------------------------------------

  /** Storage of something in use is justified. */
  lemma UsedJustified(w: World, r: Roots, n: Node, a: Addr)
    requires Started(w, r) && Used(w, r, n) && LiesAt(w, n, a)
    ensures Justified(w, StartOf(w, r), a)
  {
    hide WellTyped, Reachable, Next, StartOf, Holds, Size, At, UsedIn, Stored;
    var from := StartOf(w, r);
    var steps: nat :| UsedIn(w, r, n, steps);
    UsedReached(w, r, n, steps);
    if a == n.at && Size(w.heap, n) > 0 {
      assert a in Touches(w, n);
    } else if s :| Holds(w.img, w.heap, n, s) && s.Raw? && a == At(w.heap, s.at) {
      HeldReached(w, from.nodes, n, s);
      assert a in Touches(w, s);
    } else {
      ElementsStored(w, n.at);
      var b := Backing(w.img, w.heap, n.at);
      PartNext(w, n, b) by { ObjectIsNoSlot(n); }
      ReachStep(w, from.nodes, n, b);
      assert a in Touches(w, b);
    }
  }

  lemma ElementsStored(w: World, a: Addr)
    ensures var b := Backing(w.img, w.heap, a);
      b.at == At(w.heap, a + 1) && (Size(w.heap, b) > 0 <==> Stored(w, a))
  {
    hide At, EntryOf;
    var b := Backing(w.img, w.heap, a);
    if Stored(w, a) { ProductAtLeast(b.count, b.e.size); }
  }

  /** A block that holds an address for something reachable holds one for something
      in use. */
  lemma TouchedInUse(w: World, r: Roots, blocks: set<set<Addr>>, b: set<Addr>, n: Node, a: Addr)
    requires Started(w, r) && Housed(w, blocks) && b in blocks && a in b
    requires Reachable(w, StartOf(w, r).nodes, n) && a in Touches(w, n)
    ensures InUse(w, r, b)
  {
    hide WellTyped, Next, StartOf, Holds, At, Used, Within, Size, Housed;
    var steps: nat :| ReachedIn(w, StartOf(w, r).nodes, n, steps);
    var m, depth := ReachedUsed(w, r, n, steps);
    if n.Raw? && a == At(w.heap, n.at) {
      HeldWithin(w, m, n, depth) by { assert IsSlot(n); }
      assert LiesAt(w, m, a);
    } else {
      var c := TouchedOwner(w, blocks, b, m, n, depth);
      assert LiesAt(w, m, c);
    }
  }

  lemma TouchedOwner(w: World, blocks: set<set<Addr>>, b: set<Addr>, m: Node, n: Node, depth: nat) returns (c: Addr)
    requires WellTyped(w) && Housed(w, blocks) && b in blocks && m in w.ty.nodes
    requires Within(w, m, n, depth) && n.at in b && Size(w.heap, n) > 0
    ensures c in b && LiesAt(w, m, c)
  {
    hide WellTyped, Next, Holds, At, Size;
    if !IsArray(m) || depth == 0 {
      if depth > 0 { WithinSpan(w, m, n, depth); }
      c := m.at;
    } else {
      var e := Backing(w.img, w.heap, m.at);
      ElementsStored(w, m.at);
      PartNext(w, m, e);
      NextTyped(w, m);
      WithinSpan(w, e, n, depth - 1);
      c := e.at;
    }
  }

  /** A block is retained exactly if it is in use. */
  lemma RetainedExactly(w: World, r: Roots, blocks: set<set<Addr>>, b: set<Addr>)
    requires Started(w, r) && Housed(w, blocks) && b in blocks
    ensures Retained(w, StartOf(w, r), b) <==> InUse(w, r, b)
  {
    hide WellTyped, Reachable, Housed, Used, Touches, LiesAt, StartNodes, TableIds;
    if a :| a in b && Justified(w, StartOf(w, r), a) {
      if a in StartOf(w, r).spans {
        NamedExactly(r, a);
      } else {
        var n :| Reachable(w, StartOf(w, r).nodes, n) && a in Touches(w, n);
        TouchedInUse(w, r, blocks, b, n, a);
      }
    }
    if InUse(w, r, b) {
      var a :| a in b && Needed(w, r, a);
      if Named(r, a) {
        NamedExactly(r, a);
        assert Justified(w, StartOf(w, r), a);
      } else {
        var n :| Used(w, r, n) && LiesAt(w, n, a);
        UsedJustified(w, r, n, a);
      }
    }
  }

  /** A slot is reached exactly if it is in use. */
  lemma SlotExactly(w: World, r: Roots, tag: nat, id: int)
    requires Started(w, r)
    ensures SlotReached(w, StartOf(w, r), tag, id) <==> SlotUsed(w, r, tag, id)
  {
    hide WellTyped, Holds, UsedIn, StartNodes, StartSpans, At, Cells, Within, ReachedIn;
    var from := StartOf(w, r);
    if n :| Reachable(w, from.nodes, n) && n.Slot? && SlotKey(w, n) == (tag, id) {
      var steps: nat :| ReachedIn(w, from.nodes, n, steps);
      var m, depth := ReachedUsed(w, r, n, steps);
      HeldWithin(w, m, n, depth);
      assert Names(w, m, tag, id);
    }
    if n :| Used(w, r, n) && Names(w, n, tag, id) {
      var s :| Holds(w.img, w.heap, n, s) && s.Slot? && s.tag == tag && At(w.heap, s.at) == id;
      var steps: nat :| UsedIn(w, r, n, steps);
      UsedReached(w, r, n, steps);
      HeldReached(w, from.nodes, n, s);
      assert SlotKey(w, s) == (tag, id);
    }
  }
}
