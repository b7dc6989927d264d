/** Reachability in a published heap and the state of nonmoving discovery
    (gc_mark.rs): what has been seen, which storage it pins, what still waits. */
module MarkGraph {
  import opened HeapGraph

  /** The heap that is marked. Only null references end a trace: static objects
      are traversed like any other. */
  datatype World = World(img: Image, heap: Heap, ty: Typing)

  const NULL_ORIGIN: Addr := 1

  /** Null is not storage. */
  ghost predicate WellTyped(w: World) {
    Typed(w.img, w.heap, NULL_ORIGIN, w.ty) && forall n :: n in w.ty.nodes ==> n.at > 0
  }

  function PartSet(w: World, n: Node): set<Node> {
    set i | 0 <= i < |Parts(w.img, w.heap, n)| :: Parts(w.img, w.heap, n)[i]
  }

  /** One edge of the object graph. */
  function Next(w: World, n: Node): set<Node> {
    if n.Ref? || n.Handle? then Target(w.heap, NULL_ORIGIN, n)
    else if n.Slot? then Payloads(w.heap, n)
    else if n.Owned? then Belongings(w.heap, n)
    else if n.Object? && n.table == Arrays then {Backing(w.img, w.heap, n.at)}
    else PartSet(w, n)
  }

  ghost predicate ReachedIn(w: World, roots: set<Node>, n: Node, steps: nat)
    decreases steps
  {
    if steps == 0 then n in roots
    else exists m :: ReachedIn(w, roots, m, steps - 1) && n in Next(w, m)
  }

  ghost predicate Reachable(w: World, roots: set<Node>, n: Node) {
    exists steps: nat :: ReachedIn(w, roots, n, steps)
  }

  /** Addresses that keep a node's storage alive: its own first word, and the
      raw storage behind a byte view. */
  function Touches(w: World, n: Node): set<Addr> {
    (if Size(w.heap, n) > 0 then {n.at} else {}) + (if n.Raw? then {At(w.heap, n.at)} else {})
  }

  lemma ReachRoot(w: World, roots: set<Node>, n: Node)
    requires n in roots
    ensures Reachable(w, roots, n)
  {
    assert ReachedIn(w, roots, n, 0);
  }

  lemma ReachStep(w: World, roots: set<Node>, m: Node, n: Node)
    requires Reachable(w, roots, m) && n in Next(w, m)
    ensures Reachable(w, roots, n)
  {
    hide Next;
    var k: nat :| ReachedIn(w, roots, m, k);
    assert ReachedIn(w, roots, n, k + 1);
  }

  lemma {:induction false} ClosedHoldsAll(w: World, roots: set<Node>, closed: set<Node>, n: Node, steps: nat)
    requires roots <= closed && forall m :: m in closed ==> Next(w, m) <= closed
    requires ReachedIn(w, roots, n, steps)
    ensures n in closed
    decreases steps
  {
    hide Next;
    if steps > 0 {
      var m :| ReachedIn(w, roots, m, steps - 1) && n in Next(w, m);
      ClosedHoldsAll(w, roots, closed, m, steps - 1);
      assert Next(w, m) <= closed;
    }
  }

  lemma NextTyped(w: World, n: Node)
    requires WellTyped(w) && n in w.ty.nodes
    ensures Next(w, n) <= w.ty.nodes
  {
    hide Parts, Size, Target, Payloads, Belongings, Backing, NodesFit;
  }

  lemma NodeFits(w: World, n: Node)
    requires WellTyped(w) && n in w.ty.nodes
    ensures ValidNode(w.img, w.heap, n) && n.at > 0
    ensures Packed(w.heap, Parts(w.img, w.heap, n), n.at, n.at + Size(w.heap, n))
  {
    hide Parts, Size, ValidNode, Packed, PartsTyped, TargetsTyped;
  }

  /** Everything reachable is typed. */
  lemma ReachTyped(w: World, from: set<Node>, n: Node)
    requires WellTyped(w) && from <= w.ty.nodes && Reachable(w, from, n)
    ensures n in w.ty.nodes
  {
    hide WellTyped, Next, ReachedIn;
    forall m | m in w.ty.nodes
      ensures Next(w, m) <= w.ty.nodes
    {
      NextTyped(w, m);
    }
    var steps: nat :| ReachedIn(w, from, n, steps);
    ClosedHoldsAll(w, from, w.ty.nodes, n, steps);
  }

  // ----- pending work and state ---------------------------------------------

  /** A full value, an object's payload with its length and closed type, or a
      resource's payload, by its table. */
  datatype Item =
    | FullValue(at: Addr, ty: int)
    | Payload(table: Table, at: Addr, size: nat, ty: int)
    | ResourcePayload(tag: nat, at: Addr, words: nat)

  function NodeOf(w: World, i: Item): Node {
    match i
    case FullValue(a, ty) => Value(EntryOf(w.img, ty), a)
    case Payload(Boxes, a, _, ty) => Value(EntryOf(w.img, ty), a)
    case Payload(Newtypes, a, _, ty) => Value(InnerOf(w.img, EntryOf(w.img, ty)), a)
    case Payload(Records, a, size, ty) => Fields(EntryOf(w.img, ty), size, a)
    case Payload(Arrays, a, size, ty) =>
      var e := EntryOf(w.img, ty); Elems(e, if e.size == 0 then 0 else size / e.size, a)
    case Payload(Environments, a, _, _) => Object(Environments, a)
    case ResourcePayload(tag, a, words) => Packet(tag, words, a)
  }

  function PayloadItem(tag: nat, c: Cell): (i: Item)
    ensures forall w :: NodeOf(w, i) == PacketOf(tag, c)
  {
    ResourcePayload(tag, c.payload, c.words)
  }

  function Waiting(w: World, items: seq<Item>): set<Node> {
    set i | i in items :: NodeOf(w, i)
  }

  /** Pinned addresses, forwarding-free visit tables and the pending stack; ghost
      are the nodes seen so far and those being scanned right now. */
  datatype Marks = Marks(
    storage: set<Addr>, seen: set<Node>, open: set<Node>,
    values: set<(Addr, int)>, objects: set<(Table, Addr)>, slots: set<(nat, int)>, pending: seq<Item>)

  /** Some pinned address lies in every block that holds `a`. */
  ghost predicate Pinned(storage: set<Addr>, blocks: set<set<Addr>>, a: Addr) {
    forall b :: b in blocks && a in b ==> Hit(storage, b)
  }

  ghost predicate Hit(storage: set<Addr>, b: set<Addr>) {
    exists s :: s in storage && s in b
  }

  /** Blocks never cut a node in two, and none of them holds null. */
  ghost predicate Housed(w: World, blocks: set<set<Addr>>) {
    && (forall b :: b in blocks ==> 0 !in b)
    && forall n, b, a :: n in w.ty.nodes && b in blocks && n.at <= a < n.at + Size(w.heap, n) ==>
      (a in b <==> n.at in b)
  }

  /** What a trace starts from: nodes to follow, storage to retain as it is, and
      slots of resource tables to hold. */
  datatype Start = Start(nodes: set<Node>, spans: set<Addr>, ids: set<(nat, int)>)

  ghost predicate Justified(w: World, from: Start, s: Addr) {
    s in from.spans || exists n :: Reachable(w, from.nodes, n) && s in Touches(w, n)
  }

  /** The slot of a resource table that a node names. */
  function SlotKey(w: World, n: Node): (nat, int)
    requires n.Slot?
  {
    (n.tag, At(w.heap, n.at))
  }

  /** The slot is a root, or something reachable names it. */
  ghost predicate SlotReached(w: World, from: Start, tag: nat, id: int) {
    (tag, id) in from.ids || exists n :: Reachable(w, from.nodes, n) && n.Slot? && SlotKey(w, n) == (tag, id)
  }

  ghost predicate SlotsReached(w: World, from: Start, slots: set<(nat, int)>) {
    forall tag, id :: (tag, id) in slots ==> SlotReached(w, from, tag, id)
  }

  ghost predicate Sound(w: World, from: Start, m: Marks) {
    && (forall n :: n in m.seen ==> Reachable(w, from.nodes, n))
    && (forall s :: s in m.storage ==> Justified(w, from, s))
    && SlotsReached(w, from, m.slots)
  }

  /** Seen nodes are being scanned, wait, or have all their successors seen. */
  ghost predicate Tracked(w: World, m: Marks) {
    && m.seen <= w.ty.nodes
    && (forall n :: n in m.seen ==> n in m.open || n in Waiting(w, m.pending) || Next(w, n) <= m.seen)
  }

  /** Every address touched by a seen node lies in a pinned block. */
  ghost predicate Anchored(w: World, blocks: set<set<Addr>>, m: Marks) {
    && (forall n :: n in m.seen && Size(w.heap, n) > 0 ==> Pinned(m.storage, blocks, n.at))
    && (forall n :: n in m.seen && n.Raw? && n !in m.open ==> Pinned(m.storage, blocks, At(w.heap, n.at)))
  }

  ghost predicate Visited(w: World, m: Marks) {
    && (forall p, ty :: (p, ty) in m.values ==> Value(EntryOf(w.img, ty), p) in m.seen)
    && (forall t, id :: (t, id) in m.objects ==> Object(t, id) in m.seen)
    && Listed(w, m)
    && Waiting(w, m.pending) <= m.seen
    && m.open <= m.seen
  }

  /** The payload behind a slot was seen, if there is one in managed storage. */
  ghost predicate PayloadSeen(w: World, seen: set<Node>, tag: nat, id: int) {
    tag != REGEXES && HasCell(w.heap, tag, id) ==> PacketOf(tag, Cells(w.heap, tag)[id]) in seen
  }

  /** Recorded slots have their payload seen, and no finished slot is missing. */
  ghost predicate Listed(w: World, m: Marks) {
    && (forall tag, id :: (tag, id) in m.slots ==> PayloadSeen(w, m.seen, tag, id))
    && (forall n :: n in m.seen && n.Slot? && n !in m.open ==> SlotKey(w, n) in m.slots)
  }

  ghost predicate Ok(w: World, blocks: set<set<Addr>>, from: Start, m: Marks) {
    && WellTyped(w) && Housed(w, blocks)
    && Sound(w, from, m) && Tracked(w, m) && Anchored(w, blocks, m) && Visited(w, m)
  }

  // ----- progress -----------------------------------------------------------

  function ValueKeys(w: World): set<(Addr, int)> {
    set n, ty | n in w.ty.nodes && 0 <= ty < |w.img| :: (n.at, ty)
  }

  function ObjectKeys(w: World): set<(Table, Addr)> {
    set n | n in w.ty.nodes && n.Object? :: (n.table, n.at)
  }

  function SlotKeys(w: World): set<(nat, int)> {
    set t, i | t in w.heap.tables && 0 <= i < |w.heap.tables[t]| :: (t, i)
  }

  /** What has not been visited yet. */
  function Budget(w: World, m: Marks): nat {
    |ValueKeys(w) - m.values| + |ObjectKeys(w) - m.objects| + |SlotKeys(w) - m.slots|
  }

  /** One scanning operation: it forgets nothing, leaves none of `done` open, and
      either visits something new or queues nothing. */
  ghost predicate Step(w: World, s: Marks, t: Marks, done: set<Node>) {
    && s.seen <= t.seen && s.storage <= t.storage && t.open <= s.open - done
    && s.values <= t.values && s.objects <= t.objects && s.slots <= t.slots
    && (Budget(w, t) < Budget(w, s) || (t.pending == s.pending && SameVisits(s, t)))
  }

  predicate SameVisits(s: Marks, t: Marks) {
    t.values == s.values && t.objects == s.objects && t.slots == s.slots
  }

  lemma StepTrans(w: World, s: Marks, t: Marks, u: Marks, d: set<Node>, e: set<Node>)
    requires Step(w, s, t, d) && Step(w, t, u, e)
    ensures Step(w, s, u, d + e)
  {
    hide Budget;
    SameBudget(w, s, t);
    SameBudget(w, t, u);
  }

  lemma SameBudget(w: World, s: Marks, t: Marks)
    ensures SameVisits(s, t) ==> Budget(w, s) == Budget(w, t)
  {
  }

  lemma Shrinks<T>(keys: set<T>, was: set<T>, now: set<T>, k: T)
    requires was <= now && k in keys && k in now && k !in was
    ensures |keys - now| < |keys - was|
  {
    assert keys - now <= keys - was - {k};
    Fewer(keys - now, keys - was - {k});
    assert |keys - was - {k}| == |keys - was| - 1;
  }

  lemma {:induction false} Fewer<T>(a: set<T>, b: set<T>)
    requires a <= b
    ensures |a| <= |b|
  {
    if x :| x in a {
      Fewer(a - {x}, b - {x});
    }
  }

  // ----- state changes ------------------------------------------------------

  /** The successors of `n` are seen; they are scanned next. */
  function Entered(w: World, m: Marks, n: Node): Marks {
    m.(seen := m.seen + Next(w, n), open := m.open - {n} + Next(w, n))
  }

  lemma EnterOk(w: World, blocks: set<set<Addr>>, from: Start, m: Marks, n: Node)
    requires Ok(w, blocks, from, m) && n in m.seen && !IsSlot(n) && !(n.Object? && n.table == Arrays)
    ensures Ok(w, blocks, from, Entered(w, m, n))
  {
    hide WellTyped, Housed, Anchored, Next, Waiting, NodeOf, EntryOf, Justified, Reachable;
    NextTyped(w, n);
    forall p | p in Next(w, n)
      ensures Reachable(w, from.nodes, p)
    {
      ReachStep(w, from.nodes, n, p);
    }
    EnterAnchored(w, blocks, m, n);
  }

  lemma EnterAnchored(w: World, blocks: set<set<Addr>>, m: Marks, n: Node)
    requires WellTyped(w) && Housed(w, blocks) && Anchored(w, blocks, m) && m.seen <= w.ty.nodes
    requires n in m.seen && !IsSlot(n) && !(n.Object? && n.table == Arrays)
    ensures Anchored(w, blocks, Entered(w, m, n))
  {
    hide WellTyped, Housed, Next, Pinned, Size;
    forall p | p in Next(w, n) && Size(w.heap, p) > 0
      ensures Pinned(m.storage, blocks, p.at)
    {
      PartPinned(w, blocks, m, n, p);
    }
  }

  lemma PartPinned(w: World, blocks: set<set<Addr>>, m: Marks, n: Node, p: Node)
    requires WellTyped(w) && Housed(w, blocks) && Anchored(w, blocks, m) && m.seen <= w.ty.nodes
    requires n in m.seen && !IsSlot(n) && !(n.Object? && n.table == Arrays)
    requires p in Next(w, n) && Size(w.heap, p) > 0
    ensures Pinned(m.storage, blocks, p.at)
  {
    hide WellTyped, Size, Parts, At;
    NodeFits(w, n);
    assert n.at <= p.at < n.at + Size(w.heap, n);
    assert Pinned(m.storage, blocks, n.at);
  }

  lemma WaitingPush(w: World, items: seq<Item>, i: Item)
    ensures Waiting(w, items + [i]) == Waiting(w, items) + {NodeOf(w, i)}
  {
    hide NodeOf;
    assert i in items + [i];
    forall n | n in Waiting(w, items)
      ensures n in Waiting(w, items + [i])
    {
      var j :| j in items && n == NodeOf(w, j);
      assert j in items + [i];
    }
  }

  /** One node becomes seen and waits; its first word is pinned. */
  function Queued(w: World, m: Marks, i: Item): Marks {
    m.(seen := m.seen + {NodeOf(w, i)}, storage := m.storage + {NodeOf(w, i).at}, pending := m.pending + [i])
  }

  lemma QueueOk(w: World, blocks: set<set<Addr>>, from: Start, m: Marks, i: Item)
    requires Ok(w, blocks, from, m) && NodeOf(w, i) in w.ty.nodes && Reachable(w, from.nodes, NodeOf(w, i))
    requires !NodeOf(w, i).Raw? && !NodeOf(w, i).Slot?
    requires (Size(w.heap, NodeOf(w, i)) > 0 || NodeOf(w, i).at in from.spans)
    ensures Ok(w, blocks, from, Queued(w, m, i))
  {
    hide WellTyped, Housed, Waiting, NodeOf, EntryOf, Reachable, Size, Next;
    WaitingPush(w, m.pending, i);
    assert NodeOf(w, i).at in from.spans || NodeOf(w, i).at in Touches(w, NodeOf(w, i));
    GrowPinned(blocks, m.storage, Queued(w, m, i).storage);
  }

  lemma GrowPinned(blocks: set<set<Addr>>, s: set<Addr>, t: set<Addr>)
    requires s <= t
    ensures forall a :: Pinned(s, blocks, a) ==> Pinned(t, blocks, a)
    ensures forall a :: a in t ==> Pinned(t, blocks, a)
  {
  }

  // ----- visiting references -------------------------------------------------

  /** A full value is visited for the first time under this type. */
  function ValueVisited(w: World, m: Marks, p: Addr, ty: int): Marks {
    Queued(w, m, FullValue(p, ty)).(values := m.values + {(p, ty)})
  }

  lemma ValueVisitedOk(w: World, blocks: set<set<Addr>>, from: Start, m: Marks, p: Addr, ty: int)
    requires Ok(w, blocks, from, m) && (p, ty) !in m.values
    requires Value(EntryOf(w.img, ty), p) in w.ty.nodes && Reachable(w, from.nodes, Value(EntryOf(w.img, ty), p))
    ensures Ok(w, blocks, from, ValueVisited(w, m, p, ty)) && Step(w, m, ValueVisited(w, m, p, ty), {})
  {
    hide WellTyped, Housed, Waiting, Reachable, Next, Sound, Tracked, Anchored;
    var e := EntryOf(w.img, ty);
    NodeFits(w, Value(e, p));
    QueueOk(w, blocks, from, m, FullValue(p, ty));
    var q := Queued(w, m, FullValue(p, ty));
    TablesKept(w, blocks, from, q);
    VisitedStorage(w, blocks, from, q, m.values + {(p, ty)}, m.objects, m.slots);
    assert (p, ty) in ValueKeys(w);
    Shrinks(ValueKeys(w), m.values, m.values + {(p, ty)}, (p, ty));
  }

  /** Only `Visited` and `Sound` speak about the visit tables. */
  lemma VisitedStorage(w: World, blocks: set<set<Addr>>, from: Start, q: Marks, values: set<(Addr, int)>,
                       objects: set<(Table, Addr)>, slots: set<(nat, int)>)
    requires Ok(w, blocks, from, q) && q.slots <= slots && SlotsReached(w, from, slots)
    requires forall p, ty :: (p, ty) in values ==> Value(EntryOf(w.img, ty), p) in q.seen
    requires forall t, id :: (t, id) in objects ==> Object(t, id) in q.seen
    requires forall tag, id :: (tag, id) in slots ==> PayloadSeen(w, q.seen, tag, id)
    ensures Ok(w, blocks, from, q.(values := values, objects := objects, slots := slots))
  {
    hide WellTyped, Housed, Waiting, Reachable, Next, EntryOf, Justified, Pinned, Size, PayloadSeen, SlotReached, At;
  }

  lemma TablesKept(w: World, blocks: set<set<Addr>>, from: Start, m: Marks)
    requires Ok(w, blocks, from, m)
    ensures SlotsReached(w, from, m.slots)
    ensures forall tag, id :: (tag, id) in m.slots ==> PayloadSeen(w, m.seen, tag, id)
    ensures forall p, ty :: (p, ty) in m.values ==> Value(EntryOf(w.img, ty), p) in m.seen
    ensures forall t, id :: (t, id) in m.objects ==> Object(t, id) in m.seen
  {
    hide WellTyped, Housed, Waiting, Reachable, Next, EntryOf, Justified, Pinned, Size, PayloadSeen, SlotReached, At,
         SlotKey;
  }

  /** A resource is visited for the first time. */
  function SlotVisited(w: World, m: Marks, tag: nat, id: int): Marks
    requires HasCell(w.heap, tag, id)
  {
    var q := if tag == REGEXES then m else Queued(w, m, PayloadItem(tag, Cells(w.heap, tag)[id]));
    q.(slots := m.slots + {(tag, id)})
  }

  /** The slot may be visited: it is reached, and so is its payload. */
  ghost predicate Visitable(w: World, from: Start, tag: nat, id: int) {
    && HasCell(w.heap, tag, id) && SlotReached(w, from, tag, id)
    && (tag != REGEXES ==>
          var p := PacketOf(tag, Cells(w.heap, tag)[id]);
          p in w.ty.nodes && Reachable(w, from.nodes, p))
  }

  lemma SlotVisitedOk(w: World, blocks: set<set<Addr>>, from: Start, m: Marks, tag: nat, id: int)
    requires Ok(w, blocks, from, m) && (tag, id) !in m.slots && Visitable(w, from, tag, id)
    ensures Ok(w, blocks, from, SlotVisited(w, m, tag, id)) && Step(w, m, SlotVisited(w, m, tag, id), {})
  {
    hide WellTyped, Housed, Waiting, Reachable, Next, Sound, Tracked, Anchored, Visited, Cells, NodeOf, SlotReached,
         EntryOf;
    var c := Cells(w.heap, tag)[id];
    var q := if tag == REGEXES then m else Queued(w, m, PayloadItem(tag, c));
    if tag != REGEXES {
      NodeFits(w, PacketOf(tag, c));
      QueueOk(w, blocks, from, m, PayloadItem(tag, c));
    }
    TablesKept(w, blocks, from, q);
    VisitedStorage(w, blocks, from, q, m.values, m.objects, m.slots + {(tag, id)});
    FewerSlots(w, m, SlotVisited(w, m, tag, id), tag, id);
  }

  lemma FewerSlots(w: World, m: Marks, t: Marks, tag: nat, id: int)
    requires HasCell(w.heap, tag, id) && (tag, id) !in m.slots
    requires t.values == m.values && t.objects == m.objects && t.slots == m.slots + {(tag, id)}
    ensures Budget(w, t) < Budget(w, m)
  {
    assert (tag, id) in SlotKeys(w);
    Shrinks(SlotKeys(w), m.slots, t.slots, (tag, id));
  }

  /** Payload of an object, as its header describes it. */
  function PayloadOf(w: World, table: Table, id: Addr, ty: int): Item {
    var stored := At(w.heap, id);
    match table
    case Environments => Item.Payload(Environments, id, 2 + 2 * Max0(stored), ty)
    case Arrays =>
      Item.Payload(Arrays, At(w.heap, id + 1), Max0(At(w.heap, id + 2)) * EntryOf(w.img, stored).size, stored)
    case _ => Item.Payload(table, id + 2, Max0(At(w.heap, id + 1)), stored)
  }

  lemma PayloadNode(w: World, table: Table, id: Addr, ty: int)
    requires WellTyped(w) && Object(table, id) in w.ty.nodes
    ensures var i := PayloadOf(w, table, id, ty);
      && NodeOf(w, i) in w.ty.nodes && !NodeOf(w, i).Raw? && !NodeOf(w, i).Slot?
      && i.size == Size(w.heap, NodeOf(w, i)) && i.at == NodeOf(w, i).at
      && (table == Environments ==> NodeOf(w, i) == Object(Environments, id))
      && (table != Environments ==> Next(w, Object(table, id)) == {NodeOf(w, i)})
  {
    hide WellTyped, EntryOf, At, InnerOf;
    var n := Object(table, id);
    NodeFits(w, n);
    NextTyped(w, n);
    var i := PayloadOf(w, table, id, ty);
    if table == Arrays {
      var length, width := Max0(At(w.heap, id + 2)), EntryOf(w.img, At(w.heap, id)).size;
      if width > 0 {
        QuotientOfProduct(length, width);
      }
      assert NodeOf(w, i) == Backing(w.img, w.heap, id);
    } else if table != Environments {
      assert Parts(w.img, w.heap, n) == [NodeOf(w, i)];
      OnlyPart(w, n, NodeOf(w, i));
    }
    assert table != Environments ==> NodeOf(w, i) in Next(w, n);
  }

  lemma OnlyPart(w: World, n: Node, p: Node)
    requires Parts(w.img, w.heap, n) == [p]
    ensures PartSet(w, n) == {p}
  {
    hide Parts;
    assert Parts(w.img, w.heap, n)[0] == p;
  }

  function ObjectVisited(w: World, m: Marks, table: Table, id: Addr, ty: int): Marks {
    var i := PayloadOf(w, table, id, ty);
    m.(seen := m.seen + {Object(table, id), NodeOf(w, i)},
       storage := m.storage + {id} + (if i.size != 0 then {i.at} else {}),
       objects := m.objects + {(table, id)},
       pending := m.pending + [i])
  }

  lemma ObjectVisitedOk(w: World, blocks: set<set<Addr>>, from: Start, m: Marks, table: Table, id: Addr, ty: int)
    requires Ok(w, blocks, from, m) && (table, id) !in m.objects
    requires Object(table, id) in w.ty.nodes && Reachable(w, from.nodes, Object(table, id))
    ensures Ok(w, blocks, from, ObjectVisited(w, m, table, id, ty))
    ensures Step(w, m, ObjectVisited(w, m, table, id, ty), {})
  {
    hide WellTyped, Housed, Waiting, Reachable, Next, Sound, Tracked, Anchored, Visited, PayloadOf, NodeOf;
    var t := ObjectVisited(w, m, table, id, ty);
    var i := PayloadOf(w, table, id, ty);
    var n, p := Object(table, id), NodeOf(w, i);
    PayloadNode(w, table, id, ty);
    ObjectSize(w, table, id);
    if table != Environments { ReachStep(w, from.nodes, n, p); }
    ObjectSound(w, from, m, t, n, p);
    WaitingPush(w, m.pending, i);
    ObjectTracked(w, m, t, n, p);
    GrowPinned(blocks, m.storage, t.storage);
    ObjectAnchored(w, blocks, m, t, n, p);
    ObjectListed(w, m, t, n, p);
    assert (table, id) in ObjectKeys(w) by { assert n in w.ty.nodes && n.Object?; }
    Shrinks(ObjectKeys(w), m.objects, m.objects + {(table, id)}, (table, id));
  }

  lemma ObjectSize(w: World, table: Table, id: Addr)
    requires WellTyped(w) && Object(table, id) in w.ty.nodes
    ensures Size(w.heap, Object(table, id)) > 0
  {
    hide WellTyped, Parts, EntryOf;
    NodeFits(w, Object(table, id));
  }

  lemma ObjectSound(w: World, from: Start, m: Marks, t: Marks, n: Node, p: Node)
    requires Sound(w, from, m) && t.seen == m.seen + {n, p}
    requires t.storage == m.storage + {n.at} + (if Size(w.heap, p) != 0 then {p.at} else {}) && t.slots == m.slots
    requires Reachable(w, from.nodes, n) && Reachable(w, from.nodes, p) && Size(w.heap, n) > 0
    ensures Sound(w, from, t)
  {
    hide Reachable, Size, SlotReached;
    assert n.at in Touches(w, n);
    assert Size(w.heap, p) != 0 ==> p.at in Touches(w, p);
  }

  lemma ObjectTracked(w: World, m: Marks, t: Marks, n: Node, p: Node)
    requires Tracked(w, m) && t.seen == m.seen + {n, p} && t.open == m.open && n in w.ty.nodes && p in w.ty.nodes
    requires Waiting(w, t.pending) == Waiting(w, m.pending) + {p}
    requires n == p || Next(w, n) == {p}
    ensures Tracked(w, t)
  {
    hide Waiting, Next;
  }

  lemma ObjectAnchored(w: World, blocks: set<set<Addr>>, m: Marks, t: Marks, n: Node, p: Node)
    requires Anchored(w, blocks, m) && t.seen == m.seen + {n, p} && t.open == m.open && n.Object? && !p.Raw?
    requires forall a :: Pinned(m.storage, blocks, a) ==> Pinned(t.storage, blocks, a)
    requires forall a :: a in t.storage ==> Pinned(t.storage, blocks, a)
    requires t.storage == m.storage + {n.at} + (if Size(w.heap, p) != 0 then {p.at} else {})
    ensures Anchored(w, blocks, t)
  {
    hide Pinned, Size;
  }

  lemma ObjectListed(w: World, m: Marks, t: Marks, n: Node, p: Node)
    requires Visited(w, m) && t.seen == m.seen + {n, p} && t.open == m.open && n.Object? && !p.Slot?
    requires t.slots == m.slots && t.values == m.values && t.objects == m.objects + {(n.table, n.at)}
    requires Waiting(w, t.pending) == Waiting(w, m.pending) + {p}
    ensures Visited(w, t)
  {
    hide Waiting, Cells, At, EntryOf;
  }

  /** Storage that belongs to a slot alone is seen, and holds nothing further. */
  function BlobSeen(m: Marks, words: nat, p: Addr): Marks {
    m.(seen := m.seen + {Blob(words, p)}, storage := m.storage + {p})
  }

  lemma BlobSeenOk(w: World, blocks: set<set<Addr>>, from: Start, m: Marks, words: nat, p: Addr)
    requires Ok(w, blocks, from, m) && words > 0
    requires Blob(words, p) in w.ty.nodes && Reachable(w, from.nodes, Blob(words, p))
    ensures Ok(w, blocks, from, BlobSeen(m, words, p)) && Step(w, m, BlobSeen(m, words, p), {})
  {
    hide WellTyped, Housed, Waiting, Reachable, Budget, Blob, Next, EntryOf, Cells, At;
    var t := BlobSeen(m, words, p);
    BlobShape(w, words, p);
    GrowPinned(blocks, m.storage, t.storage);
    assert p in Touches(w, Blob(words, p));
  }

  lemma BlobShape(w: World, words: nat, p: Addr)
    ensures var n := Blob(words, p);
      n.at == p && Size(w.heap, n) == words && Next(w, n) == {} && n.Data?
  {
  }

  // ----- finishing nodes ------------------------------------------------------

  function Closed(m: Marks, n: Node): Marks {
    m.(open := m.open - {n})
  }

  lemma CloseOk(w: World, blocks: set<set<Addr>>, from: Start, m: Marks, n: Node)
    requires Ok(w, blocks, from, m) && n in m.seen && !n.Raw? && Next(w, n) <= m.seen
    requires n.Slot? ==> SlotKey(w, n) in m.slots
    ensures Ok(w, blocks, from, Closed(m, n)) && Step(w, m, Closed(m, n), {n})
  {
    hide WellTyped, Housed, Waiting, Reachable, Next, Justified, Pinned, Size, EntryOf;
  }

  /** A byte view is finished once its storage is pinned. */
  function ViewPinned(w: World, m: Marks, n: Node): Marks {
    var raw := At(w.heap, n.at);
    m.(open := m.open - {n}, storage := m.storage + if raw != 0 then {raw} else {})
  }

  lemma ViewPinnedOk(w: World, blocks: set<set<Addr>>, from: Start, m: Marks, n: Node)
    requires Ok(w, blocks, from, m) && n in m.seen && n.Raw?
    ensures Ok(w, blocks, from, ViewPinned(w, m, n)) && Step(w, m, ViewPinned(w, m, n), {n})
  {
    hide WellTyped, Waiting, Reachable, Tracked, Visited, Size, EntryOf, At, Budget;
    var t := ViewPinned(w, m, n);
    GrowPinned(blocks, m.storage, t.storage);
    ViewSound(w, from, m, n);
    ViewTracked(w, m, n);
  }

  lemma ViewSound(w: World, from: Start, m: Marks, n: Node)
    requires Sound(w, from, m) && n in m.seen && n.Raw?
    ensures Sound(w, from, ViewPinned(w, m, n))
  {
    hide Reachable, Size, At, SlotReached;
    assert At(w.heap, n.at) in Touches(w, n);
  }

  lemma ViewTracked(w: World, m: Marks, n: Node)
    requires Tracked(w, m) && Visited(w, m) && n in m.seen && n.Raw?
    ensures Tracked(w, ViewPinned(w, m, n)) && Visited(w, ViewPinned(w, m, n))
  {
    hide Waiting, At, EntryOf;
    assert Next(w, n) == {};
  }

  /** Scanning a node and finishing its successors finishes the node. */
  lemma LeafStep(w: World, s: Marks, n: Node, t: Marks)
    requires Step(w, Entered(w, s, n), t, Next(w, n))
    ensures Step(w, s, t, {n})
  {
    hide Budget, Next;
    SameBudget(w, s, Entered(w, s, n));
  }

  /** Taking the top of the pending stack: it is being scanned now. */
  function Popped(w: World, m: Marks): Marks
    requires m.pending != []
  {
    var n := |m.pending| - 1;
    m.(pending := m.pending[..n], open := m.open + {NodeOf(w, m.pending[n])})
  }

  lemma PopOk(w: World, blocks: set<set<Addr>>, from: Start, m: Marks)
    requires Ok(w, blocks, from, m) && m.pending != []
    requires !NodeOf(w, m.pending[|m.pending| - 1]).Raw?
    ensures Ok(w, blocks, from, Popped(w, m)) && NodeOf(w, m.pending[|m.pending| - 1]) in m.seen
  {
    hide WellTyped, Housed, Waiting, Reachable, Next, Justified, Pinned, Size, EntryOf, NodeOf;
    var n := |m.pending| - 1;
    assert m.pending == m.pending[..n] + [m.pending[n]];
    WaitingPush(w, m.pending[..n], m.pending[n]);
  }

  // ----- roots ----------------------------------------------------------------

  datatype Root =
    | RootValue(ref: Addr, ty: int)
    | RootStorage(ref: Addr)
    | RootReferences(ref: Addr, count: nat, ty: int)
    | RootObject(ref: Addr, table: Table, size: nat, ty: int)
    | RootResource(ref: Addr, tag: nat, words: nat)

  function RootNodes(w: World, r: Root): set<Node> {
    match r
    case RootValue(p, ty) => if p < NULL_ORIGIN then {} else {Value(EntryOf(w.img, ty), p)}
    case RootStorage(_) => {}
    case RootReferences(p, count, ty) =>
      set q | q in WordsAt(w.heap, p, count) && q >= NULL_ORIGIN :: Value(EntryOf(w.img, ty), q)
    case RootObject(p, table, size, ty) => {NodeOf(w, Item.Payload(table, p, size, ty))}
    case RootResource(p, tag, words) => {NodeOf(w, ResourcePayload(tag, p, words))}
  }

  /** A ready demand owns a value, a failed one a diagnostic. */
  function DemandNodes(w: World, d: Demand): set<Node> {
    match d
    case Unready => {}
    case Ready(ref, ty) => RootNodes(w, RootValue(ref, ty))
    case Failed(report) => if report.payload == 0 then {} else {PacketOf(DIAGNOSTICS, report)}
  }

  function DemandSpans(d: Demand): set<Addr> {
    if d.Failed? then NotNull(d.report.payload) else {}
  }

  function NotNull(a: Addr): set<Addr> {
    if a == 0 then {} else {a}
  }

  function TableIds(w: World, tag: nat): set<(nat, int)> {
    set id | 0 <= id < |Cells(w.heap, tag)| :: (tag, id)
  }

  function TableNodes(w: World, tag: nat): set<Node> {
    set id | 0 <= id < |Cells(w.heap, tag)| :: PacketOf(tag, Cells(w.heap, tag)[id])
  }

  /** The roots of a collection: published roots, demands, and what the resource
      tables hold by themselves, their buffers and their feedback. */
  datatype Roots = Roots(published: seq<Root>, demands: seq<Demand>, buffers: seq<Addr>)

  function StartNodes(w: World, r: Roots): set<Node> {
    (set p, n | p in r.published && n in RootNodes(w, p) :: n)
    + (set d, n | d in r.demands && n in DemandNodes(w, d) :: n)
    + TableNodes(w, DIAGNOSTICS) + TableNodes(w, DEBUG_EVENTS)
  }

  function StartSpans(r: Roots): set<Addr> {
    (set p | p in r.published && p.ref != 0 :: p.ref) + (set d, a | d in r.demands && a in DemandSpans(d) :: a)
    + (set b | b in r.buffers && b != 0)
  }

  function StartOf(w: World, r: Roots): Start {
    Start(StartNodes(w, r), StartSpans(r), TableIds(w, DIAGNOSTICS) + TableIds(w, DEBUG_EVENTS))
  }

  /** What has been dealt with so far. */
  ghost predicate RootHeld(w: World, p: Root, nodes: set<Node>, spans: set<Addr>) {
    RootNodes(w, p) <= nodes && NotNull(p.ref) <= spans
  }

  ghost predicate DemandHeld(w: World, d: Demand, nodes: set<Node>, spans: set<Addr>) {
    DemandNodes(w, d) <= nodes && DemandSpans(d) <= spans
  }

  ghost predicate TableHeld(w: World, tag: nat, nodes: set<Node>, ids: set<(nat, int)>) {
    TableNodes(w, tag) <= nodes && TableIds(w, tag) <= ids
  }

  ghost predicate AllHeld(w: World, r: Roots, nodes: set<Node>, spans: set<Addr>, ids: set<(nat, int)>) {
    && (forall p :: p in r.published ==> RootHeld(w, p, nodes, spans))
    && (forall d :: d in r.demands ==> DemandHeld(w, d, nodes, spans))
    && (forall b :: b in r.buffers ==> NotNull(b) <= spans)
    && TableHeld(w, DIAGNOSTICS, nodes, ids) && TableHeld(w, DEBUG_EVENTS, nodes, ids)
  }

  lemma StartHolds(w: World, r: Roots)
    ensures var from := StartOf(w, r); AllHeld(w, r, from.nodes, from.spans, from.ids)
  {
    hide RootNodes, DemandNodes, DemandSpans, TableNodes, TableIds;
    forall p | p in r.published
      ensures RootHeld(w, p, StartNodes(w, r), StartSpans(r))
    {
      forall n | n in RootNodes(w, p)
        ensures n in StartNodes(w, r)
      {
      }
    }
    forall d | d in r.demands
      ensures DemandHeld(w, d, StartNodes(w, r), StartSpans(r))
    {
      forall n | n in DemandNodes(w, d)
        ensures n in StartNodes(w, r)
      {
      }
      forall a | a in DemandSpans(d)
        ensures a in StartSpans(r)
      {
      }
    }
  }

  /** Once every root has been dealt with, all of the start has been. */
  lemma StartCovered(w: World, r: Roots, nodes: set<Node>, spans: set<Addr>, ids: set<(nat, int)>)
    requires AllHeld(w, r, nodes, spans, ids)
    ensures StartOf(w, r).nodes <= nodes
    ensures StartOf(w, r).spans <= spans
    ensures StartOf(w, r).ids <= ids
  {
    hide RootNodes, DemandNodes, DemandSpans, TableNodes, TableIds;
    forall n | n in StartOf(w, r).nodes
      ensures n in nodes
    {
      if p :| p in r.published && n in RootNodes(w, p) {
        assert RootHeld(w, p, nodes, spans);
      } else if d :| d in r.demands && n in DemandNodes(w, d) {
        assert DemandHeld(w, d, nodes, spans);
      }
    }
    forall a | a in StartOf(w, r).spans
      ensures a in spans
    {
      if p :| p in r.published && p.ref != 0 && a == p.ref {
        assert RootHeld(w, p, nodes, spans);
      } else if d :| d in r.demands && a in DemandSpans(d) {
        assert DemandHeld(w, d, nodes, spans);
      }
    }
  }

  /** Everything has been scanned: exactly what is reachable was seen, exactly
      the slots that are reached were recorded, and a block holds a pinned
      address exactly if it is retained. */
  ghost predicate Traced(w: World, blocks: set<set<Addr>>, from: Start, m: Marks) {
    && (forall n :: n in m.seen <==> Reachable(w, from.nodes, n))
    && (forall tag: nat, id :: (tag, id) in m.slots <==> SlotReached(w, from, tag, id))
    && (forall b :: b in blocks ==> (Hit(m.storage, b) <==> Retained(w, from, b)))
  }

  /** A block is retained for what is reachable in it, or as a storage root. */
  ghost predicate Retained(w: World, from: Start, b: set<Addr>) {
    exists a :: a in b && Justified(w, from, a)
  }

  lemma TraceDone(w: World, blocks: set<set<Addr>>, from: Start, m: Marks)
    requires Ok(w, blocks, from, m) && m.open == {} && m.pending == []
    requires from.nodes <= m.seen && from.spans <= m.storage && from.ids <= m.slots
    ensures Traced(w, blocks, from, m)
  {
    hide WellTyped, Housed, Reachable, Next, Touches, Size, At, Visited, Justified, Sound, Tracked, Anchored, Hit,
         SlotReached;
    SeenAll(w, from, m);
    SlotsAll(w, from, m);
    forall b | b in blocks
      ensures Hit(m.storage, b) <==> Retained(w, from, b)
    {
      RetainedHit(w, blocks, from, m, b);
    }
  }

  lemma SeenAll(w: World, from: Start, m: Marks)
    requires Sound(w, from, m) && Tracked(w, m) && m.open == {} && m.pending == [] && from.nodes <= m.seen
    ensures forall n :: n in m.seen <==> Reachable(w, from.nodes, n)
  {
    hide Next, Justified;
    assert Waiting(w, m.pending) == {};
    forall n | Reachable(w, from.nodes, n)
      ensures n in m.seen
    {
      var steps: nat :| ReachedIn(w, from.nodes, n, steps);
      ClosedHoldsAll(w, from.nodes, m.seen, n, steps);
    }
  }

  /** A slot was recorded if and only if it is reached. */
  lemma SlotsAll(w: World, from: Start, m: Marks)
    requires Sound(w, from, m) && Visited(w, m) && m.open == {} && from.ids <= m.slots
    requires forall n :: n in m.seen <==> Reachable(w, from.nodes, n)
    ensures forall tag: nat, id :: (tag, id) in m.slots <==> SlotReached(w, from, tag, id)
  {
    hide Reachable, Justified, Waiting, At, EntryOf, PayloadSeen;
  }

  lemma RetainedHit(w: World, blocks: set<set<Addr>>, from: Start, m: Marks, b: set<Addr>)
    requires Sound(w, from, m) && Anchored(w, blocks, m) && m.open == {} && from.spans <= m.storage && b in blocks
    requires forall n :: n in m.seen <==> Reachable(w, from.nodes, n)
    ensures Hit(m.storage, b) <==> Retained(w, from, b)
  {
    hide Reachable, Size, At;
    if a :| a in b && Justified(w, from, a) {
      if a in from.spans {
        assert a in m.storage;
      } else {
        var n :| Reachable(w, from.nodes, n) && a in Touches(w, n);
        assert n in m.seen;
        assert Pinned(m.storage, blocks, a);
      }
    }
    if Hit(m.storage, b) {
      var s :| s in m.storage && s in b;
      assert Justified(w, from, s);
    }
  }
}
