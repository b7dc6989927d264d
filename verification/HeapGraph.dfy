/** Typed heap graphs of the Wasm runtime: the closed layout image, the exact
    layout scanner (trace.rs) as a decomposition of storage into nodes, and the
    meaning of a value as its unfolding to a given depth.

    Addresses and sizes count 32-bit words, since every layout offset is a
    multiple of four bytes. */
module HeapGraph {

  type Addr = int
  type Word = int

  /** Marker word of an inline aggregate. */
  const INLINE_FIELDS: Word := 0xffff_ffff
  const ARRAY_EMPTY: Word := 0
  const ARRAY_SINGLE: Word := 1
  const ARRAY_SLICE: Word := 2
  /** Last word of a content payload that refers to raw storage: the tag byte 16. */
  const CONTENT_SLICE: Word := 0x1000_0000
  /** Words in the header of a full value. */
  const HEADER := 2

  datatype Field = Field(ty: nat, offset: nat)

  datatype Variant = Nullary | Payload(ty: nat, boxed: bool)

  datatype Layout =
    | Scalar
    | Content
    | Record(fields: seq<Field>)
    | InlineRecord(fields: seq<Field>)
    | Array(elem: nat)
    | Dict(key: nat, val: nat)
    | Enum(variants: seq<Variant>)
    | Dyn
    | Function
    | Newtype(inner: nat)
    | Resource(tag: nat)
    | CompileTime

  /** One entry of the layout image: how to scan a value and its size in words. */
  datatype Entry = Entry(layout: Layout, size: nat)

  type Image = seq<Entry>

  function EntryOf(img: Image, ty: int): Entry {
    if 0 <= ty < |img| then img[ty] else Entry(CompileTime, 0)
  }

  /** Storage of immutable byte views. Published bytes are those below `len`. */
  datatype RawString = RawString(len: nat, cap: nat, bytes: seq<int>)

  /** One slot of a resource table: where the payload is and how many words it
      has. */
  datatype Cell = Cell(payload: Addr, words: nat)

  const BLAMES: nat := 0
  const DIAGNOSTICS: nat := 1
  const FORMATS: nat := 2
  /** The table whose payloads are owned outside managed storage. */
  const REGEXES: nat := 3
  const TESTS: nat := 5
  const DEBUG_EVENTS: nat := 6
  const TABLE_COUNT: nat := 7

  /** The tables of read-only feedback: the Host knows their slots by number. */
  predicate Feedback(tag: nat) {
    tag == DIAGNOSTICS || tag == DEBUG_EVENTS
  }

  datatype Heap = Heap(words: map<Addr, Word>, raws: map<Addr, RawString>, tables: map<nat, seq<Cell>>)

  function Cells(h: Heap, tag: nat): seq<Cell> {
    if tag in h.tables then h.tables[tag] else []
  }

  predicate HasCell(h: Heap, tag: nat, id: int) {
    0 <= id < |Cells(h, tag)|
  }

  function At(h: Heap, a: Addr): Word {
    if a in h.words then h.words[a] else 0
  }

  datatype Table = Records | Arrays | Boxes | Newtypes | Environments

  /** A piece of storage together with the role under which it is scanned.
      `Ref`, `Handle`, `Raw`, `Owned` and `Slot` are single words: all but the last
      hold a reference, `Owned` one to words without references that belong to
      nobody else; `Slot` holds the number of a slot in a resource table, whose
      payload is a `Packet`. */
  datatype Node =
    | Value(e: Entry, at: Addr)
    | Data(e: Entry, at: Addr)
    | Fields(e: Entry, extent: nat, at: Addr)
    | Elems(e: Entry, count: nat, at: Addr)
    | Object(table: Table, at: Addr)
    | Ref(e: Entry, at: Addr)
    | Handle(table: Table, at: Addr)
    | Raw(at: Addr)
    | Owned(words: nat, at: Addr)
    | Slot(tag: nat, at: Addr)
    | Packet(tag: nat, words: nat, at: Addr)

  predicate IsSlot(n: Node) {
    n.Ref? || n.Handle? || n.Raw? || n.Owned? || n.Slot?
  }

  /** The payload of a resource. */
  function PacketOf(tag: nat, c: Cell): Node {
    Packet(tag, c.words, c.payload)
  }

  /** Words without references. */
  function Blob(words: nat, at: Addr): Node {
    Data(Entry(Scalar, HEADER + words), at)
  }

  function Moved(n: Node, at: Addr): Node {
    n.(at := at)
  }

  function Max0(x: int): nat {
    if x < 0 then 0 else x
  }

  function Size(h: Heap, n: Node): nat {
    match n
    case Value(e, _) => e.size
    case Data(e, _) => Max0(e.size - HEADER)
    case Fields(_, extent, _) => extent
    case Elems(e, count, _) => count * e.size
    case Object(Arrays, _) => 4
    case Object(Environments, a) => Max0(2 + 2 * At(h, a))
    case Object(_, a) => 2 + Max0(At(h, a + 1))
    case Ref(_, _) => 1
    case Handle(_, _) => 1
    case Raw(_) => 1
    case Owned(_, _) => 1
    case Slot(_, _) => 1
    case Packet(_, words, _) => words
  }

  /** A demand slot: a ready one owns a value, a failed one a diagnostic. */
  datatype Demand = Unready | Ready(ref: Addr, ty: int) | Failed(report: Cell)

  // ----- the layout scanner -------------------------------------------------

  /** Parts of a value's data, in address order. */
  function DataParts(img: Image, h: Heap, e: Entry, a: Addr): seq<Node> {
    match e.layout
    case Scalar => []
    case CompileTime => []
    case Content => if At(h, a + 3) == CONTENT_SLICE then [Raw(a)] else []
    case Record(_) => [Handle(Records, a)]
    case InlineRecord(fields) =>
      seq(|fields|, i requires 0 <= i < |fields| => Value(EntryOf(img, fields[i].ty), a + 2 + fields[i].offset))
    case Array(elem) =>
      if At(h, a + 3) == ARRAY_SINGLE then [Ref(EntryOf(img, elem), a)]
      else if At(h, a + 3) == ARRAY_SLICE then [Handle(Arrays, a)]
      else []
    case Dict(_, _) => [Handle(Arrays, a), Handle(Arrays, a + 2)]
    case Enum(variants) =>
      var tag := At(h, a);
      if !(0 <= tag < |variants|) || variants[tag].Nullary? then []
      else if variants[tag].boxed then [Handle(Boxes, a + 2)]
      else [Value(EntryOf(img, variants[tag].ty), a + 2)]
    case Dyn =>
      var payload := EntryOf(img, At(h, a));
      if At(h, a + 1) == 1 then [Handle(Boxes, a + 2)]
      else if payload.size == HEADER then []
      else [Data(payload, a + 2)]
    case Function => if At(h, a + 1) == 0 then [] else [Handle(Environments, a + 1)]
    case Newtype(_) => [Handle(Newtypes, a)]
    case Resource(tag) => [Slot(tag, a)]
  }

  function InnerOf(img: Image, e: Entry): Entry {
    if e.layout.Newtype? then EntryOf(img, e.layout.inner)
    else if e.layout.InlineRecord? && |e.layout.fields| == 1 then EntryOf(img, e.layout.fields[0].ty)
    else Entry(CompileTime, 0)
  }

  function FieldsOf(e: Entry): seq<Field> {
    if e.layout.Record? then e.layout.fields
    else if e.layout.InlineRecord? then e.layout.fields
    else []
  }

  /** Where the payload of a resource keeps references to full values, and where
      their closed types: words counted from its start. */
  datatype Row = Row(refs: nat, types: nat, count: nat)

  /** How many operands a format node has. */
  function FormatRefs(op: Word): nat {
    if op == 0 then 0 else if 1 <= op <= 3 then 1 else 2
  }

  function RowOf(h: Heap, tag: nat, a: Addr): Row {
    if tag == FORMATS then Row(1, 3, FormatRefs(At(h, a)))
    else if tag == TESTS then var count := Max0(At(h, a + 1)); Row(2, 2 + count, count)
    else if tag == DEBUG_EVENTS then Row(1, 2, 1)
    else Row(0, 0, 0)
  }

  function RowParts(img: Image, h: Heap, row: Row, a: Addr): (ps: seq<Node>)
    ensures |ps| == row.count
    ensures forall i :: 0 <= i < row.count ==> ps[i] == Ref(EntryOf(img, At(h, a + row.types + i)), a + row.refs + i)
  {
    seq(row.count, i => Ref(EntryOf(img, At(h, a + row.types + i)), a + row.refs + i))
  }

  /** Parts of the payload of a resource. A blame holds a byte view; a diagnostic
      its message, under the type in its last word, and its subjects, two words
      each; all others a row of typed references, or nothing. */
  function PacketParts(img: Image, h: Heap, tag: nat, a: Addr): seq<Node> {
    if tag == BLAMES then if At(h, a + 5) == CONTENT_SLICE then [Raw(a + 2)] else []
    else if tag == DIAGNOSTICS then
      [Ref(EntryOf(img, At(h, a + 9)), a + 4), Owned(2 * Max0(At(h, a + 6)), a + 5)]
    else RowParts(img, h, RowOf(h, tag, a), a)
  }

  /** What the scanner demands of the payload of a resource. */
  predicate ValidPacket(h: Heap, tag: nat, words: nat, a: Addr) {
    && words > 0
    && (tag == BLAMES ==> words >= 6)
    && (tag == DIAGNOSTICS ==> words == 10)
    && (tag == FORMATS ==> words == 5 && (0 <= At(h, a) <= 4 || 6 <= At(h, a) <= 11))
    && (tag == TESTS ==> At(h, a + 1) >= 0 && words == 2 + 2 * At(h, a + 1))
    && (tag == DEBUG_EVENTS ==> words >= 3)
  }

  /** Parts that lie inside the storage of a node. The backing elements of an
      array are not inside its header: see `Backing`. */
  function Parts(img: Image, h: Heap, n: Node): seq<Node> {
    match n
    case Value(e, a) => if e.size == HEADER then [] else [Data(e, a + HEADER)]
    case Data(e, a) => DataParts(img, h, e, a)
    case Fields(e, _, a) =>
      var fs := FieldsOf(e);
      seq(|fs|, i requires 0 <= i < |fs| => Value(EntryOf(img, fs[i].ty), a + fs[i].offset))
    case Elems(e, count, a) => seq(count, i => Value(e, a + i * e.size))
    case Object(Records, a) => [Fields(EntryOf(img, At(h, a)), Max0(At(h, a + 1)), a + 2)]
    case Object(Boxes, a) => [Value(EntryOf(img, At(h, a)), a + 2)]
    case Object(Newtypes, a) => [Value(InnerOf(img, EntryOf(img, At(h, a))), a + 2)]
    case Object(Environments, a) =>
      var count := Max0(At(h, a));
      seq(count, i => Ref(EntryOf(img, At(h, a + 2 + count + i)), a + 2 + i))
    case Object(Arrays, _) => []
    case Ref(_, _) => []
    case Handle(_, _) => []
    case Raw(_) => []
    case Owned(_, _) => []
    case Slot(_, _) => []
    case Packet(tag, _, a) => PacketParts(img, h, tag, a)
  }

  /** Elements of an array object: they live where word 1 of the header points. */
  function Backing(img: Image, h: Heap, a: Addr): Node {
    Elems(EntryOf(img, At(h, a)), Max0(At(h, a + 2)), At(h, a + 1))
  }

  /** What the reference held by a slot designates; null and static references
      designate immutable storage that no collector touches. */
  function Target(h: Heap, origin: Addr, n: Node): (t: set<Node>)
    requires n.Ref? || n.Handle?
  {
    var p := At(h, n.at);
    if p < origin then {}
    else if n.Ref? then {Value(n.e, p)}
    else {Object(n.table, p)}
  }

  /** The payload behind a resource slot, unless it is owned outside the heap. */
  function Payloads(h: Heap, n: Node): (t: set<Node>)
    requires n.Slot?
  {
    var id := At(h, n.at);
    if n.tag == REGEXES || !HasCell(h, n.tag, id) then {} else {PacketOf(n.tag, Cells(h, n.tag)[id])}
  }

  /** Storage that nothing but the slot refers to. */
  function Belongings(h: Heap, n: Node): (t: set<Node>)
    requires n.Owned?
  {
    if n.words == 0 then {} else {Blob(n.words, At(h, n.at))}
  }

  /** The live variant carries a payload embedded in the value. */
  predicate InlinePayload(h: Heap, e: Entry, at: Addr)
    requires e.layout.Enum?
  {
    var tag := At(h, at);
    0 <= tag < |e.layout.variants| && e.layout.variants[tag].Payload? && !e.layout.variants[tag].boxed
  }

  lemma InlineParts(img: Image, h: Heap, e: Entry, at: Addr)
    requires e.layout.InlineRecord?
    ensures var ps, fields := Parts(img, h, Data(e, at)), e.layout.fields;
      && |ps| == |fields|
      && forall i :: 0 <= i < |ps| ==> ps[i] == Value(EntryOf(img, fields[i].ty), at + 2 + fields[i].offset)
  {
    hide EntryOf, At;
  }

  lemma FieldParts(img: Image, h: Heap, e: Entry, extent: nat, at: Addr)
    ensures var ps, fields := Parts(img, h, Fields(e, extent, at)), FieldsOf(e);
      && |ps| == |fields|
      && forall i :: 0 <= i < |ps| ==> ps[i] == Value(EntryOf(img, fields[i].ty), at + fields[i].offset)
  {
    hide EntryOf, FieldsOf;
  }

  lemma ElementParts(img: Image, h: Heap, e: Entry, count: nat, at: Addr)
    ensures var ps := Parts(img, h, Elems(e, count, at));
      |ps| == count && forall i :: 0 <= i < |ps| ==> ps[i] == Value(e, at + i * e.size)
  {
  }

  lemma CaptureParts(img: Image, h: Heap, at: Addr)
    ensures var ps, count := Parts(img, h, Object(Environments, at)), Max0(At(h, at));
      && |ps| == count
      && forall i :: 0 <= i < |ps| ==> ps[i] == Ref(EntryOf(img, At(h, at + 2 + count + i)), at + 2 + i)
  {
    hide EntryOf, At;
  }

  // ----- well-typed heaps ---------------------------------------------------

  /** Parts are in bounds and follow one another without overlap. */
  ghost predicate Packed(h: Heap, parts: seq<Node>, lo: Addr, hi: Addr) {
    && (forall i :: 0 <= i < |parts| ==> lo <= parts[i].at && parts[i].at + Size(h, parts[i]) <= hi)
    && (forall i, j :: 0 <= i < j < |parts| ==> parts[i].at + Size(h, parts[i]) <= parts[j].at)
  }

  /** A value without data is a unit. */
  predicate NoData(e: Entry) {
    e.size == HEADER ==> e.layout.Scalar?
  }

  /** What the scanner demands of the discriminating words of a value. */
  predicate ValidData(img: Image, h: Heap, e: Entry, a: Addr) {
    match e.layout
    case Scalar => true
    case CompileTime => false
    case Content => e.size == HEADER + 4
    case Record(_) => e.size >= HEADER + 1
    case InlineRecord(_) => e.size >= HEADER + 2 && At(h, a) == INLINE_FIELDS
    case Array(_) =>
      && e.size == HEADER + 4
      && var kind := At(h, a + 3);
      || (kind == ARRAY_EMPTY && At(h, a) == 0 && At(h, a + 1) == 0 && At(h, a + 2) == 0)
      || (kind == ARRAY_SINGLE && At(h, a) != 0 && At(h, a + 1) == 0 && At(h, a + 2) == 1)
      || kind == ARRAY_SLICE
    case Dict(_, _) => e.size == HEADER + 4
    case Enum(variants) => e.size >= HEADER + 2 && 0 <= At(h, a) < |variants|
    case Dyn =>
      && e.size == HEADER + 6
      && (At(h, a + 1) == 1 || (At(h, a + 1) == 0 && NoData(EntryOf(img, At(h, a)))))
    case Function => e.size == HEADER + 2
    case Newtype(_) => e.size >= HEADER + 1
    case Resource(_) => e.size >= HEADER + 1
  }

  predicate ValidNode(img: Image, h: Heap, n: Node) {
    match n
    case Value(e, _) => e.size >= HEADER && NoData(e)
    case Data(e, a) => e.size >= HEADER && ValidData(img, h, e, a)
    case Fields(_, extent, _) => extent > 0
    case Elems(_, _, _) => true
    case Object(Arrays, a) =>
      0 <= At(h, a + 2) <= At(h, a + 3) && (EntryOf(img, At(h, a)).size == 0 ==> At(h, a + 2) == 0)
    case Object(Environments, a) => At(h, a) >= 0
    // A record without fields is plain, so it never gets an object of its own.
    case Object(Records, a) => At(h, a + 1) > 0
    case Object(Boxes, a) => At(h, a + 1) == EntryOf(img, At(h, a)).size
    case Object(Newtypes, a) => At(h, a + 1) == InnerOf(img, EntryOf(img, At(h, a))).size
    case Raw(a) =>
      var p := At(h, a);
      && p in h.raws
      && h.raws[p].len <= h.raws[p].cap == |h.raws[p].bytes|
      && 0 <= At(h, a + 1) <= At(h, a + 2) <= h.raws[p].len
    case Ref(_, _) => true
    case Handle(_, _) => true
    case Owned(_, _) => true
    // A number that is stored names a resource that is still held.
    case Slot(tag, a) => HasCell(h, tag, At(h, a)) && Cells(h, tag)[At(h, a)].payload != 0
    case Packet(tag, words, a) => ValidPacket(h, tag, words, a)
  }

  /** A heap typing: the roles under which storage is scanned, and those values
      that are referenced on their own rather than only embedded in an owner. */
  datatype Typing = Typing(nodes: set<Node>, heads: set<Node>)

  ghost predicate NodesFit(img: Image, h: Heap, nodes: set<Node>) {
    forall n :: n in nodes ==> ValidNode(img, h, n) && Packed(h, Parts(img, h, n), n.at, n.at + Size(h, n))
  }

  ghost predicate PartsTyped(img: Image, h: Heap, nodes: set<Node>) {
    && (forall n, i :: n in nodes && 0 <= i < |Parts(img, h, n)| ==> Parts(img, h, n)[i] in nodes)
    && (forall a :: Object(Arrays, a) in nodes ==> Backing(img, h, a) in nodes)
  }

  /** Closed under references; a value that is referenced on its own is always
      referenced with one layout. */
  ghost predicate TargetsTyped(h: Heap, origin: Addr, ty: Typing) {
    && (forall n, t :: n in ty.nodes && n.Handle? && t in Target(h, origin, n) ==> t in ty.nodes)
    && (forall n, t :: n in ty.nodes && n.Ref? && t in Target(h, origin, n) ==> t in ty.heads)
    && (forall n, t :: n in ty.nodes && n.Slot? && t in Payloads(h, n) ==> t in ty.nodes)
    && (forall n, t :: n in ty.nodes && n.Owned? && t in Belongings(h, n) ==> t in ty.nodes)
    && ty.heads <= ty.nodes
    && (forall n :: n in ty.heads ==> n.Value?)
    && (forall n, m :: n in ty.heads && m in ty.heads && n.at == m.at ==> n == m)
  }

  /** Every node fits its storage and the typing is closed under parts and
      references. */
  ghost predicate Typed(img: Image, h: Heap, origin: Addr, ty: Typing) {
    origin > 0 && NodesFit(img, h, ty.nodes) && PartsTyped(img, h, ty.nodes) && TargetsTyped(h, origin, ty)
  }

  // ----- meaning ------------------------------------------------------------

  /** A finite unfolding of a value. `Cut` is the depth limit. */
  datatype Tree =
    | Cut
    | Static(ref: Addr)
    | Located(range: seq<Word>, data: Tree)
    | Bits(words: seq<Word>)
    | Text(bytes: seq<int>)
    | Struct(members: seq<Tree>)
    | Boxed(ty: Word, content: Tree)
    | View(start: Word, end: Word, kind: Word, backing: Tree)
    | Elements(items: seq<Tree>)
    | Mapping(length: Word, keys: Tree, values: Tree)
    | Choice(tag: Word, payload: Tree)
    | Dynamic(ty: Word, boxed: Word, payload: Tree)
    | Closure(code: Word, env: Tree)
    | Captures(types: seq<Word>, captured: seq<Tree>)
    | External(resource: Addr)
    | Held(own: seq<Word>, members: seq<Tree>)
    | Unit

  function WordsAt(h: Heap, a: Addr, n: nat): (ws: seq<Word>)
    ensures |ws| == n && forall i :: 0 <= i < n ==> ws[i] == At(h, a + i)
  {
    seq(n, i => At(h, a + i))
  }

  function DeepContent(h: Heap, a: Addr): Tree {
    if At(h, a + 3) != CONTENT_SLICE then Bits(WordsAt(h, a, 4))
    else
      var p, start, end := At(h, a), At(h, a + 1), At(h, a + 2);
      if p in h.raws && 0 <= start <= end <= |h.raws[p].bytes| then Text(h.raws[p].bytes[start..end]) else Unit
  }

  function DeepFields(img: Image, h: Heap, origin: Addr, fields: seq<Field>, a: Addr, fuel: nat): (ts: seq<Tree>)
    ensures |ts| == |fields|
    ensures forall i :: 0 <= i < |fields| ==>
      ts[i] == Deep(img, h, origin, Value(EntryOf(img, fields[i].ty), a + fields[i].offset), fuel)
    decreases fuel, 3
  {
    seq(|fields|, i requires 0 <= i < |fields| =>
      Deep(img, h, origin, Value(EntryOf(img, fields[i].ty), a + fields[i].offset), fuel))
  }

  function DeepArray(img: Image, h: Heap, origin: Addr, elem: nat, a: Addr, fuel: nat): Tree
    decreases fuel, 3
  {
    var kind := At(h, a + 3);
    View(At(h, a + 1), At(h, a + 2), kind,
      if kind == ARRAY_SINGLE then Deep(img, h, origin, Ref(EntryOf(img, elem), a), fuel)
      else if kind == ARRAY_SLICE then Deep(img, h, origin, Handle(Arrays, a), fuel)
      else Unit)
  }

  function DeepEnum(img: Image, h: Heap, origin: Addr, variants: seq<Variant>, a: Addr, fuel: nat): Tree
    decreases fuel, 3
  {
    var tag := At(h, a);
    Choice(tag,
      if !(0 <= tag < |variants|) || variants[tag].Nullary? then Unit
      else if variants[tag].boxed then Deep(img, h, origin, Handle(Boxes, a + 2), fuel)
      else Deep(img, h, origin, Value(EntryOf(img, variants[tag].ty), a + 2), fuel))
  }

  function DeepDyn(img: Image, h: Heap, origin: Addr, a: Addr, fuel: nat): Tree
    decreases fuel, 3
  {
    Dynamic(At(h, a), At(h, a + 1),
      if At(h, a + 1) == 1 then Deep(img, h, origin, Handle(Boxes, a + 2), fuel)
      else Deep(img, h, origin, Data(EntryOf(img, At(h, a)), a + 2), fuel))
  }

  function DeepFunction(img: Image, h: Heap, origin: Addr, a: Addr, fuel: nat): Tree
    decreases fuel, 3
  {
    Closure(At(h, a),
      if At(h, a + 1) == 0 then Unit else Deep(img, h, origin, Handle(Environments, a + 1), fuel))
  }

  /** Unfolds a value's data by its layout. */
  function DeepData(img: Image, h: Heap, origin: Addr, e: Entry, a: Addr, fuel: nat): Tree
    decreases fuel, 0
  {
    if fuel == 0 then Cut else
    match e.layout
    case Scalar => Bits(WordsAt(h, a, Max0(e.size - HEADER)))
    case CompileTime => Unit
    case Content => DeepContent(h, a)
    case Record(_) => Deep(img, h, origin, Handle(Records, a), fuel - 1)
    case InlineRecord(fields) => Struct(DeepFields(img, h, origin, fields, a + 2, fuel - 1))
    case Array(elem) => DeepArray(img, h, origin, elem, a, fuel - 1)
    case Dict(_, _) =>
      Mapping(At(h, a + 1),
              Deep(img, h, origin, Handle(Arrays, a), fuel - 1),
              Deep(img, h, origin, Handle(Arrays, a + 2), fuel - 1))
    case Enum(variants) => DeepEnum(img, h, origin, variants, a, fuel - 1)
    case Dyn => DeepDyn(img, h, origin, a, fuel - 1)
    case Function => DeepFunction(img, h, origin, a, fuel - 1)
    case Newtype(_) => Deep(img, h, origin, Handle(Newtypes, a), fuel - 1)
    case Resource(tag) => Deep(img, h, origin, Slot(tag, a), fuel - 1)
  }

  function DeepElements(img: Image, h: Heap, origin: Addr, e: Entry, a: Addr, n: nat, fuel: nat): (ts: seq<Tree>)
    ensures |ts| == n
    ensures forall i :: 0 <= i < n ==> ts[i] == Deep(img, h, origin, Value(e, a + i * e.size), fuel)
    decreases fuel, 3
  {
    seq(n, i => Deep(img, h, origin, Value(e, a + i * e.size), fuel))
  }

  function DeepCaptures(img: Image, h: Heap, origin: Addr, a: Addr, n: nat, fuel: nat): (ts: seq<Tree>)
    ensures |ts| == n
    ensures forall i :: 0 <= i < n ==>
      ts[i] == Deep(img, h, origin, Ref(EntryOf(img, At(h, a + 2 + n + i)), a + 2 + i), fuel)
    decreases fuel, 3
  {
    seq(n, i => Deep(img, h, origin, Ref(EntryOf(img, At(h, a + 2 + n + i)), a + 2 + i), fuel))
  }

  /** The words of a payload that are not slots. */
  function OwnWords(img: Image, h: Heap, tag: nat, words: nat, a: Addr): (ws: seq<Word>)
    ensures |ws| == words
    ensures forall k :: 0 <= k < words ==>
      ws[k] == if StartsAt(PacketParts(img, h, tag, a), a + k) then 0 else At(h, a + k)
  {
    seq(words, k => if StartsAt(PacketParts(img, h, tag, a), a + k) then 0 else At(h, a + k))
  }

  predicate StartsAt(parts: seq<Node>, a: Addr) {
    exists i :: 0 <= i < |parts| && parts[i].at == a
  }

  /** What a payload holds: the bytes of a blame's view, or what its slots refer to. */
  function DeepMembers(img: Image, h: Heap, origin: Addr, tag: nat, a: Addr, fuel: nat): (ts: seq<Tree>)
    ensures tag != BLAMES ==>
      var ps := PacketParts(img, h, tag, a);
      |ts| == |ps| && forall i :: 0 <= i < |ps| ==> ts[i] == Deep(img, h, origin, ps[i], fuel)
    decreases fuel, 3
  {
    var ps := PacketParts(img, h, tag, a);
    if tag == BLAMES then [DeepContent(h, a + 2)]
    else seq(|ps|, i requires 0 <= i < |ps| => Deep(img, h, origin, ps[i], fuel))
  }

  /** Unfolds a resource slot: what it holds, not its number. */
  function DeepSlot(img: Image, h: Heap, origin: Addr, tag: nat, a: Addr, fuel: nat): Tree
    decreases fuel, 3
  {
    if !HasCell(h, tag, At(h, a)) then Unit
    else
      var c := Cells(h, tag)[At(h, a)];
      if tag == REGEXES then External(c.payload) else Deep(img, h, origin, PacketOf(tag, c), fuel)
  }

  /** Unfolds an object through its own header. */
  function DeepObject(img: Image, h: Heap, origin: Addr, t: Table, a: Addr, fuel: nat): Tree
    decreases fuel, 0
  {
    if fuel == 0 then Cut else
    match t
    case Records => Boxed(At(h, a),
      Struct(DeepFields(img, h, origin, FieldsOf(EntryOf(img, At(h, a))), a + 2, fuel - 1)))
    case Boxes => Boxed(At(h, a), Deep(img, h, origin, Value(EntryOf(img, At(h, a)), a + 2), fuel - 1))
    case Newtypes =>
      Boxed(At(h, a), Deep(img, h, origin, Value(InnerOf(img, EntryOf(img, At(h, a))), a + 2), fuel - 1))
    case Arrays =>
      Boxed(At(h, a), Elements(
        DeepElements(img, h, origin, EntryOf(img, At(h, a)), At(h, a + 1), Max0(At(h, a + 2)), fuel - 1)))
    case Environments =>
      var n := Max0(At(h, a));
      Captures(WordsAt(h, a + 2 + n, n), DeepCaptures(img, h, origin, a, n, fuel - 1))
  }

  /** The meaning of a node, to depth `fuel`. */
  function Deep(img: Image, h: Heap, origin: Addr, n: Node, fuel: nat): Tree
    decreases fuel, 1
  {
    if fuel == 0 then Cut else
    match n
    case Value(e, a) => Located(WordsAt(h, a, HEADER), DeepData(img, h, origin, e, a + HEADER, fuel - 1))
    case Data(e, a) => DeepData(img, h, origin, e, a, fuel - 1)
    case Ref(e, a) =>
      if At(h, a) < origin then Static(At(h, a))
      else Deep(img, h, origin, Value(e, At(h, a)), fuel - 1)
    case Handle(t, a) =>
      if At(h, a) < origin then Static(At(h, a))
      else DeepObject(img, h, origin, t, At(h, a), fuel - 1)
    case Object(t, a) => DeepObject(img, h, origin, t, a, fuel - 1)
    case Fields(_, _, _) => Unit
    case Elems(_, _, _) => Unit
    case Raw(_) => Unit
    case Owned(words, a) => if words == 0 then Unit else Deep(img, h, origin, Blob(words, At(h, a)), fuel - 1)
    case Slot(tag, a) => DeepSlot(img, h, origin, tag, a, fuel - 1)
    case Packet(tag, words, a) =>
      Held(OwnWords(img, h, tag, words, a), DeepMembers(img, h, origin, tag, a, fuel - 1))
  }

  // ----- whole elements -----------------------------------------------------

  lemma ProductAtLeast(k: int, d: nat)
    requires k >= 1
    ensures k * d >= d
  {
  }

  lemma QuotientOfProduct(n: nat, d: nat)
    requires d > 0
    ensures n * d / d == n
  {
    var q := n * d / d;
    assert n * d == q * d + n * d % d;
    assert (n - q) * d == n * d - q * d;
    assert (q - n) * d == q * d - n * d;
    if q < n {
      ProductAtLeast(n - q, d);
    } else if q > n {
      ProductAtLeast(q - n, d);
    }
  }
}
