/** The calculated layouts have room for what the collectors read: every slot that
    the scanner finds in a value lies inside the bytes that were set aside for it,
    and leads to the table that the layout names. */
module LayoutReading {
  import opened LayoutGraph
  import opened LayoutSize
  import opened Wrappers
  import H = HeapGraph

  const WORD_BYTES: nat := 4

  /** How a kind of type that is not stored inline appears in the layout image. */
  predicate Pictures(kind: Kind, l: H.Layout) {
    match kind
    case Scalar => l.Scalar?
    case TypeValue => l.Scalar?
    case Text => l.Content?
    case Array => l.Array?
    case Dict => l.Dict?
    case Aggregate(unit, wrapper) => if unit then l.Scalar? else if wrapper then l.Newtype? else l.Record?
    case Function => l.Function?
    case Quantified => l.Function?
    case Dyn => l.Dyn?
    case Native(known) => known && l.Resource?
    case _ => false
  }

  /** The table that a slot leads to. */
  function TableOf(l: H.Layout, n: H.Node): Option<Table> {
    match n
    case Raw(_) => Some(ContentTable)
    case Ref(_, _) => Some(ArrayTable)
    case Handle(Arrays, _) => Some(ArrayTable)
    case Handle(Records, _) => Some(RecordTable)
    case Handle(Newtypes, _) => Some(NewtypeTable)
    case Handle(Environments, _) => Some(ClosureTable)
    case Handle(Boxes, _) => if l.Dyn? then Some(ValueTable) else None
    case Slot(_, _) => Some(ResourceTable)
    case _ => None
  }

  /** Sizes of the layout image count words. */
  predicate Sized(e: H.Entry, s: Shape) {
    WORD_BYTES * e.size == s.valueBytes
  }

  /** What the scanner demands of a value's size is what was calculated, for every
      content; and each slot it may find lies inside the value's data and leads to
      the table of the layout. */
  lemma SlotsInside(kind: Kind, s: Shape, img: H.Image, h: H.Heap, e: H.Entry, a: H.Addr, n: H.Node)
    requires FixedShape(kind) == Ok(Known(s)) && Pictures(kind, e.layout) && Sized(e, s)
    requires n in H.DataParts(img, h, e, a) && H.IsSlot(n)
    ensures a <= n.at && WORD_BYTES * (n.at + 1 - a) <= s.dataBytes && s.table == TableOf(e.layout, n)
  {
    hide H.At, H.EntryOf;
  }

  /** A `Dyn` holds its payload behind two words, in the room that is left for it. */
  lemma DynInside(s: Shape, img: H.Image, h: H.Heap, e: H.Entry, a: H.Addr, n: H.Node)
    requires FixedShape(Dyn) == Ok(Known(s)) && e.layout.Dyn? && n in H.DataParts(img, h, e, a) && n.Data?
    ensures n.at == a + 2
    ensures WORD_BYTES * (n.e.size - H.HEADER) <= 16 ==> WORD_BYTES * (n.at - a + n.e.size - H.HEADER) <= s.dataBytes
  {
    hide H.At, H.EntryOf;
  }

  /** The calculated size is the one the scanner demands. */
  lemma SizesDemanded(kind: Kind, s: Shape, e: H.Entry)
    requires FixedShape(kind) == Ok(Known(s)) && Pictures(kind, e.layout) && Sized(e, s)
    ensures e.size >= H.HEADER && H.NoData(e)
    ensures e.layout.Content? || e.layout.Array? || e.layout.Dict? ==> e.size == H.HEADER + 4
    ensures e.layout.Function? ==> e.size == H.HEADER + 2
    ensures e.layout.Dyn? ==> e.size == H.HEADER + 6
    ensures e.layout.Record? || e.layout.Newtype? || e.layout.Resource? ==> e.size >= H.HEADER + 1
  {
  }
}
