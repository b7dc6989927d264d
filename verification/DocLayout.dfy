/** The document engine of the source formatter (source_format.rs Doc): flat
    widths, and rendering with an explicit stack against a recursive layout. */
module DocLayout {

  const INDENT: nat := 4
  /** usize::MAX, the width of what cannot be flat. */
  const MAX: nat := 0xffff_ffff_ffff_ffff

  datatype Doc = Doc(kind: Kind, flatWidth: nat)

  datatype Kind =
    | Text(text: string)
    | Line(flat: string)
    | Hard
    | Concat(docs: seq<Doc>)
    | Nest(doc: Doc)
    | Group(doc: Doc)

  // ----- constructors ---------------------------------------------------------------

  predicate Multiline(s: string) {
    '\n' in s || '\r' in s
  }

  function Saturating(a: nat, b: nat): nat {
    if a + b > MAX then MAX else a + b
  }

  function MakeText(s: string): Doc {
    Doc(Text(s), if Multiline(s) then MAX else |s|)
  }

  function MakeLine(flat: string): Doc {
    Doc(Line(flat), |flat|)
  }

  function MakeHard(): Doc {
    Doc(Hard, MAX)
  }

  function TotalWidth(docs: seq<Doc>): nat {
    if docs == [] then 0 else Saturating(TotalWidth(docs[..|docs| - 1]), docs[|docs| - 1].flatWidth)
  }

  function MakeConcat(docs: seq<Doc>): Doc {
    Doc(Concat(docs), TotalWidth(docs))
  }

  function MakeNest(doc: Doc): Doc {
    Doc(Nest(doc), doc.flatWidth)
  }

  function MakeGroup(doc: Doc): Doc {
    Doc(Group(doc), doc.flatWidth)
  }

  predicate Blanks(flat: string) {
    forall c :: c in flat ==> c == ' '
  }

  /** Made with the constructors, from strings that fit memory; soft breaks are
      spaces or nothing. */
  predicate Built(d: Doc) {
    match d.kind
    case Text(s) => |s| < MAX && d == MakeText(s)
    case Line(flat) => |flat| < MAX && Blanks(flat) && d == MakeLine(flat)
    case Hard => d == MakeHard()
    case Concat(docs) => (forall i :: 0 <= i < |docs| ==> Built(docs[i])) && d == MakeConcat(docs)
    case Nest(inner) => Built(inner) && d == MakeNest(inner)
    case Group(inner) => Built(inner) && d == MakeGroup(inner)
  }

  /** Each constructor yields a document that was built. */
  lemma ConstructorsBuild(s: string, docs: seq<Doc>, inner: Doc)
    ensures |s| < MAX ==> Built(MakeText(s)) && (Blanks(s) ==> Built(MakeLine(s)))
    ensures Built(MakeHard())
    ensures (forall i :: 0 <= i < |docs| ==> Built(docs[i])) ==> Built(MakeConcat(docs))
    ensures Built(inner) ==> Built(MakeNest(inner)) && Built(MakeGroup(inner))
  {
  }

  // ----- flat widths ------------------------------------------------------------------

  /** A hard break, or text over several lines. */
  predicate HasBreak(d: Doc) {
    match d.kind
    case Text(s) => Multiline(s)
    case Line(_) => false
    case Hard => true
    case Concat(docs) => exists i :: 0 <= i < |docs| && HasBreak(docs[i])
    case Nest(inner) => HasBreak(inner)
    case Group(inner) => HasBreak(inner)
  }

  /** Everything on one line. */
  function Flat(d: Doc): string {
    match d.kind
    case Text(s) => s
    case Line(flat) => flat
    case Hard => ""
    case Concat(docs) => FlatAll(docs)
    case Nest(inner) => Flat(inner)
    case Group(inner) => Flat(inner)
  }

  function FlatAll(docs: seq<Doc>): string {
    if docs == [] then "" else FlatAll(docs[..|docs| - 1]) + Flat(docs[|docs| - 1])
  }

  /** The recorded width is the true width of the flat layout, or says that there
      is none. */
  lemma {:induction false} WidthExact(d: Doc)
    requires Built(d)
    ensures d.flatWidth == if HasBreak(d) || |Flat(d)| >= MAX then MAX else |Flat(d)|
    decreases d
  {
    match d.kind
    case Concat(docs) => WidthsExact(docs);
    case Nest(inner) => WidthExact(inner);
    case Group(inner) => WidthExact(inner);
    case _ =>
  }

  lemma {:induction false} WidthsExact(docs: seq<Doc>)
    requires forall i :: 0 <= i < |docs| ==> Built(docs[i])
    ensures TotalWidth(docs) ==
      if (exists i :: 0 <= i < |docs| && HasBreak(docs[i])) || |FlatAll(docs)| >= MAX then MAX else |FlatAll(docs)|
    decreases docs
  {
    if docs != [] {
      var n := |docs| - 1;
      var front := docs[..n];
      assert forall i :: 0 <= i < n ==> front[i] == docs[i];
      WidthsExact(front);
      WidthExact(docs[n]);
      if i :| 0 <= i < |docs| && HasBreak(docs[i]) {
        assert i < n ==> HasBreak(front[i]);
      }
    }
  }

  // ----- layout -------------------------------------------------------------------------

  /** What is written: pieces of text, and white space of the engine's own. */
  datatype Chunk = Piece(text: string) | Blank(text: string)

  /** Written so far, the column, and the indentation owed to the next text. */
  datatype State = State(chunks: seq<Chunk>, column: nat, pending: nat)

  function Max(a: nat, b: nat): nat { if a < b then b else a }

  function Room(width: nat, st: State): nat {
    var start := Max(st.column, st.pending);
    if width < start then 0 else width - start
  }

  predicate Fits(d: Doc, width: nat, st: State) {
    d.flatWidth <= Room(width, st)
  }

  function Spaces(n: nat): (s: string)
    ensures |s| == n && forall c :: c in s ==> c == ' '
  {
    seq(n, i => ' ')
  }

  /** Characters after the last line break. */
  function Tail(s: string): string {
    if s == "" then ""
    else if s[|s| - 1] == '\n' then ""
    else Tail(s[..|s| - 1]) + [s[|s| - 1]]
  }

  function PutText(text: string, st: State): State {
    if text == "" then st
    else
      var lead := if st.column == 0 then [Blank(Spaces(st.pending))] else [];
      var column := if st.column == 0 then st.pending else st.column;
      State(st.chunks + lead + [Piece(text)], if '\n' in text then |Tail(text)| else column + |text|, st.pending)
  }

  function Break(indent: nat, st: State): State {
    State(st.chunks + [Blank("\n")], 0, indent)
  }

  function Soft(text: string, indent: nat, flat: bool, st: State): State {
    if flat then State(st.chunks + [Blank(text)], st.column + |text|, st.pending) else Break(indent, st)
  }

  /** The layout, by recursion over the document. */
  function Layout(d: Doc, indent: nat, flat: bool, width: nat, st: State): State
    decreases d
  {
    match d.kind
    case Text(text) => PutText(text, st)
    case Line(text) => Soft(text, indent, flat, st)
    case Hard => Break(indent, st)
    case Concat(docs) => LayoutAll(docs, indent, flat, width, st)
    case Nest(inner) => Layout(inner, indent + INDENT, flat, width, st)
    case Group(inner) => Layout(inner, indent, flat || Fits(inner, width, st), width, st)
  }

  function LayoutAll(docs: seq<Doc>, indent: nat, flat: bool, width: nat, st: State): State
    decreases docs
  {
    if docs == [] then st else LayoutAll(docs[1..], indent, flat, width, Layout(docs[0], indent, flat, width, st))
  }

  function Written(chunks: seq<Chunk>): string {
    if chunks == [] then "" else Written(chunks[..|chunks| - 1]) + chunks[|chunks| - 1].text
  }

  const START := State([], 0, 0)

  // ----- what a layout contains -----------------------------------------------------------

  /** Non-empty text pieces, in order. */
  function Pieces(d: Doc): seq<string> {
    match d.kind
    case Text(s) => if s == "" then [] else [s]
    case Line(_) => []
    case Hard => []
    case Concat(docs) => PiecesAll(docs)
    case Nest(inner) => Pieces(inner)
    case Group(inner) => Pieces(inner)
  }

  function PiecesAll(docs: seq<Doc>): seq<string> {
    if docs == [] then [] else Pieces(docs[0]) + PiecesAll(docs[1..])
  }

  function PiecesIn(chunks: seq<Chunk>): seq<string> {
    if chunks == [] then []
    else
      var last := chunks[|chunks| - 1];
      PiecesIn(chunks[..|chunks| - 1]) + if last.Piece? then [last.text] else []
  }

  predicate OnlyWhite(c: Chunk) {
    c.Blank? ==> c.text == "\n" || forall ch :: ch in c.text ==> ch == ' '
  }

  lemma PiecesAppend(chunks: seq<Chunk>, c: Chunk)
    ensures PiecesIn(chunks + [c]) == PiecesIn(chunks) + if c.Piece? then [c.text] else []
    ensures Written(chunks + [c]) == Written(chunks) + c.text
  {
    assert (chunks + [c])[..|chunks + [c]| - 1] == chunks;
  }

  /** The state grew by the given pieces and white space. */
  predicate Grew(st: State, pieces: seq<string>, now: State) {
    && st.chunks <= now.chunks && PiecesIn(now.chunks) == PiecesIn(st.chunks) + pieces
    && forall i :: |st.chunks| <= i < |now.chunks| ==> OnlyWhite(now.chunks[i])
  }

  lemma PutTextGrew(text: string, st: State)
    ensures Grew(st, if text == "" then [] else [text], PutText(text, st))
  {
    if text != "" {
      if st.column == 0 {
        PiecesAppend(st.chunks, Blank(Spaces(st.pending)));
        PiecesAppend(st.chunks + [Blank(Spaces(st.pending))], Piece(text));
      } else {
        assert st.chunks + [] == st.chunks;
        PiecesAppend(st.chunks, Piece(text));
      }
    }
  }

  /** All text appears, in order, with nothing but white space in between. */
  lemma {:induction false} TextInOrder(d: Doc, indent: nat, flat: bool, width: nat, st: State)
    requires Built(d)
    ensures Grew(st, Pieces(d), Layout(d, indent, flat, width, st))
    decreases d
  {
    match d.kind
    case Text(text) => PutTextGrew(text, st);
    case Line(text) =>
      PiecesAppend(st.chunks, Blank(text));
      PiecesAppend(st.chunks, Blank("\n"));
    case Hard => PiecesAppend(st.chunks, Blank("\n"));
    case Concat(docs) => TextsInOrder(docs, indent, flat, width, st);
    case Nest(inner) => TextInOrder(inner, indent + INDENT, flat, width, st);
    case Group(inner) => TextInOrder(inner, indent, flat || Fits(inner, width, st), width, st);
  }

  lemma {:induction false} TextsInOrder(docs: seq<Doc>, indent: nat, flat: bool, width: nat, st: State)
    requires forall i :: 0 <= i < |docs| ==> Built(docs[i])
    ensures Grew(st, PiecesAll(docs), LayoutAll(docs, indent, flat, width, st))
    decreases docs
  {
    if docs != [] {
      TextInOrder(docs[0], indent, flat, width, st);
      TextsInOrder(docs[1..], indent, flat, width, Layout(docs[0], indent, flat, width, st));
    }
  }

  // ----- columns --------------------------------------------------------------------------

  lemma {:induction false} TailAppend(s: string, t: string)
    ensures Tail(s + t) == if '\n' in t then Tail(t) else Tail(s) + t
    decreases |t|
  {
    if t == "" {
      assert s + t == s;
    } else {
      var n := |t| - 1;
      TailAppend(s, t[..n]);
      assert (s + t)[..|s + t| - 1] == s + t[..n];
      assert t == t[..n] + [t[n]];
      assert '\n' in t <==> '\n' in t[..n] || t[n] == '\n';
    }
  }

  /** The engine's column is the width of the last line written. */
  predicate TrueColumn(st: State) {
    st.column == |Tail(Written(st.chunks))|
  }

  lemma PutTextColumn(text: string, st: State)
    requires TrueColumn(st)
    ensures TrueColumn(PutText(text, st))
  {
    if text != "" {
      var lead := Spaces(st.pending);
      if st.column == 0 {
        PiecesAppend(st.chunks, Blank(lead));
        PiecesAppend(st.chunks + [Blank(lead)], Piece(text));
        TailAppend(Written(st.chunks), lead);
        TailAppend(Written(st.chunks) + lead, text);
      } else {
        assert st.chunks + [] == st.chunks;
        PiecesAppend(st.chunks, Piece(text));
        TailAppend(Written(st.chunks), text);
      }
    }
  }

  lemma {:induction false} ColumnIsTrue(d: Doc, indent: nat, flat: bool, width: nat, st: State)
    requires Built(d) && TrueColumn(st)
    ensures TrueColumn(Layout(d, indent, flat, width, st))
    decreases d
  {
    match d.kind
    case Text(text) => PutTextColumn(text, st);
    case Line(text) =>
      PiecesAppend(st.chunks, Blank(text));
      TailAppend(Written(st.chunks), text);
      BreakColumn(indent, st);
    case Hard => BreakColumn(indent, st);
    case Concat(docs) => ColumnsAreTrue(docs, indent, flat, width, st);
    case Nest(inner) => ColumnIsTrue(inner, indent + INDENT, flat, width, st);
    case Group(inner) => ColumnIsTrue(inner, indent, flat || Fits(inner, width, st), width, st);
  }

  lemma BreakColumn(indent: nat, st: State)
    ensures TrueColumn(Break(indent, st))
  {
    PiecesAppend(st.chunks, Blank("\n"));
    TailAppend(Written(st.chunks), "\n");
  }

  lemma {:induction false} ColumnsAreTrue(docs: seq<Doc>, indent: nat, flat: bool, width: nat, st: State)
    requires (forall i :: 0 <= i < |docs| ==> Built(docs[i])) && TrueColumn(st)
    ensures TrueColumn(LayoutAll(docs, indent, flat, width, st))
    decreases docs
  {
    if docs != [] {
      ColumnIsTrue(docs[0], indent, flat, width, st);
      ColumnsAreTrue(docs[1..], indent, flat, width, Layout(docs[0], indent, flat, width, st));
    }
  }

  // ----- flat groups ------------------------------------------------------------------------

  predicate NoNewline(c: Chunk) {
    '\n' !in c.text
  }

  /** Laid out on one line: no line break is written, and the line is at most as
      much longer as the flat layout is wide. */
  predicate OneLine(st: State, width: nat, now: State) {
    && st.chunks <= now.chunks && (forall i :: |st.chunks| <= i < |now.chunks| ==> NoNewline(now.chunks[i]))
    && now.pending == st.pending && Max(now.column, now.pending) <= Max(st.column, st.pending) + width
  }

  lemma {:induction false} FlatLayout(d: Doc, indent: nat, width: nat, st: State)
    requires Built(d) && !HasBreak(d)
    ensures OneLine(st, |Flat(d)|, Layout(d, indent, true, width, st))
    decreases d
  {
    match d.kind
    case Concat(docs) => FlatLayouts(docs, indent, width, st);
    case Nest(inner) => FlatLayout(inner, indent + INDENT, width, st);
    case Group(inner) => FlatLayout(inner, indent, width, st);
    case _ =>
  }

  lemma {:induction false} FlatFront(docs: seq<Doc>)
    requires docs != []
    ensures |FlatAll(docs)| == |Flat(docs[0])| + |FlatAll(docs[1..])|
    decreases |docs|
  {
    if |docs| > 1 {
      var n := |docs| - 1;
      FlatFront(docs[..n]);
      assert docs[..n][1..] == docs[1..][..n - 1];
    }
  }

  lemma {:induction false} FlatLayouts(docs: seq<Doc>, indent: nat, width: nat, st: State)
    requires forall i :: 0 <= i < |docs| ==> Built(docs[i]) && !HasBreak(docs[i])
    ensures OneLine(st, |FlatAll(docs)|, LayoutAll(docs, indent, true, width, st))
    decreases docs
  {
    if docs != [] {
      FlatFront(docs);
      FlatLayout(docs[0], indent, width, st);
      FlatLayouts(docs[1..], indent, width, Layout(docs[0], indent, true, width, st));
    }
  }

  /** A group with a hard break or several lines of text is never put on one line. */
  lemma BrokenNeverFits(d: Doc, width: nat, st: State)
    requires Built(d) && HasBreak(d) && width < MAX
    ensures !Fits(d, width, st)
  {
    WidthExact(d);
  }

  /** A group that is put on one line has no line break in it, and ends within the
      width, or where it started if that was beyond. */
  lemma FlatGroup(d: Doc, indent: nat, width: nat, st: State)
    requires Built(d) && Fits(d, width, st) && width < MAX
    ensures var now := Layout(MakeGroup(d), indent, false, width, st);
      && st.chunks <= now.chunks && (forall i :: |st.chunks| <= i < |now.chunks| ==> NoNewline(now.chunks[i]))
      && now.column <= Max(width, Max(st.column, st.pending))
  {
    WidthExact(d);
    FlatLayout(d, indent, width, st);
  }

  // ----- what is written, leaf by leaf ----------------------------------------------------------

  /** The leaves of a document with the number of nests around them; a gap is `own`
      if no group inside the document decides about it. */
  datatype Leaf = Word(text: string) | Gap(flat: string, depth: nat, own: bool) | Stop(depth: nat)

  function Leaves(d: Doc, depth: nat, own: bool): seq<Leaf> {
    match d.kind
    case Text(s) => [Word(s)]
    case Line(flat) => [Gap(flat, depth, own)]
    case Hard => [Stop(depth)]
    case Concat(docs) => LeavesAll(docs, depth, own)
    case Nest(inner) => Leaves(inner, depth + 1, own)
    case Group(inner) => Leaves(inner, depth, false)
  }

  function LeavesAll(docs: seq<Doc>, depth: nat, own: bool): seq<Leaf> {
    if docs == [] then [] else Leaves(docs[0], depth, own) + LeavesAll(docs[1..], depth, own)
  }

  /** Whether the pen is at the start of a line, and how many blanks the next word
      owes if it is. */
  datatype Pen = Pen(first: bool, owed: nat)

  /** One leaf in ink: a hard break and a broken gap end the line, and the word that
      starts the next line stands four blanks further in for each nest around the
      break. */
  function Ink(l: Leaf, broken: bool, pen: Pen): string {
    match l
    case Word(s) => (if s != "" && pen.first then Spaces(pen.owed) else "") + s
    case Gap(flat, _, _) => if broken then "\n" else flat
    case Stop(_) => "\n"
  }

  function Past(l: Leaf, broken: bool, pen: Pen): Pen {
    match l
    case Word(s) => if s == "" then pen else Pen(s[|s| - 1] == '\n', pen.owed)
    case Gap(flat, depth, _) => if broken then Pen(true, 4 * depth) else Pen(pen.first && flat == "", pen.owed)
    case Stop(depth) => Pen(true, 4 * depth)
  }

  function Spelled(ls: seq<Leaf>, broken: seq<bool>, pen: Pen): string
    requires |ls| == |broken|
  {
    if ls == [] then "" else Ink(ls[0], broken[0], pen) + Spelled(ls[1..], broken[1..], Past(ls[0], broken[0], pen))
  }

  function PenAfter(ls: seq<Leaf>, broken: seq<bool>, pen: Pen): Pen
    requires |ls| == |broken|
  {
    if ls == [] then pen else PenAfter(ls[1..], broken[1..], Past(ls[0], broken[0], pen))
  }

  lemma {:induction false} SpelledBoth(ls: seq<Leaf>, bs: seq<bool>, ms: seq<Leaf>, cs: seq<bool>, pen: Pen)
    requires |ls| == |bs| && |ms| == |cs|
    ensures Spelled(ls + ms, bs + cs, pen) == Spelled(ls, bs, pen) + Spelled(ms, cs, PenAfter(ls, bs, pen))
    ensures PenAfter(ls + ms, bs + cs, pen) == PenAfter(ms, cs, PenAfter(ls, bs, pen))
    decreases |ls|
  {
    if ls == [] {
      assert ls + ms == ms && bs + cs == cs;
    } else {
      SpelledBoth(ls[1..], bs[1..], ms, cs, Past(ls[0], bs[0], pen));
      assert (ls + ms)[1..] == ls[1..] + ms && (bs + cs)[1..] == bs[1..] + cs;
    }
  }

  function PenOf(st: State): Pen {
    Pen(st.column == 0, st.pending)
  }

  /** The text between two states is the leaves in ink, in order. */
  predicate Spells(st: State, ls: seq<Leaf>, broken: seq<bool>, now: State) {
    && |broken| == |ls| && Written(now.chunks) == Written(st.chunks) + Spelled(ls, broken, PenOf(st))
    && PenOf(now) == PenAfter(ls, broken, PenOf(st))
  }

  /** Laid out flat, no gap is broken; otherwise every gap is that no inner group
      decides about. */
  predicate Choice(ls: seq<Leaf>, broken: seq<bool>, flat: bool) {
    && |broken| == |ls|
    && forall i :: 0 <= i < |ls| && ls[i].Gap? ==> (flat ==> !broken[i]) && (!flat && ls[i].own ==> broken[i])
  }

  lemma SpellsOne(l: Leaf, broken: bool, st: State, now: State)
    requires Written(now.chunks) == Written(st.chunks) + Ink(l, broken, PenOf(st))
    requires PenOf(now) == Past(l, broken, PenOf(st))
    ensures Spells(st, [l], [broken], now)
  {
    assert Spelled([], [], PenOf(now)) == "";
    assert Spelled([l], [broken], PenOf(st)) == Ink(l, broken, PenOf(st)) + "";
  }

  lemma WordSpelled(text: string, st: State)
    ensures Spells(st, [Word(text)], [false], PutText(text, st))
  {
    var now := PutText(text, st);
    if text != "" {
      if st.column == 0 {
        PiecesAppend(st.chunks, Blank(Spaces(st.pending)));
        PiecesAppend(st.chunks + [Blank(Spaces(st.pending))], Piece(text));
      } else {
        assert st.chunks + [] == st.chunks;
        PiecesAppend(st.chunks, Piece(text));
      }
      EmptyTail(text);
    }
    SpellsOne(Word(text), false, st, now);
  }

  lemma EmptyTail(s: string)
    requires s != ""
    ensures Tail(s) == "" <==> s[|s| - 1] == '\n'
  {
  }

  lemma GapSpelled(text: string, depth: nat, own: bool, flat: bool, st: State)
    ensures Spells(st, [Gap(text, depth, own)], [!flat], Soft(text, 4 * depth, flat, st))
    ensures Spells(st, [Stop(depth)], [true], Break(4 * depth, st))
  {
    PiecesAppend(st.chunks, Blank(text));
    PiecesAppend(st.chunks, Blank("\n"));
    SpellsOne(Gap(text, depth, own), !flat, st, Soft(text, 4 * depth, flat, st));
    SpellsOne(Stop(depth), true, st, Break(4 * depth, st));
  }

  /** A layout writes the leaves of the document, and every choice but that of the
      groups inside is made by `flat`. */
  lemma {:induction false} LayoutSpells(d: Doc, depth: nat, own: bool, flat: bool, width: nat, st: State)
    returns (broken: seq<bool>)
    ensures Spells(st, Leaves(d, depth, own), broken, Layout(d, 4 * depth, flat, width, st))
    ensures Choice(Leaves(d, depth, own), broken, flat)
    decreases d
  {
    hide Written, Spelled, PenAfter, Ink, Past, Soft, Break, PutText;
    match d.kind
    case Text(text) =>
      WordSpelled(text, st);
      broken := [false];
    case Line(text) =>
      GapSpelled(text, depth, own, flat, st);
      broken := [!flat];
    case Hard =>
      GapSpelled("", depth, own, flat, st);
      broken := [true];
    case Concat(docs) =>
      broken := LayoutsSpell(docs, depth, own, flat, width, st);
    case Nest(inner) =>
      broken := LayoutSpells(inner, depth + 1, own, flat, width, st);
    case Group(inner) =>
      broken := LayoutSpells(inner, depth, false, flat || Fits(inner, width, st), width, st);
      NoneOwn(inner, depth);
  }

  lemma {:induction false} LayoutsSpell(docs: seq<Doc>, depth: nat, own: bool, flat: bool, width: nat, st: State)
    returns (broken: seq<bool>)
    ensures Spells(st, LeavesAll(docs, depth, own), broken, LayoutAll(docs, 4 * depth, flat, width, st))
    ensures Choice(LeavesAll(docs, depth, own), broken, flat)
    decreases docs
  {
    hide Written, Ink, Past, Leaves, Layout;
    if docs == [] {
      broken := [];
      assert Written(st.chunks) + "" == Written(st.chunks);
    } else {
      var next := Layout(docs[0], 4 * depth, flat, width, st);
      var bs := LayoutSpells(docs[0], depth, own, flat, width, st);
      var cs := LayoutsSpell(docs[1..], depth, own, flat, width, next);
      SpelledBoth(Leaves(docs[0], depth, own), bs, LeavesAll(docs[1..], depth, own), cs, PenOf(st));
      broken := bs + cs;
    }
  }

  lemma {:induction false} NoneOwn(d: Doc, depth: nat)
    ensures forall i :: 0 <= i < |Leaves(d, depth, false)| && Leaves(d, depth, false)[i].Gap? ==>
      !Leaves(d, depth, false)[i].own
    decreases d
  {
    match d.kind
    case Concat(docs) => NoneOwnAll(docs, depth);
    case Nest(inner) => NoneOwn(inner, depth + 1);
    case Group(inner) => NoneOwn(inner, depth);
    case _ =>
  }

  lemma {:induction false} NoneOwnAll(docs: seq<Doc>, depth: nat)
    ensures forall i :: 0 <= i < |LeavesAll(docs, depth, false)| && LeavesAll(docs, depth, false)[i].Gap? ==>
      !LeavesAll(docs, depth, false)[i].own
    decreases docs
  {
    if docs != [] {
      NoneOwn(docs[0], depth);
      NoneOwnAll(docs[1..], depth);
    }
  }

  /** A group is on one line exactly if its text has no break and there is room for
      it behind the column or the owed indentation; otherwise each of its own gaps
      is a line break. */
  lemma GroupChosen(d: Doc, depth: nat, width: nat, st: State) returns (broken: seq<bool>)
    requires Built(d) && width < MAX
    ensures var start := if st.column < st.pending then st.pending else st.column;
      var fits := !HasBreak(d) && (|Flat(d)| == 0 || start + |Flat(d)| <= width);
      Choice(Leaves(d, depth, true), broken, fits)
    ensures Spells(st, Leaves(d, depth, true), broken, Layout(MakeGroup(d), 4 * depth, false, width, st))
  {
    hide Written, Spelled, PenAfter, Leaves;
    WidthExact(d);
    broken := LayoutSpells(d, depth, true, Fits(d, width, st), width, st);
  }

  /** A rendered document is its leaves in ink: every hard break and every gap
      outside a group ends a line. */
  lemma RenderedLeaves(d: Doc, width: nat) returns (broken: seq<bool>)
    ensures Choice(Leaves(d, 0, true), broken, false)
    ensures Written(Layout(d, 0, false, width, START).chunks) == Spelled(Leaves(d, 0, true), broken, Pen(true, 0))
  {
    hide Layout, Leaves, Spelled, PenAfter;
    broken := LayoutSpells(d, 0, true, false, width, START);
    assert Written([]) == "";
  }

  // ----- the engine ---------------------------------------------------------------------------

  datatype Frame = Frame(indent: nat, flat: bool, doc: Doc)

  /** What is left on the stack, laid out from the top. */
  function Rest(stack: seq<Frame>, width: nat, st: State): State {
    if stack == [] then st
    else
      var top := stack[|stack| - 1];
      Rest(stack[..|stack| - 1], width, Layout(top.doc, top.indent, top.flat, width, st))
  }

  function Size(d: Doc): nat {
    match d.kind
    case Concat(docs) => 1 + SizeAll(docs)
    case Nest(inner) => 1 + Size(inner)
    case Group(inner) => 1 + Size(inner)
    case _ => 1
  }

  function SizeAll(docs: seq<Doc>): nat {
    if docs == [] then 0 else Size(docs[0]) + SizeAll(docs[1..])
  }

  function StackSize(stack: seq<Frame>): nat {
    if stack == [] then 0 else StackSize(stack[..|stack| - 1]) + Size(stack[|stack| - 1].doc)
  }

  function Reversed(docs: seq<Doc>, indent: nat, flat: bool): seq<Frame> {
    if docs == [] then [] else Reversed(docs[1..], indent, flat) + [Frame(indent, flat, docs[0])]
  }

  lemma {:induction false} RestReversed(stack: seq<Frame>, docs: seq<Doc>, indent: nat, flat: bool, width: nat,
                                        st: State)
    ensures Rest(stack + Reversed(docs, indent, flat), width, st) ==
      Rest(stack, width, LayoutAll(docs, indent, flat, width, st))
    ensures StackSize(stack + Reversed(docs, indent, flat)) == StackSize(stack) + SizeAll(docs)
    decreases |docs|
  {
    if docs == [] {
      assert stack + Reversed(docs, indent, flat) == stack;
    } else {
      var all := stack + Reversed(docs, indent, flat);
      assert all[..|all| - 1] == stack + Reversed(docs[1..], indent, flat);
      RestReversed(stack, docs[1..], indent, flat, width, Layout(docs[0], indent, flat, width, st));
    }
  }

  lemma NothingLeft(width: nat)
    ensures Written([]) == "" && forall st :: Rest([], width, st) == st
  {
  }

  lemma PushTop(stack: seq<Frame>, f: Frame, width: nat, st: State)
    ensures Rest(stack + [f], width, st) == Rest(stack, width, Layout(f.doc, f.indent, f.flat, width, st))
    ensures StackSize(stack + [f]) == StackSize(stack) + Size(f.doc)
  {
    assert (stack + [f])[..|stack + [f]| - 1] == stack;
  }

  lemma PutTextPending(text: string, st: State)
    ensures PutText(text, st).pending == st.pending
  {
  }

  /** The output and its position after a piece of text. */
  method EmitText(text: string, output: string, column: nat, pending: nat, ghost st: State) returns (o: string, c: nat)
    requires output == Written(st.chunks) && column == st.column && pending == st.pending
    ensures o == Written(PutText(text, st).chunks) && c == PutText(text, st).column
  {
    o, c := output, column;
    ghost var now := PutText(text, st);
    if text != "" {
      if column == 0 {
        o := o + Spaces(pending);
        c := pending;
        PiecesAppend(st.chunks, Blank(Spaces(st.pending)));
        PiecesAppend(st.chunks + [Blank(Spaces(st.pending))], Piece(text));
        assert st.chunks + [Blank(Spaces(st.pending))] + [Piece(text)] == now.chunks;
      } else {
        PiecesAppend(st.chunks, Piece(text));
        assert st.chunks + [] + [Piece(text)] == st.chunks + [Piece(text)];
      }
      o := o + text;
      c := if '\n' in text then |Tail(text)| else c + |text|;
    }
  }

  /** Rendering writes what the recursive layout says. */
  method Render(d: Doc, width: nat) returns (output: string)
    ensures output == Written(Layout(d, 0, false, width, START).chunks)
  {
    hide Layout, LayoutAll, PutText, Rest, Written, StackSize, Reversed, Size, SizeAll, PiecesIn;
    NothingLeft(width);
    output := "";
    var column: nat, pending: nat := 0, 0;
    var stack := [Frame(0, false, d)];
    ghost var chunks: seq<Chunk> := [];
    PushTop([], stack[0], width, START);
    assert [] + [stack[0]] == stack;
    while stack != []
      invariant output == Written(chunks)
      invariant Rest(stack, width, State(chunks, column, pending)) == Layout(d, 0, false, width, START)
      decreases StackSize(stack)
    {
      var top := stack[|stack| - 1];
      ghost var st := State(chunks, column, pending);
      assert stack == stack[..|stack| - 1] + [top];
      stack := stack[..|stack| - 1];
      PushTop(stack, top, width, st);
      LayoutStep(top, width, st);
      SizeStep(top.doc);
      match top.doc.kind {
        case Text(text) =>
          PutTextPending(text, st);
          output, column := EmitText(text, output, column, pending, st);
          chunks := PutText(text, st).chunks;
        case Line(text) =>
          if top.flat {
            PiecesAppend(chunks, Blank(text));
            chunks := chunks + [Blank(text)];
            output := output + text;
            column := column + |text|;
          } else {
            PiecesAppend(chunks, Blank("\n"));
            chunks := chunks + [Blank("\n")];
            output := output + "\n";
            column, pending := 0, top.indent;
          }
        case Hard =>
          PiecesAppend(chunks, Blank("\n"));
          chunks := chunks + [Blank("\n")];
          output := output + "\n";
          column, pending := 0, top.indent;
        case Concat(docs) =>
          RestReversed(stack, docs, top.indent, top.flat, width, st);
          stack := stack + Reversed(docs, top.indent, top.flat);
        case Nest(inner) =>
          PushTop(stack, Frame(top.indent + INDENT, top.flat, inner), width, st);
          stack := stack + [Frame(top.indent + INDENT, top.flat, inner)];
        case Group(inner) =>
          var flat := top.flat || inner.flatWidth <= Room(width, State([], column, pending));
          PushTop(stack, Frame(top.indent, flat, inner), width, st);
          stack := stack + [Frame(top.indent, flat, inner)];
      }
    }
  }

  /** One step of the recursion. */
  lemma LayoutStep(f: Frame, width: nat, st: State)
    ensures f.doc.kind.Text? ==> Layout(f.doc, f.indent, f.flat, width, st) == PutText(f.doc.kind.text, st)
    ensures f.doc.kind.Line? ==>
      Layout(f.doc, f.indent, f.flat, width, st) == Soft(f.doc.kind.flat, f.indent, f.flat, st)
    ensures f.doc.kind.Hard? ==> Layout(f.doc, f.indent, f.flat, width, st) == Break(f.indent, st)
    ensures f.doc.kind.Concat? ==>
      Layout(f.doc, f.indent, f.flat, width, st) == LayoutAll(f.doc.kind.docs, f.indent, f.flat, width, st)
    ensures f.doc.kind.Nest? ==>
      Layout(f.doc, f.indent, f.flat, width, st) == Layout(f.doc.kind.doc, f.indent + INDENT, f.flat, width, st)
    ensures f.doc.kind.Group? ==>
      (Layout(f.doc, f.indent, f.flat, width, st) ==
        Layout(f.doc.kind.doc, f.indent, f.flat || Fits(f.doc.kind.doc, width, st), width, st))
  {
  }

  lemma SizeStep(d: Doc)
    ensures Size(d) >= 1
    ensures d.kind.Concat? ==> Size(d) == 1 + SizeAll(d.kind.docs)
    ensures d.kind.Nest? || d.kind.Group? ==> Size(d) == 1 + Size(d.kind.doc)
  {
  }

  /** What rendering guarantees of a whole document. */
  lemma Rendered(d: Doc, width: nat)
    requires Built(d)
    ensures var now := Layout(d, 0, false, width, START);
      && PiecesIn(now.chunks) == Pieces(d) && (forall c :: c in now.chunks ==> OnlyWhite(c))
      && now.column == |Tail(Written(now.chunks))|
  {
    TextInOrder(d, 0, false, width, START);
    assert Written([]) == "";
    ColumnIsTrue(d, 0, false, width, START);
  }
}
