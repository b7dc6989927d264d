/** What a finished copy is, word by word: every word that the image calls a
    reference points where its target is now, and every other word is what it
    was. */
module CopiedWords {
  import opened HeapGraph
  import opened CopyRelation
  import opened CopyMeaning
  import opened ReferenceWords

  /** The copy of the slot `s`, which is at `now`, designates the copy of what `s`
      designated; static storage stays where it is. */
  ghost predicate Follows(src: Source, c: Copy, s: Node, now: Addr) {
    var p, q := At(src.from, s.at), At(c.heap, now);
    match s
    case Ref(e, _) => if p < src.origin then q == p else Linked(c, Value(e, p), q)
    case Handle(t, _) => if p < src.origin then q == p else Linked(c, Object(t, p), q)
    case Raw(_) =>
      p in src.from.raws && q in c.heap.raws && src.from.raws[p].len <= |src.from.raws[p].bytes|
      && if p < src.origin then q == p && c.heap.raws[q] == src.from.raws[p]
         else c.heap.raws[q].bytes == src.from.raws[p].bytes[..src.from.raws[p].len]
    case Owned(words, _) => if words == 0 then q == 0 else forall k :: 0 <= k < words ==> SameWord(src, c, p, q, k)
    case Slot(tag, _) =>
      HasCell(src.from, tag, p) && HasCell(c.heap, tag, q) &&
      var was, copy := Cells(src.from, tag)[p], Cells(c.heap, tag)[q];
      && copy.words == was.words
      && if tag == 3 then copy.payload == was.payload else Linked(c, Packet(tag, was.words, was.payload), copy.payload)
    case _ => false
  }

  ghost predicate SameWord(src: Source, c: Copy, p: Addr, q: Addr, k: int) {
    At(c.heap, q + k) == At(src.from, p + k)
  }

  /** Where the copy of a slot of `n` is, when the copy of `n` is at `at`: elements
      of an array follow their header. */
  function Place(src: Source, n: Node, at: Addr, s: Node): Addr {
    if n.Object? && n.table == Arrays then at + 4 + (s.at - At(src.from, n.at + 1)) else at + (s.at - n.at)
  }

  /** The elements of an array, as its header describes them. */
  function Elements(src: Source, a: Addr): Node {
    Elems(EntryOf(src.img, At(src.from, a)), Max0(At(src.from, a + 2)), At(src.from, a + 1))
  }

  /** Every reference in the copy of `n` is right, and every other word the same. */
  ghost predicate Exact(src: Source, c: Copy, n: Node, at: Addr) {
    && (forall s :: Holds(src.img, src.from, n, s) ==> Follows(src, c, s, Place(src, n, at, s)))
    && if n.Object? && n.table == Arrays then
         && At(c.heap, at) == At(src.from, n.at) && At(c.heap, at + 1) == at + 4
         && At(c.heap, at + 2) == At(src.from, n.at + 2)
         && Linked(c, Elements(src, n.at), at + 4)
       else forall k :: 0 <= k < Size(src.from, n) && NoReference(src, n, k) ==> SameWord(src, c, n.at, at, k)
  }

  ghost predicate NoReference(src: Source, n: Node, k: int) {
    forall s :: Holds(src.img, src.from, n, s) ==> s.at != n.at + k
  }

  // ----- slots --------------------------------------------------------------------

  lemma CompleteFits(src: Source, c: Copy)
    requires Complete(src, c)
    ensures Fitting(src.img, src.from, src.ty.nodes) && src.origin > 0
    ensures forall n, at :: Linked(c, n, at) ==> n in src.ty.nodes
  {
    hide NodesFit, PartsTyped, TargetsTyped, AllDone, TodoFresh, TodoApart, Present, RawsDone, TablesDone, StaticRaws;
  }

  lemma SlotFollows(src: Source, c: Copy, s: Node, now: Addr)
    requires Complete(src, c) && Linked(c, s, now) && IsSlot(s)
    ensures Follows(src, c, s, now)
  {
    hide At, Complete, Linked, Cells;
    match s
    case Ref(_, _) => ReferenceFollows(src, c, s, now);
    case Handle(_, _) => ReferenceFollows(src, c, s, now);
    case Raw(a) => RawFollows(src, c, a, now);
    case Owned(words, a) => OwnedFollows(src, c, words, a, now);
    case Slot(tag, a) => KeptSlot(src, c, tag, a, now); CellFollows(src, c, tag, a, now);
  }

  lemma ReferenceFollows(src: Source, c: Copy, s: Node, now: Addr)
    requires Complete(src, c) && Linked(c, s, now) && (s.Ref? || s.Handle?)
    ensures Follows(src, c, s, now)
  {
    hide At, Complete, Linked;
    SlotKept(src, c, s, now);
    if At(src.from, s.at) >= src.origin {
      ReferentLinked(src, c, s, now);
    }
  }

  lemma RawFollows(src: Source, c: Copy, a: Addr, now: Addr)
    requires Complete(src, c) && Linked(c, Raw(a), now)
    ensures Follows(src, c, Raw(a), now)
  {
    hide At, Packed, Parts, Size, Typed, TodoApart, TodoFresh, Present, PlainDone, ArrayDone, TablesDone;
    NodeFits(src, c, Raw(a), now);
    assert Done(src, c, Link(Raw(a), now));
    assert SlotDone(src, c, Link(Raw(a), now));
  }

  lemma CellFollows(src: Source, c: Copy, tag: nat, a: Addr, now: Addr)
    requires HasCell(src.from, tag, At(src.from, a)) && HasCell(c.heap, tag, At(c.heap, now))
    requires CellDone(src, c, tag, Cells(src.from, tag)[At(src.from, a)], Cells(c.heap, tag)[At(c.heap, now)])
    ensures Follows(src, c, Slot(tag, a), now)
  {
    hide At, Cells;
  }

  lemma OwnedFollows(src: Source, c: Copy, words: nat, a: Addr, now: Addr)
    requires Complete(src, c) && Linked(c, Owned(words, a), now)
    ensures Follows(src, c, Owned(words, a), now)
  {
    hide At, Complete, Linked, WordsAt;
    if words == 0 {
      NothingOwned(src, c, a, now);
    } else {
      var p, q := At(src.from, a), At(c.heap, now);
      OwnedKept(src, c, words, a, now);
      forall k | 0 <= k < words
        ensures SameWord(src, c, p, q, k)
      {
        BlobWord(src, c, words, p, q, k);
      }
    }
  }

  lemma NothingOwned(src: Source, c: Copy, a: Addr, now: Addr)
    requires Complete(src, c) && Linked(c, Owned(0, a), now)
    ensures At(c.heap, now) == 0
  {
    hide At, Packed, Parts, Size, Typed, TodoApart, TodoFresh, Present, PlainDone, ArrayDone, TablesDone, RawsDone;
    assert Done(src, c, Link(Owned(0, a), now));
    assert SlotDone(src, c, Link(Owned(0, a), now));
  }

  lemma BlobWord(src: Source, c: Copy, words: nat, p: Addr, q: Addr, k: nat)
    requires Complete(src, c) && Linked(c, Blob(words, p), q) && k < words
    ensures SameWord(src, c, p, q, k)
  {
    hide At, Complete, Linked;
    WordKept(src, c, Blob(words, p), q, k);
  }

  // ----- references ----------------------------------------------------------------

  lemma {:induction false} FoundLinked(src: Source, c: Copy, n: Node, at: Addr, s: Node, steps: nat)
    requires Complete(src, c) && Linked(c, n, at) && Found(src.img, src.from, n, s, steps)
    ensures Linked(c, s, Place(src, n, at, s)) && IsSlot(s)
    decreases steps
  {
    hide At, Complete, Linked, Parts, Backing;
    if IsSlot(n) {
    } else if IsArray(n) {
      BackingLinked(src, c, n.at, at);
      FoundLinked(src, c, Backing(src.img, src.from, n.at), at + 4, s, steps - 1);
    } else {
      var p :| p in Parts(src.img, src.from, n) && Found(src.img, src.from, p, s, steps - 1);
      var i :| 0 <= i < |Parts(src.img, src.from, n)| && p == Parts(src.img, src.from, n)[i];
      PartLinked(src, c, n, at, i);
      PartKinds(src.img, src.from, n, i);
      FoundLinked(src, c, p, at + (p.at - n.at), s, steps - 1);
    }
  }

  lemma BackingLinked(src: Source, c: Copy, a: Addr, at: Addr)
    requires Complete(src, c) && Linked(c, Object(Arrays, a), at)
    ensures var b := Backing(src.img, src.from, a);
      b.Elems? && b.at == At(src.from, a + 1) && Linked(c, b, at + 4)
      && b == Elements(src, a)
    ensures At(c.heap, at) == At(src.from, a) && At(c.heap, at + 1) == at + 4
    ensures At(c.heap, at + 2) == At(src.from, a + 2)
  {
    hide At, Packed, Parts, Size, Typed, TodoApart, TodoFresh, Present, PlainDone, SlotDone, TablesDone, RawsDone;
    assert Done(src, c, Link(Object(Arrays, a), at));
    assert ArrayDone(src, c, Link(Object(Arrays, a), at));
  }

  // ----- all other words -------------------------------------------------------------

  lemma {:induction false} OtherWord(src: Source, c: Copy, n: Node, at: Addr, k: nat)
    requires Complete(src, c) && Linked(c, n, at) && !IsSlot(n) && !IsArray(n)
    requires k < Size(src.from, n) && NoReference(src, n, k)
    ensures SameWord(src, c, n.at, at, k)
    decreases Size(src.from, n), Rank(n)
  {
    hide At, Complete, Linked, Parts, Size, Holds, Fitting, ValidNode;
    if i :| 0 <= i < |Parts(src.img, src.from, n)| && InPart(src, n, i, k) {
      var p := Parts(src.img, src.from, n)[i];
      CompleteFits(src, c);
      PartLinked(src, c, n, at, i);
      PartKinds(src.img, src.from, n, i);
      NoneInPart(src, n, p, k);
      PartSmaller(src, c, n, at, i);
      if IsSlot(p) {
        SlotAlone(src, p);
      } else {
        OtherWord(src, c, p, at + (p.at - n.at), k - (p.at - n.at));
      }
    } else {
      forall p | p in Parts(src.img, src.from, n)
        ensures !(p.at <= n.at + k < p.at + Size(src.from, p))
      {
        var i :| 0 <= i < |Parts(src.img, src.from, n)| && p == Parts(src.img, src.from, n)[i];
        assert !InPart(src, n, i, k);
      }
      WordKept(src, c, n, at, k);
    }
  }

  predicate InPart(src: Source, n: Node, i: nat, k: int)
    requires i < |Parts(src.img, src.from, n)|
  {
    var p := Parts(src.img, src.from, n)[i];
    p.at <= n.at + k < p.at + Size(src.from, p)
  }

  lemma SlotAlone(src: Source, p: Node)
    requires IsSlot(p)
    ensures Size(src.from, p) == 1 && Holds(src.img, src.from, p, p)
  {
    hide At, EntryOf;
    assert Inside(src.img, src.from, p, p, 0);
  }

  /** A part holds nothing that its node does not. */
  lemma NoneInPart(src: Source, n: Node, p: Node, k: nat)
    requires Fitting(src.img, src.from, src.ty.nodes) && n in src.ty.nodes && p in Parts(src.img, src.from, n)
    requires NoReference(src, n, k)
    ensures NoReference(src, p, n.at + k - p.at)
  {
    hide Fitting, Parts, Inside, ValidNode;
    NodeFitting(src.img, src.from, src.ty.nodes, n);
    forall s | Holds(src.img, src.from, p, s)
      ensures s.at != n.at + k
    {
      var depth: nat :| Inside(src.img, src.from, p, s, depth);
      PartHeld(src.img, src.from, n, p, s, depth);
      assert Holds(src.img, src.from, n, s);
    }
  }

  /** Parts lie inside their node, and going down ends. */
  lemma PartSmaller(src: Source, c: Copy, n: Node, at: Addr, i: nat)
    requires Complete(src, c) && Linked(c, n, at) && !IsSlot(n) && !IsArray(n) && i < |Parts(src.img, src.from, n)|
    ensures var p := Parts(src.img, src.from, n)[i];
      && n.at <= p.at && p.at + Size(src.from, p) <= n.at + Size(src.from, n)
      && (Size(src.from, p) < Size(src.from, n) || (Size(src.from, p) == Size(src.from, n) && Rank(p) < Rank(n)))
  {
    hide At, Complete, Linked, Parts, Size;
    NodeFits(src, c, n, at);
    PartLater(src, n, i);
    PartRank(src.img, src.from, n, Parts(src.img, src.from, n)[i]);
  }

  lemma PartLater(src: Source, n: Node, i: nat)
    requires ValidNode(src.img, src.from, n) && !IsSlot(n) && !IsArray(n) && i < |Parts(src.img, src.from, n)|
    requires Packed(src.from, Parts(src.img, src.from, n), n.at, n.at + Size(src.from, n))
    ensures var p := Parts(src.img, src.from, n)[i];
      Rank(p) < Rank(n) || p.at > n.at || Size(src.from, p) < Size(src.from, n)
  {
    hide At, EntryOf, InnerOf;
  }

  // ----- the whole copy ----------------------------------------------------------------

  /** Each piece of storage in a finished copy: the references that the image says it
      holds are right, and nothing else has changed. */
  lemma CopiedExactly(src: Source, c: Copy, n: Node, at: Addr)
    requires Complete(src, c) && Linked(c, n, at) && !IsSlot(n)
    ensures Exact(src, c, n, at)
  {
    hide At, Complete, Linked, Parts, Size, Holds, Fitting, Follows, Found, NoReference;
    CompleteFits(src, c);
    forall s | Holds(src.img, src.from, n, s)
      ensures Follows(src, c, s, Place(src, n, at, s))
    {
      ScannerExact(src.img, src.from, src.ty.nodes, n, s);
      var steps: nat :| Found(src.img, src.from, n, s, steps);
      FoundLinked(src, c, n, at, s, steps);
      SlotFollows(src, c, s, Place(src, n, at, s));
    }
    if IsArray(n) {
      BackingLinked(src, c, n.at, at);
    } else {
      forall k | 0 <= k < Size(src.from, n) && NoReference(src, n, k)
        ensures SameWord(src, c, n.at, at, k)
      {
        OtherWord(src, c, n, at, k);
      }
    }
  }
}
