/** Registry of independent allocations owned by the nonmoving collector
    (direct_heap.rs): interval lookup, budgets, marks and sweeping. */
module DirectHeap {
  import opened Wrappers

  datatype Error = Overflow | Limit | Allocation | InvalidReference

  type Result<+T> = Wrappers.Result<T, Error>

  /** What the registry tells its callers about an allocation. */
  datatype Block = Block(address: nat, bytes: nat, descriptor: nat)

  /** `size` is the layout size: `bytes` padded to the alignment of eight. */
  datatype Owned = Owned(block: Block, size: nat, marked: bool)

  const ALIGN := 8

  function Padded(bytes: nat): (size: nat)
    ensures bytes <= size < bytes + ALIGN && size % ALIGN == 0
  {
    (bytes + ALIGN - 1) / ALIGN * ALIGN
  }

  predicate Holds(b: Block, address: nat) {
    b.address <= address < b.address + b.bytes
  }

  predicate Disjoint(a: Owned, b: Owned) {
    a.block.address + a.size <= b.block.address || b.block.address + b.size <= a.block.address
  }

  function Allocated(s: seq<Owned>): nat {
    if s == [] then 0 else Allocated(s[..|s| - 1]) + s[|s| - 1].block.bytes
  }

  function Storage(s: seq<Owned>): nat {
    if s == [] then 0 else Storage(s[..|s| - 1]) + s[|s| - 1].size
  }

  /** Every entry owns storage of its own. */
  predicate WellFormed(s: seq<Owned>) {
    && (forall i :: 0 <= i < |s| ==> 0 < s[i].block.bytes <= s[i].size)
    && (forall i, j :: 0 <= i < j < |s| ==> Disjoint(s[i], s[j]))
  }

  predicate Ascending(s: seq<Owned>) {
    forall i, j :: 0 <= i < j < |s| ==> s[i].block.address < s[j].block.address
  }

  ghost function Blocks(s: seq<Owned>): set<Block> {
    set o | o in s :: o.block
  }

  ghost function MarkedBlocks(s: seq<Owned>): set<Block> {
    set o | o in s && o.marked :: o.block
  }

  // ----- sums over the registry ---------------------------------------------

  lemma SumsAppend(s: seq<Owned>, o: Owned)
    ensures Allocated(s + [o]) == Allocated(s) + o.block.bytes
    ensures Storage(s + [o]) == Storage(s) + o.size
  {
    assert (s + [o])[..|s|] == s;
  }

  lemma {:induction false} SumsConcat(s: seq<Owned>, t: seq<Owned>)
    ensures Allocated(s + t) == Allocated(s) + Allocated(t)
    ensures Storage(s + t) == Storage(s) + Storage(t)
  {
    if t == [] {
      assert s + t == s;
    } else {
      var n := |t| - 1;
      SumsConcat(s, t[..n]);
      assert (s + t)[..|s + t| - 1] == s + t[..n];
    }
  }

  // ----- sorting by address -------------------------------------------------

  function Insert(s: seq<Owned>, o: Owned): (r: seq<Owned>)
    ensures multiset(r) == multiset(s) + multiset{o}
  {
    if s == [] || o.block.address < s[0].block.address then
      assert [o] + s == [o] + s; [o] + s
    else
      assert s == [s[0]] + s[1..]; [s[0]] + Insert(s[1..], o)
  }

  function Sorted(s: seq<Owned>): (r: seq<Owned>)
    ensures multiset(r) == multiset(s)
  {
    if s == [] then [] else
      assert s == s[..|s| - 1] + [s[|s| - 1]];
      Insert(Sorted(s[..|s| - 1]), s[|s| - 1])
  }

  lemma {:induction false} InsertSums(s: seq<Owned>, o: Owned)
    ensures Allocated(Insert(s, o)) == Allocated(s) + o.block.bytes
    ensures Storage(Insert(s, o)) == Storage(s) + o.size
  {
    if s == [] || o.block.address < s[0].block.address {
      SumsConcat([o], s);
      SumsAppend([], o);
      assert [] + [o] == [o];
    } else {
      InsertSums(s[1..], o);
      SumsConcat([s[0]], Insert(s[1..], o));
      SumsConcat([s[0]], s[1..]);
      assert s == [s[0]] + s[1..];
    }
  }

  lemma InsertMembers(s: seq<Owned>, o: Owned)
    ensures forall a :: a in Insert(s, o) <==> a in s || a == o
  {
    hide Insert;
    forall a
      ensures a in Insert(s, o) <==> a in s || a == o
    {
      assert a in Insert(s, o) <==> a in multiset(Insert(s, o));
      assert a in s <==> a in multiset(s);
    }
  }

  lemma Prepended(o: Owned, s: seq<Owned>)
    ensures WellFormed(s) && 0 < o.block.bytes <= o.size && (forall a :: a in s ==> Disjoint(o, a)) ==>
      WellFormed([o] + s)
    ensures Ascending(s) && (forall a :: a in s ==> o.block.address < a.block.address) ==> Ascending([o] + s)
  {
  }

  lemma Unprepended(s: seq<Owned>)
    requires s != []
    ensures WellFormed(s) ==> WellFormed(s[1..]) && 0 < s[0].block.bytes <= s[0].size && forall a :: a in s[1..] ==>
      Disjoint(s[0], a)
    ensures Ascending(s) ==> Ascending(s[1..]) && forall a :: a in s[1..] ==> s[0].block.address < a.block.address
  {
  }

  lemma DisjointSymmetric(a: Owned, b: Owned)
    ensures Disjoint(a, b) <==> Disjoint(b, a)
  {
  }

  lemma {:induction false} InsertAscending(s: seq<Owned>, o: Owned)
    requires Ascending(s) && forall a :: a in s ==> a.block.address != o.block.address
    ensures Ascending(Insert(s, o))
  {
    hide Ascending;
    if s == [] || o.block.address < s[0].block.address {
      if s != [] { Unprepended(s); }
      forall a | a in s
        ensures o.block.address < a.block.address
      {
        assert a == s[0] || a in s[1..];
      }
      Prepended(o, s);
    } else {
      Unprepended(s);
      InsertAscending(s[1..], o);
      InsertMembers(s[1..], o);
      Prepended(s[0], Insert(s[1..], o));
    }
  }

  lemma {:induction false} InsertWellFormed(s: seq<Owned>, o: Owned)
    requires WellFormed(s) && 0 < o.block.bytes <= o.size && forall a :: a in s ==> Disjoint(a, o)
    ensures WellFormed(Insert(s, o))
  {
    hide WellFormed, Disjoint;
    if s == [] || o.block.address < s[0].block.address {
      forall a | a in s
        ensures Disjoint(o, a)
      {
        DisjointSymmetric(a, o);
      }
      Prepended(o, s);
    } else {
      Unprepended(s);
      InsertWellFormed(s[1..], o);
      InsertMembers(s[1..], o);
      Prepended(s[0], Insert(s[1..], o));
    }
  }

  lemma SortedMembers(s: seq<Owned>, o: Owned)
    requires forall i :: 0 <= i < |s| ==> Disjoint(s[i], o) && 0 < s[i].block.bytes && 0 < o.block.bytes
    requires forall i :: 0 <= i < |s| ==> s[i].block.bytes <= s[i].size && o.block.bytes <= o.size
    ensures forall a :: a in Sorted(s) ==> Disjoint(a, o) && a.block.address != o.block.address
  {
    hide Sorted;
    forall a | a in Sorted(s)
      ensures Disjoint(a, o) && a.block.address != o.block.address
    {
      assert a in multiset(Sorted(s));
      assert a in s;
    }
  }

  lemma {:induction false} SortedCorrect(s: seq<Owned>)
    requires WellFormed(s)
    ensures Ascending(Sorted(s)) && WellFormed(Sorted(s))
    ensures Allocated(Sorted(s)) == Allocated(s) && Storage(Sorted(s)) == Storage(s)
  {
    hide Insert;
    if s != [] {
      var front, last := s[..|s| - 1], s[|s| - 1];
      SortedCorrect(front);
      InsertSums(Sorted(front), last);
      SortedMembers(front, last);
      InsertAscending(Sorted(front), last);
      InsertWellFormed(Sorted(front), last);
    }
  }

  lemma PermutedBlocks(s: seq<Owned>, t: seq<Owned>)
    requires multiset(s) == multiset(t)
    ensures Blocks(t) == Blocks(s) && |t| == |s| && MarkedBlocks(t) == MarkedBlocks(s)
  {
    forall o
      ensures o in t <==> o in s
    {
      assert o in multiset(t) <==> o in multiset(s);
    }
    assert |multiset(s)| == |s| && |multiset(t)| == |t|;
    assert Blocks(t) <= Blocks(s) && Blocks(s) <= Blocks(t);
    assert MarkedBlocks(t) <= MarkedBlocks(s) && MarkedBlocks(s) <= MarkedBlocks(t);
  }

  /** The block `b` became marked; `first` reports whether it was the first time. */
  ghost predicate Marked(s: seq<Owned>, t: seq<Owned>, b: Block, first: Option<Block>) {
    && MarkedBlocks(t) == MarkedBlocks(s) + {b}
    && first == if b in MarkedBlocks(s) then None else Some(b)
  }

  lemma EntryBlock(s: seq<Owned>, i: nat)
    requires i < |s|
    ensures s[i].block in Blocks(s)
    ensures s[i].marked ==> Marked(s, s, s[i].block, None)
  {
    assert s[i] in s;
    if s[i].marked {
      assert s[i].block in MarkedBlocks(s);
    }
  }

  /** An address lies in at most one block. */
  lemma OneHolder(s: seq<Owned>, a: Block, b: Block, address: nat)
    requires WellFormed(s) && a in Blocks(s) && b in Blocks(s) && Holds(a, address) && Holds(b, address)
    ensures a == b
  {
    var i :| 0 <= i < |s| && s[i].block == a;
    var j :| 0 <= j < |s| && s[j].block == b;
    var x, y := s[i], s[j];
    assert i != j ==> Disjoint(x, y) || Disjoint(y, x);
  }

  // ----- the registry -------------------------------------------------------

  /** `usize` of the target, as a bound on every byte count. */
  const MAX := 0xffff_ffff
  /** `isize` of the target: no block is larger, padding included. */
  const LARGEST := 0x7fff_ffff

  class Heap {
    /** Registry bytes per entry, as the target lays them out. */
    const width: nat
    var allocations: seq<Owned>
    var capacity: nat
    var sorted: bool
    var requested: nat
    var storage: nat
    var limit: nat

    ghost predicate Valid()
      reads this
    {
      && width > 0
      && WellFormed(allocations)
      && (sorted ==> Ascending(allocations))
      && requested == Allocated(allocations)
      && storage == Storage(allocations)
      && |allocations| <= capacity
      && storage + capacity * width <= limit <= MAX
    }

    constructor (width: nat, limit: nat)
      requires width > 0 && limit <= MAX
      ensures Valid() && allocations == [] && this.limit == limit && this.width == width
    {
      this.width := width;
      allocations, capacity, sorted, requested, storage, this.limit := [], 0, true, 0, 0, limit;
    }

    /** Lowering the limit below what is in use is refused. */
    method SetLimit(limit: nat) returns (r: Result<()>)
      requires Valid() && limit <= MAX
      modifies this`limit
      ensures Valid()
      ensures r == if storage + capacity * width > limit then Err(Limit) else Ok(())
      ensures this.limit == if r.Ok? then limit else old(this.limit)
    {
      if storage + capacity * width > MAX {
        return Err(Overflow);
      }
      if storage + capacity * width > limit {
        return Err(Limit);
      }
      this.limit := limit;
      return Ok(());
    }

    /** Makes room for one more entry, within the budget left by `storage`. */
    method ReserveRegistration(storage: nat, grow: bool) returns (r: Result<()>)
      requires Valid()
      modifies this`capacity
      ensures r.Ok? ==> |allocations| < capacity && storage + capacity * width <= limit
      ensures r.Err? ==> capacity == old(capacity)
      ensures capacity >= old(capacity)
      ensures r.Err? && grow ==> storage + Larger(old(capacity), |allocations| + 1) * width > limit
    {
      if limit < storage {
        return Err(Limit);
      }
      var available := (limit - storage) / width;
      Affordable(limit - storage, width);
      if capacity > available {
        return Err(Limit);
      }
      if |allocations| == capacity {
        var required := capacity + 1;
        if required > available {
          return Err(Limit);
        }
        var target := Smaller(Larger(capacity + Larger(capacity / 2, 4), required), available);
        if !grow {
          return Err(Allocation);
        }
        capacity := target;
      }
      return Ok(());
    }

    /** Registers a block of at least one byte. `grow` and `pointer` are what the
        system allocator answers: a fresh block disjoint from all owned ones. */
    method Allocate(bytes: nat, descriptor: nat, grow: bool, pointer: Result<nat>) returns (r: Result<nat>)
      requires Valid()
      requires pointer.Ok? ==> pointer.value > 0 && pointer.value % ALIGN == 0
      requires pointer.Ok? ==> forall o :: o in allocations ==>
        o.block.address + o.size <= pointer.value || pointer.value + Padded(Larger(bytes, 1)) <= o.block.address
      modifies this
      ensures Valid() && limit == old(limit)
      ensures r.Ok? ==> pointer == r
      ensures r.Ok? ==>
        allocations ==
          old(allocations) + [Owned(Block(r.value, Larger(bytes, 1), descriptor), Padded(Larger(bytes, 1)), false)]
      ensures r.Err? ==> allocations == old(allocations) && requested == old(requested) && storage == old(storage)
      ensures Padded(Larger(bytes, 1)) > LARGEST ==> r == Err(Overflow)
      ensures r.Err? && grow && pointer.Ok? ==>
        || Padded(Larger(bytes, 1)) > LARGEST
        || old(storage) + Padded(Larger(bytes, 1)) + Larger(old(capacity), |old(allocations)| + 1) * width > limit
    {
      hide Ascending, Allocated, Storage;
      var extent := Larger(bytes, 1);
      var size := Padded(extent);
      if size > LARGEST || storage + size > MAX {
        return Err(Overflow);
      }
      var room := ReserveRegistration(storage + size, grow);
      if room.Err? {
        return Err(room.error);
      }
      if pointer.Err? {
        return pointer;
      }
      var entry := Owned(Block(pointer.value, extent, descriptor), size, false);
      Registered(allocations, entry);
      allocations := allocations + [entry];
      storage := storage + size;
      requested := requested + extent;
      sorted := false;
      return pointer;
    }

    /** How many entries start at or before the address. */
    method PartitionPoint(address: nat) returns (lo: nat)
      requires Ascending(allocations)
      ensures lo <= |allocations|
      ensures forall i :: 0 <= i < lo ==> allocations[i].block.address <= address
      ensures forall i :: lo <= i < |allocations| ==> address < allocations[i].block.address
    {
      lo := 0;
      var hi := |allocations|;
      while lo < hi
        invariant 0 <= lo <= hi <= |allocations|
        invariant forall i :: 0 <= i < lo ==> allocations[i].block.address <= address
        invariant forall i :: hi <= i < |allocations| ==> address < allocations[i].block.address
      {
        var mid := lo + (hi - lo) / 2;
        if allocations[mid].block.address <= address { lo := mid + 1; } else { hi := mid; }
      }
    }

    /** The entry that holds an address, through any interior reference. */
    method Index(address: nat) returns (r: Result<nat>)
      requires Valid()
      modifies this`allocations, this`sorted
      ensures Valid() && multiset(allocations) == multiset(old(allocations))
      ensures Blocks(allocations) == Blocks(old(allocations))
      ensures r.Ok? ==> r.value < |allocations| && Holds(allocations[r.value].block, address)
      ensures r.Err? <==> (forall b :: b in Blocks(allocations) ==> !Holds(b, address))
      ensures r.Err? ==> r.error == InvalidReference
    {
      hide WellFormed, Blocks, Sorted, Ascending, Allocated, Storage;
      if !sorted {
        Resorted(allocations);
        allocations := Sorted(allocations);
        sorted := true;
      }
      var lo := PartitionPoint(address);
      Decided(allocations, lo, address);
      if lo == 0 || address - allocations[lo - 1].block.address >= allocations[lo - 1].block.bytes {
        return Err(InvalidReference);
      }
      return Ok(lo - 1);
    }

    method Lookup(address: nat) returns (r: Result<Block>)
      requires Valid()
      modifies this`allocations, this`sorted
      ensures Valid() && multiset(allocations) == multiset(old(allocations))
      ensures Blocks(allocations) == Blocks(old(allocations))
      ensures r.Ok? ==> r.value in Blocks(allocations) && Holds(r.value, address)
      ensures r.Ok? ==> forall b :: b in Blocks(allocations) && Holds(b, address) ==> b == r.value
      ensures r.Err? <==> (forall b :: b in Blocks(allocations) ==> !Holds(b, address))
    {
      hide WellFormed, Ascending, Allocated, Storage, Holds;
      var index := Index(address);
      if index.Err? {
        return Err(index.error);
      }
      var block := allocations[index.value].block;
      forall b | b in Blocks(allocations) && Holds(b, address)
        ensures b == block
      {
        OneHolder(allocations, b, block, address);
      }
      return Ok(block);
    }

    /** Marks the owner of an address; `None` means it was marked already. */
    method Mark(address: nat) returns (r: Result<Option<Block>>)
      requires Valid()
      modifies this`allocations, this`sorted
      ensures Valid() && Blocks(allocations) == Blocks(old(allocations))
      ensures r.Err? <==> (forall b :: b in Blocks(allocations) ==> !Holds(b, address))
      ensures r.Err? ==> MarkedBlocks(allocations) == MarkedBlocks(old(allocations))
      ensures r.Ok? ==>
        exists b :: b in Blocks(allocations) && Holds(b, address) && Marked(old(allocations), allocations, b, r.value)
    {
      hide WellFormed, Ascending, Allocated, Storage, Holds, Blocks, MarkedBlocks;
      var index := Index(address);
      PermutedBlocks(old(allocations), allocations);
      if index.Err? {
        return Err(index.error);
      }
      var i := index.value;
      var entry := allocations[i];
      EntryBlock(allocations, i);
      if entry.marked {
        return Ok(None);
      }
      Remarked(allocations, i);
      allocations := allocations[i := entry.(marked := true)];
      return Ok(Some(entry.block));
    }

    /** Releases every unmarked block, in registry order, and clears the marks of
        the others. */
    method Sweep() returns (released: seq<Block>)
      requires Valid()
      modifies this`allocations, this`requested, this`storage
      ensures Valid() && allocations == Kept(old(allocations)) && released == Dropped(old(allocations))
    {
      hide WellFormed, Ascending, Allocated, Storage, Kept, Dropped;
      released := [];
      var kept: seq<Owned> := [];
      var i := 0;
      SweepDone(allocations);
      while i < |allocations|
        invariant 0 <= i <= |allocations| && allocations == old(allocations)
        invariant kept == Kept(allocations[..i]) && released == Dropped(allocations[..i])
        invariant requested == Allocated(kept) + Allocated(allocations[i..])
        invariant storage == Storage(kept) + Storage(allocations[i..]) && storage <= old(storage)
      {
        var o := allocations[i];
        SweepOne(allocations, i);
        if o.marked {
          SumsAppend(kept, o.(marked := false));
          kept := kept + [o.(marked := false)];
        } else {
          released := released + [o.block];
          requested := requested - o.block.bytes;
          storage := storage - o.size;
        }
        i := i + 1;
      }
      assert allocations[..i] == allocations;
      KeptFits(allocations);
      allocations := kept;
    }

    /** The end of a collection (heap.rs sweep): marks the owner of every dynamic
        reference, then sweeps. Exactly the blocks that hold one survive. */
    method Reclaim(references: set<nat>, origin: nat, top: nat) returns (released: seq<Block>)
      requires Valid() && MarkedBlocks(allocations) == {}
      requires forall r :: r in references && origin <= r < top ==> exists b :: b in Blocks(allocations) && Holds(b, r)
      modifies this
      ensures Valid() && MarkedBlocks(allocations) == {} && capacity == old(capacity) && limit == old(limit)
      ensures forall b :: b in Blocks(allocations) <==>
        b in Blocks(old(allocations)) && Held(b, references, origin, top)
      ensures forall b ::
        multiset(released)[b] == (if b in Blocks(old(allocations)) && !Held(b, references, origin, top) then 1 else 0)
    {
      hide WellFormed, Ascending, Allocated, Storage, Blocks, MarkedBlocks, Holds;
      var rest := references;
      while rest != {}
        invariant rest <= references
        invariant Valid() && Blocks(allocations) == Blocks(old(allocations)) && capacity == old(capacity)
        invariant limit == old(limit)
        invariant forall b :: b in MarkedBlocks(allocations) <==>
          b in Blocks(allocations) && Held(b, references - rest, origin, top)
        decreases rest
      {
        var r :| r in rest;
        HeldNext(references - rest, r, origin, top);
        assert references - (rest - {r}) == references - rest + {r};
        if origin <= r < top {
          ghost var s := allocations;
          ghost var holder :| holder in Blocks(s) && Holds(holder, r);
          var marked := Mark(r);
          ghost var b :| b in Blocks(allocations) && Holds(b, r) && Marked(s, allocations, b, marked.value);
          OnlyHolder(allocations, b, r);
        }
        rest := rest - {r};
      }
      assert references - rest == references;
      SweepExact(allocations);
      MarkedSome(allocations);
      released := Sweep();
    }
  }

  /** Some dynamic reference points into the block. */
  predicate Held(b: Block, references: set<nat>, origin: nat, top: nat) {
    exists r :: r in references && origin <= r < top && Holds(b, r)
  }

  lemma HeldNext(references: set<nat>, r: nat, origin: nat, top: nat)
    ensures forall b :: Held(b, references + {r}, origin, top) <==>
      Held(b, references, origin, top) || (origin <= r < top && Holds(b, r))
  {
    hide Holds;
    forall b
      ensures Held(b, references + {r}, origin, top) <==>
        Held(b, references, origin, top) || (origin <= r < top && Holds(b, r))
    {
      assert r in references + {r};
    }
  }

  lemma OnlyHolder(s: seq<Owned>, b: Block, address: nat)
    requires WellFormed(s) && b in Blocks(s) && Holds(b, address)
    ensures forall a :: a in Blocks(s) && Holds(a, address) ==> a == b
  {
    hide WellFormed, Blocks, Holds;
    forall a | a in Blocks(s) && Holds(a, address)
      ensures a == b
    {
      OneHolder(s, a, b, address);
    }
  }

  lemma MarkedSome(s: seq<Owned>)
    requires WellFormed(s)
    ensures forall b :: multiset(Dropped(s))[b] == if b in Blocks(s) && b !in MarkedBlocks(s) then 1 else 0
  {
    hide WellFormed, Blocks, MarkedBlocks, Dropped;
    SweepExact(s);
    forall b
      ensures multiset(Dropped(s))[b] == if b in Blocks(s) && b !in MarkedBlocks(s) then 1 else 0
    {
      assert b in Dropped(s) <==> b in multiset(Dropped(s));
    }
  }

  /** Survivors of a sweep, in order, unmarked. */
  function Kept(s: seq<Owned>): seq<Owned> {
    if s == [] then []
    else
      var last := s[|s| - 1];
      if last.marked then Kept(s[..|s| - 1]) + [last.(marked := false)] else Kept(s[..|s| - 1])
  }

  /** Blocks released by a sweep, in order. */
  function Dropped(s: seq<Owned>): seq<Block> {
    if s == [] then []
    else
      var last := s[|s| - 1];
      if last.marked then Dropped(s[..|s| - 1]) else Dropped(s[..|s| - 1]) + [last.block]
  }

  lemma SweepDone(s: seq<Owned>)
    ensures Kept(s[..0]) == [] && Dropped(s[..0]) == []
    ensures Allocated([]) == 0 && Storage([]) == 0 && s[0..] == s && s[|s|..] == []
  {
  }

  lemma SweepOne(s: seq<Owned>, i: nat)
    requires i < |s|
    ensures Kept(s[..i + 1]) == if s[i].marked then Kept(s[..i]) + [s[i].(marked := false)] else Kept(s[..i])
    ensures Dropped(s[..i + 1]) == if s[i].marked then Dropped(s[..i]) else Dropped(s[..i]) + [s[i].block]
    ensures Allocated(s[i..]) == s[i].block.bytes + Allocated(s[i + 1..])
    ensures Storage(s[i..]) == s[i].size + Storage(s[i + 1..])
  {
    assert s[..i + 1][..i] == s[..i];
    assert s[i..] == [s[i]] + s[i + 1..];
    SumsConcat([s[i]], s[i + 1..]);
    assert [s[i]] == [] + [s[i]];
    SumsAppend([], s[i]);
  }

  /** A survivor is an old entry without its mark. */
  lemma {:induction false} KeptFrom(s: seq<Owned>, o: Owned) returns (k: nat)
    requires o in Kept(s)
    ensures k < |s| && s[k] == o.(marked := true) && !o.marked
  {
    var front, last := s[..|s| - 1], s[|s| - 1];
    if last.marked && o == last.(marked := false) {
      k := |s| - 1;
    } else {
      k := KeptFrom(front, o);
    }
  }

  lemma {:induction false} KeptFits(s: seq<Owned>)
    requires WellFormed(s)
    ensures WellFormed(Kept(s)) && |Kept(s)| <= |s| && (Ascending(s) ==> Ascending(Kept(s)))
  {
    if s != [] {
      hide WellFormed, Ascending;
      var front, last := s[..|s| - 1], s[|s| - 1].(marked := false);
      FrontWellFormed(s);
      KeptFits(front);
      forall o | o in Kept(front)
        ensures Disjoint(o, last) && (Ascending(s) ==> o.block.address < last.block.address)
      {
        var k := KeptFrom(front, o);
        BeforeLast(s, k);
      }
      Registered(Kept(front), last);
      AscendingAppend(Kept(front), last);
    } else {
      assert Kept(s) == s;
    }
  }

  lemma BeforeLast(s: seq<Owned>, k: nat)
    requires WellFormed(s) && k < |s| - 1
    ensures Disjoint(s[k], s[|s| - 1]) && (Ascending(s) ==> s[k].block.address < s[|s| - 1].block.address)
  {
  }

  lemma AscendingAppend(s: seq<Owned>, o: Owned)
    ensures Ascending(s) && (forall a :: a in s ==> a.block.address < o.block.address) ==> Ascending(s + [o])
  {
  }

  lemma LastApart(s: seq<Owned>)
    requires WellFormed(s) && s != []
    ensures s[|s| - 1].block !in Blocks(s[..|s| - 1])
    ensures Blocks(s) == Blocks(s[..|s| - 1]) + {s[|s| - 1].block}
    ensures MarkedBlocks(s) == MarkedBlocks(s[..|s| - 1]) + (if s[|s| - 1].marked then {s[|s| - 1].block} else {})
    ensures MarkedBlocks(s) <= Blocks(s)
  {
    hide WellFormed, Blocks, MarkedBlocks;
    var n := |s| - 1;
    assert s == s[..n] + [s[n]];
    BlocksAppend(s[..n], s[n]);
    FrontMarked(s);
    LastNew(s);
  }

  lemma LastNew(s: seq<Owned>)
    requires WellFormed(s) && s != []
    ensures s[|s| - 1].block !in Blocks(s[..|s| - 1])
  {
    hide WellFormed, MarkedBlocks;
    var n := |s| - 1;
    forall b | b in Blocks(s[..n])
      ensures b != s[n].block
    {
      var k :| 0 <= k < n && s[k].block == b;
      SamePlaceNot(s, k, n);
    }
  }

  lemma SamePlaceNot(s: seq<Owned>, i: nat, k: nat)
    requires WellFormed(s) && i < k < |s|
    ensures s[i].block != s[k].block
  {
    assert Disjoint(s[i], s[k]);
  }

  lemma BlocksAppend(s: seq<Owned>, o: Owned)
    ensures Blocks(s + [o]) == Blocks(s) + {o.block}
    ensures MarkedBlocks(s + [o]) == MarkedBlocks(s) + (if o.marked then {o.block} else {})
  {
  }

  /** A sweep keeps exactly the marked blocks and releases every other one
      exactly once. */
  lemma {:induction false} SweepExact(s: seq<Owned>)
    requires WellFormed(s)
    ensures Blocks(Kept(s)) == MarkedBlocks(s) && MarkedBlocks(Kept(s)) == {}
    ensures forall b :: b in Dropped(s) <==> b in Blocks(s) && b !in MarkedBlocks(s)
    ensures forall b :: multiset(Dropped(s))[b] <= 1
  {
    if s != [] {
      hide WellFormed, Blocks, MarkedBlocks;
      var front, last := s[..|s| - 1], s[|s| - 1];
      FrontWellFormed(s);
      SweepExact(front);
      LastApart(s);
      BlocksAppend(Kept(front), last.(marked := false));
      FrontMarked(front);
    } else {
      assert Blocks(s) == {} && MarkedBlocks(s) == {};
    }
  }

  lemma FrontWellFormed(s: seq<Owned>)
    requires WellFormed(s) && s != []
    ensures WellFormed(s[..|s| - 1]) && (Ascending(s) ==> Ascending(s[..|s| - 1]))
    ensures 0 < s[|s| - 1].block.bytes <= s[|s| - 1].size
  {
  }

  lemma FrontMarked(s: seq<Owned>)
    ensures MarkedBlocks(s) <= Blocks(s)
  {
  }

  function Larger(x: nat, y: nat): nat { if x < y then y else x }

  function Smaller(x: nat, y: nat): nat { if x < y then x else y }

  lemma Registered(s: seq<Owned>, o: Owned)
    requires WellFormed(s) && 0 < o.block.bytes <= o.size
    requires forall a :: a in s ==> Disjoint(a, o)
    ensures WellFormed(s + [o])
    ensures Allocated(s + [o]) == Allocated(s) + o.block.bytes && Storage(s + [o]) == Storage(s) + o.size
  {
    SumsAppend(s, o);
  }

  lemma Resorted(s: seq<Owned>)
    requires WellFormed(s)
    ensures var t := Sorted(s); WellFormed(t) && Ascending(t) && |t| == |s| && Blocks(t) == Blocks(s)
    ensures var t := Sorted(s); Allocated(t) == Allocated(s) && Storage(t) == Storage(s) && multiset(t) == multiset(s)
  {
    hide Sorted, WellFormed, Ascending;
    SortedCorrect(s);
    PermutedBlocks(s, Sorted(s));
  }

  /** With entries below `lo` starting at or before the address and the others
      after it, only the entry before `lo` can hold it. */
  lemma LastHolder(s: seq<Owned>, lo: nat, address: nat, i: nat)
    requires WellFormed(s) && Ascending(s) && lo <= |s|
    requires forall i :: lo <= i < |s| ==> address < s[i].block.address
    requires i < |s| && Holds(s[i].block, address)
    requires forall i :: 0 <= i < lo ==> s[i].block.address <= address
    ensures lo > 0 && i == lo - 1
  {
    assert i < lo - 1 ==> Disjoint(s[i], s[lo - 1]);
  }

  lemma Decided(s: seq<Owned>, lo: nat, address: nat)
    requires WellFormed(s) && Ascending(s) && lo <= |s|
    requires forall i :: 0 <= i < lo ==> s[i].block.address <= address
    requires forall i :: lo <= i < |s| ==> address < s[i].block.address
    ensures (lo > 0 && Holds(s[lo - 1].block, address)) <==> (exists b :: b in Blocks(s) && Holds(b, address))
  {
    hide WellFormed, Ascending;
    if b :| b in Blocks(s) && Holds(b, address) {
      var i :| 0 <= i < |s| && s[i].block == b;
      LastHolder(s, lo, address, i);
    }
    if lo > 0 {
      EntryBlock(s, lo - 1);
    }
  }

  /** Setting one mark changes nothing but that mark. */
  lemma Remarked(s: seq<Owned>, i: nat)
    requires WellFormed(s) && i < |s| && !s[i].marked
    ensures var t := s[i := s[i].(marked := true)];
      && WellFormed(t) && (Ascending(s) ==> Ascending(t)) && Blocks(t) == Blocks(s)
      && Allocated(t) == Allocated(s) && Storage(t) == Storage(s)
      && Marked(s, t, s[i].block, Some(s[i].block))
  {
    hide Blocks, MarkedBlocks, Allocated, Storage;
    RemarkedSums(s, i);
    RemarkedBlocks(s, i);
  }

  lemma RemarkedSums(s: seq<Owned>, i: nat)
    requires i < |s|
    ensures var t := s[i := s[i].(marked := true)]; Allocated(t) == Allocated(s) && Storage(t) == Storage(s)
  {
    var o := s[i].(marked := true);
    assert s == s[..i] + ([s[i]] + s[i + 1..]) && s[i := o] == s[..i] + ([o] + s[i + 1..]);
    SumsConcat(s[..i], [s[i]] + s[i + 1..]);
    SumsConcat(s[..i], [o] + s[i + 1..]);
    SumsConcat([s[i]], s[i + 1..]);
    SumsConcat([o], s[i + 1..]);
    assert [s[i]][..0] == [] && [o][..0] == [];
  }

  lemma RemarkedBlocks(s: seq<Owned>, i: nat)
    requires WellFormed(s) && i < |s| && !s[i].marked
    ensures var t := s[i := s[i].(marked := true)]; Blocks(t) == Blocks(s) && Marked(s, t, s[i].block, Some(s[i].block))
  {
    hide WellFormed;
    var t := s[i := s[i].(marked := true)];
    SameBlocks(s, t);
    forall b
      ensures b in MarkedBlocks(t) <==> b in MarkedBlocks(s) || b == s[i].block
    {
      if b in MarkedBlocks(t) {
        var k :| 0 <= k < |t| && t[k].marked && t[k].block == b;
        if k != i { assert s[k] in s; }
      }
      if b in MarkedBlocks(s) {
        var k :| 0 <= k < |s| && s[k].marked && s[k].block == b;
        assert t[k] in t && t[k].marked;
      }
      assert t[i] in t;
    }
    if s[i].block in MarkedBlocks(s) {
      var k :| 0 <= k < |s| && s[k].marked && s[k].block == s[i].block;
      SamePlace(s, i, k);
    }
  }

  lemma SamePlace(s: seq<Owned>, i: nat, k: nat)
    requires WellFormed(s) && i < |s| && k < |s| && s[i].block == s[k].block
    ensures i == k
  {
    var x, y := s[i], s[k];
    assert i != k ==> Disjoint(x, y) || Disjoint(y, x);
  }

  lemma SameBlocks(s: seq<Owned>, t: seq<Owned>)
    requires |s| == |t| && forall k :: 0 <= k < |s| ==> s[k].block == t[k].block
    ensures Blocks(s) == Blocks(t)
  {
    forall b
      ensures b in Blocks(s) <==> b in Blocks(t)
    {
      if b in Blocks(s) {
        var k :| 0 <= k < |s| && s[k].block == b;
        assert t[k] in t;
      }
      if b in Blocks(t) {
        var k :| 0 <= k < |t| && t[k].block == b;
        assert s[k] in s;
      }
    }
  }

  /** How many entries a budget pays for. */
  lemma Affordable(budget: nat, width: nat)
    requires width > 0
    ensures forall n: nat :: n <= budget / width <==> n * width <= budget
  {
    var most := budget / width;
    assert budget == most * width + budget % width;
    forall n: nat
      ensures n <= most <==> n * width <= budget
    {
      Ordered(n, most, width);
      Ordered(most + 1, n, width);
    }
  }

  lemma Ordered(n: nat, m: nat, width: nat)
    ensures n <= m ==> n * width <= m * width
  {
    if n <= m {
      assert m * width == n * width + (m - n) * width;
    }
  }
}
