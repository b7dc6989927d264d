/** Column maps (column_map.rs): append-only key and value columns behind a sorted
    index, as a finite map up to the comparator's equivalence; and the built-in
    orders (values.rs). */
module ColumnMap {
  import opened Wrappers

  datatype Pair<K, V> = Pair(key: K, value: V)

  // ----- orders -------------------------------------------------------------------

  function Sign(c: int): int {
    if c < 0 then -1 else if c > 0 then 1 else 0
  }

  /** A total order up to equivalence: comparing to zero means equivalent. */
  ghost predicate TotalOrder<K(!new)>(cmp: (K, K) -> int) {
    && (forall a, b :: Sign(cmp(a, b)) == -Sign(cmp(b, a)))
    && (forall a, b, c :: cmp(a, b) <= 0 && cmp(b, c) <= 0 ==> cmp(a, c) <= 0)
  }

  lemma OrderFacts<K(!new)>(cmp: (K, K) -> int, a: K, b: K, c: K)
    requires TotalOrder(cmp)
    ensures cmp(a, a) == 0
    ensures cmp(a, b) < 0 && cmp(b, c) <= 0 ==> cmp(a, c) < 0
    ensures cmp(a, b) <= 0 && cmp(b, c) < 0 ==> cmp(a, c) < 0
    ensures cmp(a, b) == 0 ==> Sign(cmp(a, c)) == Sign(cmp(b, c)) && Sign(cmp(c, a)) == Sign(cmp(c, b))
  {
    assert Sign(cmp(a, a)) == -Sign(cmp(a, a));
    assert Sign(cmp(a, b)) == -Sign(cmp(b, a));
    assert Sign(cmp(b, c)) == -Sign(cmp(c, b));
    assert Sign(cmp(a, c)) == -Sign(cmp(c, a));
    assert cmp(c, a) <= 0 && cmp(a, b) <= 0 ==> cmp(c, b) <= 0;
    assert cmp(b, c) <= 0 && cmp(c, a) <= 0 ==> cmp(b, a) <= 0;
    assert cmp(b, a) <= 0 && cmp(a, c) <= 0 ==> cmp(b, c) <= 0;
    assert cmp(c, b) <= 0 && cmp(b, a) <= 0 ==> cmp(c, a) <= 0;
    assert cmp(a, c) <= 0 && cmp(c, b) <= 0 ==> cmp(a, b) <= 0;
  }

  function CompareInts(a: int, b: int): int {
    (if a > b then 1 else 0) - (if a < b then 1 else 0)
  }

  lemma IntOrder()
    ensures TotalOrder(CompareInts)
    ensures forall a, b :: CompareInts(a, b) == 0 <==> a == b
    ensures forall a, b :: CompareInts(a, b) < 0 <==> a < b
  {
  }

  /** Byte strings: first difference, then length. */
  function CompareBytes(a: seq<int>, b: seq<int>): int {
    if a == [] || b == [] then (if |a| > |b| then 1 else 0) - (if |a| < |b| then 1 else 0)
    else if a[0] != b[0] then a[0] - b[0]
    else CompareBytes(a[1..], b[1..])
  }

  lemma {:induction false} BytesEqual(a: seq<int>, b: seq<int>)
    ensures CompareBytes(a, b) == 0 <==> a == b
  {
    if a != [] && b != [] && a[0] == b[0] {
      BytesEqual(a[1..], b[1..]);
      assert a == [a[0]] + a[1..] && b == [b[0]] + b[1..];
    }
  }

  lemma {:induction false} BytesSwap(a: seq<int>, b: seq<int>)
    ensures CompareBytes(a, b) == -CompareBytes(b, a)
  {
    if a != [] && b != [] && a[0] == b[0] {
      BytesSwap(a[1..], b[1..]);
    }
  }

  lemma {:induction false} BytesTransitive(a: seq<int>, b: seq<int>, c: seq<int>)
    requires CompareBytes(a, b) <= 0 && CompareBytes(b, c) <= 0
    ensures CompareBytes(a, c) <= 0
  {
    if a != [] && b != [] && c != [] && a[0] == b[0] == c[0] {
      BytesTransitive(a[1..], b[1..], c[1..]);
    }
  }

  /** After `n` equal bytes, `a` ends before `b` does or goes on with the smaller byte. */
  predicate LessAt(a: seq<int>, b: seq<int>, n: nat) {
    && n <= |a| && n < |b| && a[..n] == b[..n]
    && (n < |a| ==> a[n] < b[n])
  }

  lemma {:induction false} LessSigned(a: seq<int>, b: seq<int>, n: nat)
    requires LessAt(a, b, n)
    ensures CompareBytes(a, b) < 0
    decreases n
  {
    if n > 0 {
      assert a[0] == a[..n][0] == b[..n][0] == b[0];
      assert a[1..][..n - 1] == a[..n][1..] == b[..n][1..] == b[1..][..n - 1];
      LessSigned(a[1..], b[1..], n - 1);
    }
  }

  lemma {:induction false} SignedLess(a: seq<int>, b: seq<int>) returns (n: nat)
    requires CompareBytes(a, b) < 0
    ensures LessAt(a, b, n)
    decreases |a|
  {
    n := 0;
    if a != [] && b != [] && a[0] == b[0] {
      n := SignedLess(a[1..], b[1..]);
      assert a[..n + 1] == [a[0]] + a[1..][..n] && b[..n + 1] == [b[0]] + b[1..][..n];
      n := n + 1;
    }
  }

  /** The byte order is total, zero means equal, and below zero means smaller at the
      first difference or a proper beginning of the other. */
  lemma BytesOrder()
    ensures TotalOrder(CompareBytes)
    ensures forall a, b :: CompareBytes(a, b) == 0 <==> a == b
    ensures forall a, b :: CompareBytes(a, b) < 0 <==> exists n :: LessAt(a, b, n)
  {
    forall a, b
      ensures CompareBytes(a, b) < 0 <==> exists n :: LessAt(a, b, n)
    {
      if CompareBytes(a, b) < 0 { var n := SignedLess(a, b); }
      if n :| LessAt(a, b, n) { LessSigned(a, b, n); }
    }
    forall a, b
      ensures Sign(CompareBytes(a, b)) == -Sign(CompareBytes(b, a)) && (CompareBytes(a, b) == 0 <==> a == b)
    {
      BytesSwap(a, b);
      BytesEqual(a, b);
    }
    forall a, b, c | CompareBytes(a, b) <= 0 && CompareBytes(b, c) <= 0
      ensures CompareBytes(a, c) <= 0
    {
      BytesTransitive(a, b, c);
    }
  }

  /** The comparison loop of the runtime. */
  method StringCompare(a: seq<int>, b: seq<int>) returns (c: int)
    ensures c == CompareBytes(a, b)
  {
    var n := if |a| < |b| then |a| else |b|;
    for i := 0 to n
      invariant CompareBytes(a, b) == CompareBytes(a[i..], b[i..])
    {
      if a[i] != b[i] {
        return a[i] - b[i];
      }
    }
    c := (if |a| > |b| then 1 else 0) - (if |a| < |b| then 1 else 0);
  }

  // ----- maps ---------------------------------------------------------------------

  predicate Increasing<K>(cmp: (K, K) -> int, keys: seq<K>) {
    forall i, j :: 0 <= i < j < |keys| ==> cmp(keys[i], keys[j]) < 0
  }

  /** A published map: two columns of one length, keys strictly increasing. */
  datatype Table<K, V> = Table(keys: seq<K>, values: seq<V>)

  predicate ValidTable<K, V>(cmp: (K, K) -> int, t: Table<K, V>) {
    |t.keys| == |t.values| && Increasing(cmp, t.keys)
  }

  /** The finite map that columns stand for: the last entry with an equivalent key. */
  function Find<K, V>(cmp: (K, K) -> int, keys: seq<K>, values: seq<V>, k: K): Option<V>
    requires |keys| == |values|
  {
    if keys == [] then None
    else
      var n := |keys| - 1;
      if cmp(keys[n], k) == 0 then Some(values[n]) else Find(cmp, keys[..n], values[..n], k)
  }

  lemma {:induction false} FindNone<K, V>(cmp: (K, K) -> int, keys: seq<K>, values: seq<V>, k: K)
    requires |keys| == |values|
    ensures (forall i :: 0 <= i < |keys| ==> cmp(keys[i], k) != 0) <==> Find(cmp, keys, values, k) == None
  {
    if keys != [] {
      FindNone(cmp, keys[..|keys| - 1], values[..|keys| - 1], k);
    }
  }

  /** With strictly increasing keys there is at most one entry to find. */
  lemma {:induction false} FindAt<K(!new), V>(cmp: (K, K) -> int, keys: seq<K>, values: seq<V>, k: K, i: nat)
    requires TotalOrder(cmp) && |keys| == |values| && Increasing(cmp, keys) && i < |keys| && cmp(keys[i], k) == 0
    ensures Find(cmp, keys, values, k) == Some(values[i])
    ensures forall j :: 0 <= j < |keys| && j != i ==> cmp(keys[j], k) != 0
  {
    forall j | 0 <= j < |keys| && j != i
      ensures cmp(keys[j], k) != 0
    {
      OrderFacts(cmp, keys[i], k, keys[j]);
      OrderFacts(cmp, keys[j], k, keys[i]);
    }
    var n := |keys| - 1;
    if i < n {
      FindAt(cmp, keys[..n], values[..n], k, i);
    }
  }

  /** What is found is the value of the last entry whose key is equivalent. */
  lemma {:induction false} FindLast<K, V>(cmp: (K, K) -> int, keys: seq<K>, values: seq<V>, k: K, i: nat)
    requires |keys| == |values| && i < |keys| && cmp(keys[i], k) == 0
    requires forall j :: i < j < |keys| ==> cmp(keys[j], k) != 0
    ensures Find(cmp, keys, values, k) == Some(values[i])
    decreases |keys|
  {
    var n := |keys| - 1;
    if i < n {
      FindLast(cmp, keys[..n], values[..n], k, i);
    }
  }

  function Pick<T>(xs: seq<T>, index: seq<nat>): (r: seq<T>)
    requires forall i :: 0 <= i < |index| ==> index[i] < |xs|
    ensures |r| == |index| && forall i :: 0 <= i < |r| ==> r[i] == xs[index[i]]
  {
    seq(|index|, i requires 0 <= i < |index| => xs[index[i]])
  }

  /** A pushed element that is inserted into the index. */
  lemma Picked<T>(xs: seq<T>, index: seq<nat>, at: nat, x: T)
    requires at <= |index| && forall i :: 0 <= i < |index| ==> index[i] < |xs|
    ensures forall i :: 0 <= i <= |index| ==> (index[..at] + [|xs|] + index[at..])[i] < |xs| + 1
    ensures Pick(xs + [x], index[..at] + [|xs|] + index[at..]) == Pick(xs, index)[..at] + [x] + Pick(xs, index)[at..]
  {
  }

  class MapMut<K, V> {
    var keys: seq<K>
    var values: seq<V>
    var index: seq<nat>

    constructor ()
      ensures keys == [] && values == [] && index == []
    {
      keys, values, index := [], [], [];
    }

    ghost predicate Shaped()
      reads this
    {
      && |keys| == |values|
      && (forall i :: 0 <= i < |index| ==> index[i] < |keys|)
      && (forall i, j :: 0 <= i < j < |index| ==> index[i] != index[j])
    }

    /** Keys and values in index order. */
    function SortedKeys(): seq<K>
      requires forall i :: 0 <= i < |index| ==> index[i] < |keys|
      reads this
    {
      Pick(keys, index)
    }

    function SortedValues(): seq<V>
      requires |keys| == |values| && forall i :: 0 <= i < |index| ==> index[i] < |keys|
      reads this
    {
      Pick(values, index)
    }

    method SetAt(at: nat, value: V)
      requires Shaped() && at < |index|
      modifies this`values
      ensures Shaped() && SortedKeys() == old(SortedKeys()) && SortedValues() == old(SortedValues())[at := value]
    {
      values := values[index[at] := value];
      assert SortedKeys() == old(SortedKeys()) && SortedValues() == old(SortedValues())[at := value];
    }

    method InsertAt(at: nat, key: K, value: V)
      requires Shaped() && at <= |index|
      modifies this
      ensures Shaped() && SortedKeys() == old(SortedKeys())[..at] + [key] + old(SortedKeys())[at..]
      ensures SortedValues() == old(SortedValues())[..at] + [value] + old(SortedValues())[at..]
    {
      var id := |keys|;
      Picked(keys, index, at, key);
      Picked(values, index, at, value);
      keys := keys + [key];
      values := values + [value];
      index := index[..at] + [id] + index[at..];
    }

    method RemoveAt(at: nat)
      requires Shaped() && at < |index|
      modifies this`index
      ensures Shaped() && SortedKeys() == old(SortedKeys())[..at] + old(SortedKeys())[at + 1..]
      ensures SortedValues() == old(SortedValues())[..at] + old(SortedValues())[at + 1..]
    {
      index := index[..at] + index[at + 1..];
      assert SortedKeys() == old(SortedKeys())[..at] + old(SortedKeys())[at + 1..];
      assert SortedValues() == old(SortedValues())[..at] + old(SortedValues())[at + 1..];
    }
  }

  /** Which order a request asks for. */
  datatype Order = Builtin | Callback

  /** Call `n` of the callback got no answer. */
  ghost predicate Refused<K(!new)>(answer: (K, K, nat) -> Option<int>, n: nat) {
    exists a, b :: answer(a, b, n).None?
  }

  class Columns<K(!new), V> {
    /** The order, as the callback answers it: `None` is a failed call. */
    ghost const cmp: (K, K) -> int
    const order: Order
    const answer: (K, K, nat) -> Option<int>
    var failed: bool
    var calls: nat

    ghost predicate Valid()
      reads this
    {
      && TotalOrder(cmp)
      && (forall a, b, n :: answer(a, b, n).Some? ==> Sign(answer(a, b, n).value) == Sign(cmp(a, b)))
      && (order.Builtin? ==> !failed && forall a, b, n :: answer(a, b, n).Some?)
      && (failed ==> Refused(answer, calls))
    }

    ghost predicate Sorted(b: MapMut<K, V>)
      reads this, b
    {
      b.Shaped() && Increasing(cmp, b.SortedKeys())
    }

    /** The map that columns under construction stand for. */
    ghost function Meaning(b: MapMut<K, V>, k: K): Option<V>
      requires b.Shaped()
      reads this, b
    {
      Find(cmp, b.SortedKeys(), b.SortedValues(), k)
    }

    constructor (ghost cmp: (K, K) -> int, order: Order, answer: (K, K, nat) -> Option<int>)
      requires TotalOrder(cmp)
      requires forall a, b, n :: answer(a, b, n).Some? ==> Sign(answer(a, b, n).value) == Sign(cmp(a, b))
      requires order.Builtin? ==> forall a, b, n :: answer(a, b, n).Some?
      ensures Valid() && !failed && this.cmp == cmp
    {
      this.cmp, this.order, this.answer := cmp, order, answer;
      failed, calls := false, 0;
    }

    /** Once a callback has failed it is not called again. */
    method Compare(a: K, b: K) returns (c: int)
      requires Valid()
      modifies this
      ensures Valid() && (old(failed) ==> failed) && (order.Builtin? ==> !failed)
      ensures !failed ==> Sign(c) == Sign(cmp(a, b))
      ensures old(failed) ==> calls == old(calls)
      ensures !old(failed) ==> calls == old(calls) + 1 && (failed <==> answer(a, b, calls).None?)
    {
      if failed {
        return 0;
      }
      calls := calls + 1;
      match answer(a, b, calls)
      case Some(value) =>
        c := value;
      case None =>
        failed := true;
        c := *;
    }

    /** First position whose key is not below the given one. */
    method Lower(b: MapMut<K, V>, key: K) returns (at: nat, found: bool)
      requires Valid() && Sorted(b)
      modifies this
      ensures Valid() && (old(failed) ==> failed) && (order.Builtin? ==> !failed)
      ensures !failed ==> at <= |b.index| && Sorted(b)
      ensures !failed ==> forall i :: 0 <= i < at ==> cmp(b.SortedKeys()[i], key) < 0
      ensures !failed ==> forall i :: at + (if found then 1 else 0) <= i < |b.index| ==> cmp(b.SortedKeys()[i], key) > 0
      ensures !failed && found ==> at < |b.index| && cmp(b.SortedKeys()[at], key) == 0
    {
      hide TotalOrder;
      var lo, hi := 0, |b.index|;
      while lo < hi
        invariant Valid() && (old(failed) ==> failed) && (order.Builtin? ==> !failed)
        invariant 0 <= lo <= hi <= |b.index|
        invariant forall i :: 0 <= i < lo ==> cmp(b.SortedKeys()[i], key) < 0
        invariant forall i :: hi <= i < |b.index| ==> cmp(b.SortedKeys()[i], key) >= 0
      {
        var mid := lo + (hi - lo) / 2;
        var c := Compare(b.keys[b.index[mid]], key);
        if failed {
          return 0, false;
        }
        BelowAll(cmp, b.SortedKeys(), key, mid);
        if c < 0 { lo := mid + 1; } else { hi := mid; }
      }
      var same := 1;
      if lo < |b.index| {
        same := Compare(b.keys[b.index[lo]], key);
        AboveRest(cmp, b.SortedKeys(), key, lo);
      }
      return lo, same == 0;
    }

    /** Replaces the value of an equivalent key, or appends to both columns. */
    method Put(b: MapMut<K, V>, key: K, value: V)
      requires Valid() && Sorted(b)
      modifies this, b
      ensures Valid() && (old(failed) ==> failed) && (order.Builtin? ==> !failed)
      ensures failed ==> b.keys == old(b.keys) && b.values == old(b.values) && b.index == old(b.index)
      ensures Sorted(b)
      ensures !failed ==>
        forall k :: Meaning(b, k) ==
          if cmp(key, k) == 0 then Some(value) else Find(cmp, old(b.SortedKeys()), old(b.SortedValues()), k)
    {
      hide TotalOrder, Increasing;
      var at, found := Lower(b, key);
      if failed {
        return;
      }
      ghost var ks, vs := b.SortedKeys(), b.SortedValues();
      if found {
        b.SetAt(at, value);
        Replaced(cmp, ks, vs, key, value, at);
      } else {
        b.InsertAt(at, key, value);
        Inserted(cmp, ks, vs, key, value, at);
      }
      forall k
        ensures Meaning(b, k) == if cmp(key, k) == 0 then Some(value) else Find(cmp, ks, vs, k)
      {
        assert Meaning(b, k) == With(cmp, ks, vs, key, Some(value), k);
      }
    }

    /** Columns of a published map, indexed in order. */
    method Load(t: Table<K, V>) returns (b: MapMut<K, V>)
      requires Valid() && ValidTable(cmp, t)
      ensures fresh(b) && Sorted(b) && b.SortedKeys() == t.keys && b.SortedValues() == t.values
    {
      b := new MapMut();
      b.keys, b.values := t.keys, t.values;
      b.index := seq(|t.keys|, i => i);
      assert b.SortedKeys() == t.keys && b.SortedValues() == t.values;
    }

    /** Both columns in index order. */
    method Finish(b: MapMut<K, V>) returns (t: Table<K, V>)
      requires Valid() && Sorted(b)
      ensures ValidTable(cmp, t) && t.keys == b.SortedKeys() && t.values == b.SortedValues()
    {
      t := Table(b.SortedKeys(), b.SortedValues());
    }

    // ----- operations: a failed comparison publishes nothing --------------------------

    /** From pairs, the last one winning. */
    method FromPairs(pairs: seq<Pair<K, V>>) returns (t: Option<Table<K, V>>)
      requires Valid() && !failed
      modifies this
      ensures Valid() && (t.None? <==> failed) && (order.Builtin? ==> !failed)
      ensures t.Some? ==> ValidTable(cmp, t.value)
      ensures t.Some? ==>
        forall k :: Find(cmp, t.value.keys, t.value.values, k) == Find(cmp, Keys(pairs), Values(pairs), k)
    {
      hide TotalOrder, Increasing, ValidTable;
      var b := new MapMut<K, V>();
      EmptyIncreasing(cmp);
      assert b.SortedKeys() == [];
      for i := 0 to |pairs|
        invariant Valid() && !failed && fresh(b) && Sorted(b)
        invariant forall k :: Meaning(b, k) == Find(cmp, Keys(pairs[..i]), Values(pairs[..i]), k)
      {
        PairsNext(pairs, i);
        Put(b, pairs[i].key, pairs[i].value);
        if failed {
          return None;
        }
      }
      assert pairs[..|pairs|] == pairs;
      var r := Finish(b);
      return Some(r);
    }

    /** Binary search in the published columns. */
    method Lookup(t: Table<K, V>, key: K) returns (v: Option<V>)
      requires Valid() && !failed && ValidTable(cmp, t)
      modifies this
      ensures Valid() && (order.Builtin? ==> !failed)
      ensures !failed ==> v == Find(cmp, t.keys, t.values, key)
      ensures failed ==> v == None
    {
      hide TotalOrder;
      var lo, hi := 0, |t.keys|;
      while lo < hi
        invariant Valid() && !failed && 0 <= lo <= hi <= |t.keys|
        invariant forall i :: 0 <= i < lo ==> cmp(t.keys[i], key) < 0
        invariant forall i :: hi <= i < |t.keys| ==> cmp(t.keys[i], key) > 0
      {
        var mid := lo + (hi - lo) / 2;
        var c := Compare(t.keys[mid], key);
        if failed {
          return None;
        }
        if c == 0 {
          FindAt(cmp, t.keys, t.values, key, mid);
          return Some(t.values[mid]);
        }
        if c < 0 {
          BelowAll(cmp, t.keys, key, mid);
          lo := mid + 1;
        } else {
          AboveRest(cmp, t.keys, key, mid);
          hi := mid;
        }
      }
      FindNone(cmp, t.keys, t.values, key);
      return None;
    }

    method Insert(t: Table<K, V>, key: K, value: V) returns (r: Option<Table<K, V>>)
      requires Valid() && !failed && ValidTable(cmp, t)
      modifies this
      ensures Valid() && (r.None? <==> failed) && (order.Builtin? ==> !failed)
      ensures r.Some? ==> ValidTable(cmp, r.value)
      ensures r.Some? ==>
        forall k :: Find(cmp, r.value.keys, r.value.values, k) ==
          if cmp(key, k) == 0 then Some(value) else Find(cmp, t.keys, t.values, k)
    {
      hide TotalOrder, Increasing;
      var b := Load(t);
      Put(b, key, value);
      if failed {
        return None;
      }
      var done := Finish(b);
      return Some(done);
    }

    method Remove(t: Table<K, V>, key: K) returns (r: Option<Table<K, V>>)
      requires Valid() && !failed && ValidTable(cmp, t)
      modifies this
      ensures Valid() && (r.None? <==> failed) && (order.Builtin? ==> !failed)
      ensures r.Some? ==> ValidTable(cmp, r.value)
      ensures r.Some? ==>
        forall k :: Find(cmp, r.value.keys, r.value.values, k) ==
          if cmp(key, k) == 0 then None else Find(cmp, t.keys, t.values, k)
    {
      hide TotalOrder, Increasing, Refused;
      var b := Load(t);
      var at, found := Lower(b, key);
      if failed {
        return None;
      }
      if found {
        b.RemoveAt(at);
        Removed(cmp, t.keys, t.values, key, at);
      } else {
        Absent(cmp, t.keys, t.values, key, at);
      }
      var done := Finish(b);
      Without(cmp, t, done, key);
      return Some(done);
    }

    /** Right-biased union. */
    method Union(left: Table<K, V>, right: Table<K, V>) returns (r: Option<Table<K, V>>)
      requires Valid() && !failed && ValidTable(cmp, left) && ValidTable(cmp, right)
      modifies this
      ensures Valid() && (r.None? <==> failed) && (order.Builtin? ==> !failed)
      ensures r.Some? ==> ValidTable(cmp, r.value)
      ensures r.Some? ==> forall k ::
        (Find(cmp, r.value.keys, r.value.values, k) ==
          if Find(cmp, right.keys, right.values, k).Some? then Find(cmp, right.keys, right.values, k)
          else Find(cmp, left.keys, left.values, k))
    {
      hide TotalOrder, Increasing;
      var b := Load(left);
      for i := 0 to |right.keys|
        invariant Valid() && !failed && fresh(b) && Sorted(b)
        invariant forall k ::
          Meaning(b, k) == Over(Find(cmp, right.keys[..i], right.values[..i], k), Find(cmp, left.keys, left.values, k))
      {
        assert right.keys[..i + 1][..i] == right.keys[..i] && right.values[..i + 1][..i] == right.values[..i];
        Put(b, right.keys[i], right.values[i]);
        if failed {
          return None;
        }
      }
      assert right.keys[..|right.keys|] == right.keys && right.values[..|right.keys|] == right.values;
      var done := Finish(b);
      return Some(done);
    }

    /** The entries in key order, as pairs. */
    method ToPairs(t: Table<K, V>) returns (pairs: seq<Pair<K, V>>)
      requires Valid() && ValidTable(cmp, t)
      ensures Keys(pairs) == t.keys && Values(pairs) == t.values
      ensures Increasing(cmp, Keys(pairs))
    {
      var b := Load(t);
      pairs := seq(|b.index|,
        i requires 0 <= i < |b.index| reads b requires b.Shaped() => Pair(b.keys[b.index[i]], b.values[b.index[i]]));
      assert Keys(pairs) == b.SortedKeys() && Values(pairs) == b.SortedValues();
    }
  }

  /** The map with one key set or, with `None`, removed. */
  function With<K, V>(cmp: (K, K) -> int, keys: seq<K>, values: seq<V>, key: K, value: Option<V>, k: K): Option<V>
    requires |keys| == |values|
  {
    if cmp(key, k) == 0 then value else Find(cmp, keys, values, k)
  }

  lemma Without<K, V>(cmp: (K, K) -> int, t: Table<K, V>, r: Table<K, V>, key: K)
    requires |t.keys| == |t.values| && |r.keys| == |r.values|
    requires forall k :: Find(cmp, r.keys, r.values, k) == With(cmp, t.keys, t.values, key, None, k)
    ensures forall k ::
      Find(cmp, r.keys, r.values, k) == if cmp(key, k) == 0 then None else Find(cmp, t.keys, t.values, k)
  {
    hide Find;
    forall k
      ensures Find(cmp, r.keys, r.values, k) == if cmp(key, k) == 0 then None else Find(cmp, t.keys, t.values, k)
    {
      assert Find(cmp, r.keys, r.values, k) == With(cmp, t.keys, t.values, key, None, k);
    }
  }

  /** Right-biased choice. */
  function Over<V>(there: Option<V>, here: Option<V>): Option<V> {
    if there.Some? then there else here
  }

  function Keys<K, V>(pairs: seq<Pair<K, V>>): (r: seq<K>)
    ensures |r| == |pairs| && forall i :: 0 <= i < |r| ==> r[i] == pairs[i].key
  {
    seq(|pairs|, i requires 0 <= i < |pairs| => pairs[i].key)
  }

  function Values<K, V>(pairs: seq<Pair<K, V>>): (r: seq<V>)
    ensures |r| == |pairs| && forall i :: 0 <= i < |r| ==> r[i] == pairs[i].value
  {
    seq(|pairs|, i requires 0 <= i < |pairs| => pairs[i].value)
  }

  lemma PairsNext<K, V>(pairs: seq<Pair<K, V>>, i: nat)
    requires i < |pairs|
    ensures Keys(pairs[..i + 1]) == Keys(pairs[..i]) + [pairs[i].key]
    ensures Values(pairs[..i + 1]) == Values(pairs[..i]) + [pairs[i].value]
    ensures Keys(pairs[..i + 1])[..i] == Keys(pairs[..i]) && Values(pairs[..i + 1])[..i] == Values(pairs[..i])
  {
  }

  lemma EmptyIncreasing<K>(cmp: (K, K) -> int)
    ensures Increasing(cmp, [])
  {
  }

  // ----- binary search ----------------------------------------------------------------

  lemma BelowAll<K(!new)>(cmp: (K, K) -> int, keys: seq<K>, key: K, mid: nat)
    requires TotalOrder(cmp) && Increasing(cmp, keys) && mid < |keys|
    ensures cmp(keys[mid], key) < 0 ==> forall i :: 0 <= i <= mid ==> cmp(keys[i], key) < 0
    ensures cmp(keys[mid], key) >= 0 ==> forall i :: mid <= i < |keys| ==> cmp(keys[i], key) >= 0
  {
    hide TotalOrder;
    forall i | 0 <= i < mid && cmp(keys[mid], key) < 0
      ensures cmp(keys[i], key) < 0
    {
      OrderFacts(cmp, keys[i], keys[mid], key);
    }
    forall i | mid < i < |keys| && cmp(keys[mid], key) >= 0
      ensures cmp(keys[i], key) >= 0
    {
      OrderFacts(cmp, keys[mid], keys[i], key);
    }
  }

  lemma AboveRest<K(!new)>(cmp: (K, K) -> int, keys: seq<K>, key: K, at: nat)
    requires TotalOrder(cmp) && Increasing(cmp, keys) && at < |keys| && cmp(keys[at], key) >= 0
    ensures forall i :: at < i < |keys| ==> cmp(keys[i], key) > 0
  {
    hide TotalOrder;
    forall i | at < i < |keys|
      ensures cmp(keys[i], key) > 0
    {
      Flip(cmp, keys[at], key);
      Flip(cmp, keys[i], key);
      OrderFacts(cmp, key, keys[at], keys[i]);
    }
  }

  lemma Flip<K(!new)>(cmp: (K, K) -> int, a: K, b: K)
    requires TotalOrder(cmp)
    ensures Sign(cmp(a, b)) == -Sign(cmp(b, a))
  {
  }

  // ----- one change of the columns --------------------------------------------------------

  lemma Replaced<K(!new), V>(cmp: (K, K) -> int, keys: seq<K>, values: seq<V>, key: K, value: V, at: nat)
    requires TotalOrder(cmp) && |keys| == |values| && Increasing(cmp, keys) && at < |keys| && cmp(keys[at], key) == 0
    ensures forall k :: Find(cmp, keys, values[at := value], k) == With(cmp, keys, values, key, Some(value), k)
  {
    hide TotalOrder, Increasing;
    forall k
      ensures Find(cmp, keys, values[at := value], k) == if cmp(key, k) == 0 then Some(value)
        else Find(cmp, keys, values, k)
    {
      OrderFacts(cmp, keys[at], key, k);
      if cmp(key, k) == 0 {
        FindAt(cmp, keys, values[at := value], k, at);
      } else {
        FindOther(cmp, keys, values, value, k, at);
      }
    }
  }

  lemma {:induction false} FindOther<K, V>(cmp: (K, K) -> int, keys: seq<K>, values: seq<V>, value: V, k: K, at: nat)
    requires |keys| == |values| && at < |keys| && cmp(keys[at], k) != 0
    ensures Find(cmp, keys, values[at := value], k) == Find(cmp, keys, values, k)
  {
    var n := |keys| - 1;
    if at < n {
      FindOther(cmp, keys[..n], values[..n], value, k, at);
      assert values[at := value][..n] == values[..n][at := value];
    } else {
      assert values[at := value][..n] == values[..n];
    }
  }

  lemma {:induction false} FindSplit<K, V>(cmp: (K, K) -> int, keys: seq<K>, values: seq<V>, more: seq<K>,
                                           others: seq<V>, k: K)
    requires |keys| == |values| && |more| == |others|
    ensures Find(cmp, keys + more, values + others, k) == Over(Find(cmp, more, others, k), Find(cmp, keys, values, k))
  {
    if more == [] {
      assert keys + more == keys && values + others == values;
    } else {
      var n := |more| - 1;
      FindSplit(cmp, keys, values, more[..n], others[..n], k);
      assert (keys + more)[..|keys + more| - 1] == keys + more[..n];
      assert (values + others)[..|keys + more| - 1] == values + others[..n];
    }
  }

  lemma Inserted<K(!new), V>(cmp: (K, K) -> int, keys: seq<K>, values: seq<V>, key: K, value: V, at: nat)
    requires TotalOrder(cmp) && |keys| == |values| && Increasing(cmp, keys) && at <= |keys|
    requires forall i :: 0 <= i < at ==> cmp(keys[i], key) < 0
    requires forall i :: at <= i < |keys| ==> cmp(keys[i], key) > 0
    ensures Increasing(cmp, keys[..at] + [key] + keys[at..])
    ensures forall k ::
      Find(cmp, keys[..at] + [key] + keys[at..], values[..at] + [value] + values[at..], k) ==
        With(cmp, keys, values, key, Some(value), k)
  {
    hide TotalOrder, Find;
    var ks, vs := keys[..at] + [key] + keys[at..], values[..at] + [value] + values[at..];
    InsertedOrder(cmp, keys, key, at);
    forall k
      ensures Find(cmp, ks, vs, k) == if cmp(key, k) == 0 then Some(value) else Find(cmp, keys, values, k)
    {
      if cmp(key, k) == 0 {
        FindAt(cmp, ks, vs, k, at);
      } else {
        FindSplit(cmp, keys[..at] + [key], values[..at] + [value], keys[at..], values[at..], k);
        FindSplit(cmp, keys[..at], values[..at], [key], [value], k);
        FindSplit(cmp, keys[..at], values[..at], keys[at..], values[at..], k);
        FindOne(cmp, key, value, k);
        assert keys[..at] + keys[at..] == keys && values[..at] + values[at..] == values;
      }
    }
  }

  lemma FindOne<K, V>(cmp: (K, K) -> int, key: K, value: V, k: K)
    ensures Find(cmp, [key], [value], k) == if cmp(key, k) == 0 then Some(value) else None
  {
  }

  lemma InsertedOrder<K(!new)>(cmp: (K, K) -> int, keys: seq<K>, key: K, at: nat)
    requires TotalOrder(cmp) && Increasing(cmp, keys) && at <= |keys|
    requires forall i :: 0 <= i < at ==> cmp(keys[i], key) < 0
    requires forall i :: at <= i < |keys| ==> cmp(keys[i], key) > 0
    ensures Increasing(cmp, keys[..at] + [key] + keys[at..])
  {
    hide TotalOrder;
    forall i | at <= i < |keys|
      ensures cmp(key, keys[i]) < 0
    {
      Flip(cmp, key, keys[i]);
    }
    forall i, j | 0 <= i < at && at <= j < |keys|
      ensures cmp(keys[i], keys[j]) < 0
    {
    }
  }

  lemma Removed<K(!new), V>(cmp: (K, K) -> int, keys: seq<K>, values: seq<V>, key: K, at: nat)
    requires TotalOrder(cmp) && |keys| == |values| && Increasing(cmp, keys) && at < |keys| && cmp(keys[at], key) == 0
    ensures Increasing(cmp, keys[..at] + keys[at + 1..])
    ensures forall k ::
      Find(cmp, keys[..at] + keys[at + 1..], values[..at] + values[at + 1..], k) ==
        With(cmp, keys, values, key, None, k)
  {
    hide TotalOrder, Find;
    var ks, vs := keys[..at] + keys[at + 1..], values[..at] + values[at + 1..];
    assert Increasing(cmp, ks);
    forall k
      ensures Find(cmp, ks, vs, k) == if cmp(key, k) == 0 then None else Find(cmp, keys, values, k)
    {
      OrderFacts(cmp, keys[at], key, k);
      if cmp(key, k) == 0 {
        FindAt(cmp, keys, values, k, at);
        FindNone(cmp, ks, vs, k);
      } else {
        FindSplit(cmp, keys[..at], values[..at], keys[at + 1..], values[at + 1..], k);
        FindSplit(cmp, keys[..at] + [keys[at]], values[..at] + [values[at]], keys[at + 1..], values[at + 1..], k);
        FindSplit(cmp, keys[..at], values[..at], [keys[at]], [values[at]], k);
        FindOne(cmp, keys[at], values[at], k);
        assert keys[..at] + [keys[at]] + keys[at + 1..] == keys
          && values[..at] + [values[at]] + values[at + 1..] == values;
      }
    }
  }

  lemma Absent<K(!new), V>(cmp: (K, K) -> int, keys: seq<K>, values: seq<V>, key: K, at: nat)
    requires TotalOrder(cmp) && |keys| == |values| && at <= |keys|
    requires forall i :: 0 <= i < at ==> cmp(keys[i], key) < 0
    requires forall i :: at <= i < |keys| ==> cmp(keys[i], key) > 0
    ensures forall k :: cmp(key, k) == 0 ==> Find(cmp, keys, values, k) == None
  {
    hide TotalOrder, Find;
    forall k | cmp(key, k) == 0
      ensures Find(cmp, keys, values, k) == None
    {
      forall i | 0 <= i < |keys|
        ensures cmp(keys[i], k) != 0
      {
        OrderFacts(cmp, key, k, keys[i]);
        Flip(cmp, key, keys[i]);
        Flip(cmp, k, keys[i]);
      }
      FindNone(cmp, keys, values, k);
    }
  }
}
