/** Immutable byte views over shared raw storage (content.rs), and appending
    behind them (content_append.rs). */
module Content {
  import opened HeapGraph
  import opened Wrappers

  const U32_MAX: nat := 0xffff_ffff
  /** Shorter content lies in its own view. */
  const INLINE: nat := 16
  const RAW_HEADER: nat := 8

  datatype Bytes = Inline(data: seq<int>) | Slice(raw: Addr, start: nat, end: nat)

  /** A result, and how many bytes were copied to make it. */
  datatype Appended = Appended(bytes: Bytes, copied: nat)

  // ----- powers of two ------------------------------------------------------------

  ghost predicate IsPower(n: nat) {
    n == 1 || (n > 1 && n % 2 == 0 && IsPower(n / 2))
  }

  function NextPower(n: nat, from: nat): (p: nat)
    requires 0 < from && from < 2 * n && IsPower(from)
    ensures n <= p < 2 * n && IsPower(p)
    decreases n - from
  {
    if from >= n then from else assert (2 * from) / 2 == from; NextPower(n, 2 * from)
  }

  function Capacity(length: nat): (p: nat)
    requires length > 0
    ensures length <= p < 2 * length && IsPower(p)
  {
    NextPower(length, 1)
  }

  lemma {:induction false} PowersDouble(a: nat, b: nat)
    requires IsPower(a) && IsPower(b) && a < b
    ensures 2 * a <= b
    decreases b
  {
    if a > 1 {
      PowersDouble(a / 2, b / 2);
    }
  }

  // ----- views --------------------------------------------------------------------

  predicate ValidRaw(r: RawString) {
    r.len <= r.cap == |r.bytes|
  }

  predicate FitsIn(raws: map<Addr, RawString>, b: Bytes) {
    match b
    case Inline(data) => |data| < INLINE
    case Slice(raw, start, end) => raw in raws && start + INLINE <= end <= raws[raw].len && ValidRaw(raws[raw])
  }

  /** The bytes a view shows. */
  function ViewIn(raws: map<Addr, RawString>, b: Bytes): seq<int>
    requires FitsIn(raws, b)
  {
    match b
    case Inline(data) => data
    case Slice(raw, start, end) => raws[raw].bytes[start..end]
  }

  function Length(b: Bytes): nat {
    match b
    case Inline(data) => |data|
    case Slice(_, start, end) => if start <= end then end - start else 0
  }

  /** Every view of the old storage shows the same bytes in the new one. */
  ghost predicate Stable(was: map<Addr, RawString>, now: map<Addr, RawString>) {
    forall b :: FitsIn(was, b) ==> FitsIn(now, b) && ViewIn(now, b) == ViewIn(was, b)
  }

  /** Storage that was there is there, as it was. */
  ghost predicate Extends(was: map<Addr, RawString>, now: map<Addr, RawString>) {
    forall r :: r in was ==> r in now && now[r] == was[r]
  }

  /** Storage on the way from one state to another. */
  ghost predicate Between(was: map<Addr, RawString>, met: map<Addr, RawString>, now: map<Addr, RawString>) {
    Stable(was, met) && Stable(met, now)
  }

  lemma StableTrans(a: map<Addr, RawString>, b: map<Addr, RawString>, c: map<Addr, RawString>)
    requires Stable(a, b) && Stable(b, c)
    ensures Stable(a, c)
  {
    hide FitsIn, ViewIn;
  }

  /** Published bytes are never written: storage grows, or its tail does. */
  lemma TailOnly(was: map<Addr, RawString>, raw: Addr, now: RawString)
    requires raw in was ==>
      was[raw].len <= now.len && ValidRaw(now)
        && (ValidRaw(was[raw]) ==> now.bytes[..was[raw].len] == was[raw].bytes[..was[raw].len])
    ensures Stable(was, was[raw := now])
  {
    forall b | FitsIn(was, b)
      ensures FitsIn(was[raw := now], b) && ViewIn(was[raw := now], b) == ViewIn(was, b)
    {
      if b.Slice? && b.raw == raw {
        var before := was[raw];
        forall k | b.start <= k < b.end
          ensures now.bytes[k] == before.bytes[k]
        {
          assert now.bytes[..before.len][k] == before.bytes[..before.len][k];
        }
      }
    }
  }

  /** `ds` written over `s` from `at` on. */
  function Over(s: seq<int>, at: nat, ds: seq<int>): (r: seq<int>)
    requires at + |ds| <= |s|
    ensures |r| == |s| && r[..at] == s[..at] && r[at..at + |ds|] == ds && r[at + |ds|..] == s[at + |ds|..]
  {
    s[..at] + ds + s[at + |ds|..]
  }

  // ----- when appends stop -----------------------------------------------------------

  /** The view ends where its storage does, and there is room behind it. */
  predicate InPlace(raws: map<Addr, RawString>, statics: set<Addr>, owner: Bytes, right: nat) {
    owner.Slice? && owner.raw in raws && owner.raw !in statics
    && owner.end == raws[owner.raw].len && owner.end + right <= raws[owner.raw].cap
  }

  /** How many bytes an append writes: none for an empty suffix, the suffix alone
      where it goes behind its owner, otherwise the whole. */
  function Cost(raws: map<Addr, RawString>, statics: set<Addr>, owner: Bytes, suffix: Bytes): nat {
    var left, right := Length(owner), Length(suffix);
    if right == 0 then 0
    else if left + right >= INLINE && InPlace(raws, statics, owner, right) then right
    else left + right
  }

  /** The cost of the first `n` appends, each on the storage it met. */
  function TotalCost(met: seq<map<Addr, RawString>>, statics: set<Addr>, results: seq<Bytes>, pieces: seq<Bytes>,
                     n: nat): nat
    requires n <= |met| && n <= |results| && n <= |pieces|
  {
    if n == 0 then 0
    else TotalCost(met, statics, results, pieces, n - 1) + Cost(met[n - 1], statics, results[n - 1], pieces[n - 1])
  }

  lemma {:induction false} TotalGrows(met: seq<map<Addr, RawString>>, statics: set<Addr>, results: seq<Bytes>,
                                      pieces: seq<Bytes>, metNow: seq<map<Addr, RawString>>, resultsNow: seq<Bytes>,
                                      piecesNow: seq<Bytes>, n: nat)
    requires n <= |met| && n <= |results| && n <= |pieces|
    requires met <= metNow && results <= resultsNow && pieces <= piecesNow
    ensures TotalCost(metNow, statics, resultsNow, piecesNow, n) == TotalCost(met, statics, results, pieces, n)
    decreases n
  {
    hide Cost;
    if n > 0 {
      TotalGrows(met, statics, results, pieces, metNow, resultsNow, piecesNow, n - 1);
    }
  }

  /** A checked size computation of the append overflows. */
  predicate TooLong(raws: map<Addr, RawString>, statics: set<Addr>, owner: Bytes, suffix: Bytes) {
    var right := Length(suffix);
    var length := Length(owner) + right;
    || length > U32_MAX
    || (right > 0 && length >= INLINE
        && ((owner.Slice? && owner.end + right > U32_MAX)
            || (!InPlace(raws, statics, owner, right) && Capacity(length) > U32_MAX - RAW_HEADER)))
  }

  /** What a caller can tell beforehand: an append stops if the whole is longer than
      32 bits can say, if the view would end beyond them, or if it is longer than
      2^31 bytes and would have to move, which rounds its storage up to 2^32. */
  lemma Stops(raws: map<Addr, RawString>, statics: set<Addr>, owner: Bytes, suffix: Bytes)
    requires FitsIn(raws, owner) && FitsIn(raws, suffix)
    ensures var left, right := |ViewIn(raws, owner)|, |ViewIn(raws, suffix)|;
      var behind := owner.Slice? && owner.raw !in statics && owner.end == raws[owner.raw].len;
      TooLong(raws, statics, owner, suffix) <==>
        || left + right > 0xffff_ffff
        || (right > 0 && left + right >= 16 && owner.Slice? && owner.end + right > 0xffff_ffff)
        || (right > 0 && left + right > 0x8000_0000 && !(behind && owner.end + right <= raws[owner.raw].cap))
  {
    hide Capacity;
    var length := Length(owner) + Length(suffix);
    if length > 0 { RoundedUp(length); }
  }

  /** Rounding up stays below 2^32 up to 2^31. */
  lemma RoundedUp(length: nat)
    requires length > 0
    ensures Capacity(length) > U32_MAX - RAW_HEADER <==> length > 0x8000_0000
  {
    hide Capacity;
    var p, q := Capacity(length), 0x8000_0000;
    HalfOfRange();
    if p > q { PowersDouble(q, p); }
  }

  lemma HalfOfRange()
    ensures IsPower(0x8000_0000)
  {
    hide IsPower;
    DoubledPower(31);
    FourDoublings(0);
    FourDoublings(4);
    FourDoublings(8);
    FourDoublings(12);
    FourDoublings(16);
    FourDoublings(20);
    FourDoublings(24);
    assert Doubled(31) == 2 * Doubled(30) == 4 * Doubled(29) == 8 * Doubled(28);
  }

  lemma FourDoublings(k: nat)
    ensures Doubled(k + 4) == 16 * Doubled(k)
  {
    assert Doubled(k + 1) == 2 * Doubled(k) && Doubled(k + 2) == 2 * Doubled(k + 1);
    assert Doubled(k + 3) == 2 * Doubled(k + 2) && Doubled(k + 4) == 2 * Doubled(k + 3);
  }

  function Doubled(k: nat): nat { if k == 0 then 1 else 2 * Doubled(k - 1) }

  lemma {:induction false} DoubledPower(k: nat)
    ensures Doubled(k) > 0 && IsPower(Doubled(k))
  {
    if k > 0 {
      DoubledPower(k - 1);
      assert Doubled(k) / 2 == Doubled(k - 1);
    }
  }

  /** Content lies in its own view exactly if it is shorter than sixteen bytes. */
  lemma ShortInline(raws: map<Addr, RawString>, b: Bytes)
    requires FitsIn(raws, b)
    ensures b.Inline? <==> |ViewIn(raws, b)| < 16
  {
  }

  // ----- chains of appends -------------------------------------------------------------

  /** What is appended next: a view there was before the chain began, what the
      chain had got to after some of its appends, or new content that is written
      between two appends. */
  datatype Suffix = Given(bytes: Bytes) | Earlier(appends: nat) | Made(data: seq<int>)

  /** Given views are there, and earlier results are earlier. */
  predicate Chainable(raws: map<Addr, RawString>, owner: Bytes, suffixes: seq<Suffix>) {
    FitsIn(raws, owner) && forall i :: 0 <= i < |suffixes| ==>
      match suffixes[i] { case Given(b) => FitsIn(raws, b) case Earlier(k) => k <= i case Made(_) => true }
  }

  /** The view that stands for a suffix. */
  predicate StandsFor(raws: map<Addr, RawString>, results: seq<Bytes>, suffix: Suffix, b: Bytes) {
    match suffix
    case Given(given) => b == given
    case Earlier(k) => k < |results| && b == results[k]
    case Made(data) => FitsIn(raws, b) && ViewIn(raws, b) == data
  }

  /** What the chain shows after `n` appends. */
  ghost function Chained(raws: map<Addr, RawString>, owner: Bytes, suffixes: seq<Suffix>, n: nat): seq<int>
    requires n <= |suffixes| && Chainable(raws, owner, suffixes)
  {
    if n == 0 then ViewIn(raws, owner)
    else
      Chained(raws, owner, suffixes, n - 1) +
      match suffixes[n - 1]
      case Given(b) => ViewIn(raws, b)
      case Earlier(k) => Chained(raws, owner, suffixes, k)
      case Made(data) => data
  }

  /** Result `i` shows what the chain shows after `i` appends. */
  ghost predicate Shows(was: map<Addr, RawString>, raws: map<Addr, RawString>, owner: Bytes, suffixes: seq<Suffix>,
                        b: Bytes, i: nat)
    requires Chainable(was, owner, suffixes) && i <= |suffixes|
  {
    FitsIn(raws, b) && ViewIn(raws, b) == Chained(was, owner, suffixes, i)
  }

  lemma StableShows(was: map<Addr, RawString>, r: map<Addr, RawString>, t: map<Addr, RawString>, owner: Bytes,
                    suffixes: seq<Suffix>, bs: seq<Bytes>)
    requires Chainable(was, owner, suffixes) && |bs| <= |suffixes| + 1 && Stable(r, t)
    requires forall i :: 0 <= i < |bs| ==> Shows(was, r, owner, suffixes, bs[i], i)
    ensures forall i :: 0 <= i < |bs| ==> Shows(was, t, owner, suffixes, bs[i], i)
  {
    hide FitsIn, ViewIn, Chained, Chainable;
    forall i | 0 <= i < |bs|
      ensures Shows(was, t, owner, suffixes, bs[i], i)
    {
      assert Shows(was, r, owner, suffixes, bs[i], i);
    }
  }

  /** The next suffix is there. */
  lemma SuffixFits(was: map<Addr, RawString>, raws: map<Addr, RawString>, owner: Bytes, suffixes: seq<Suffix>,
                   bs: seq<Bytes>, i: nat)
    requires Chainable(was, owner, suffixes) && i < |suffixes| && |bs| == i + 1 && Stable(was, raws)
    requires forall k :: 0 <= k < |bs| ==> Shows(was, raws, owner, suffixes, bs[k], k)
    ensures suffixes[i].Given? ==> FitsIn(raws, suffixes[i].bytes)
    ensures suffixes[i].Earlier? ==> suffixes[i].appends <= i && FitsIn(raws, bs[suffixes[i].appends])
  {
    hide FitsIn, ViewIn, Chained;
    if suffixes[i].Earlier? {
      assert Shows(was, raws, owner, suffixes, bs[suffixes[i].appends], suffixes[i].appends);
    }
  }

  /** The view that stands for the next suffix shows what the chain goes on with. */
  lemma SuffixShows(was: map<Addr, RawString>, raws: map<Addr, RawString>, owner: Bytes, suffixes: seq<Suffix>,
                    bs: seq<Bytes>, b: Bytes, i: nat)
    requires Chainable(was, owner, suffixes) && i < |suffixes| && |bs| == i + 1 && Stable(was, raws)
    requires forall k :: 0 <= k < |bs| ==> Shows(was, raws, owner, suffixes, bs[k], k)
    requires StandsFor(raws, bs, suffixes[i], b)
    ensures FitsIn(raws, b)
    ensures Chained(was, owner, suffixes, i + 1) == Chained(was, owner, suffixes, i) + ViewIn(raws, b)
  {
    hide FitsIn, ViewIn;
    if suffixes[i].Earlier? {
      assert Shows(was, raws, owner, suffixes, bs[suffixes[i].appends], suffixes[i].appends);
    }
  }

  /** Views keep standing for their suffixes. */
  lemma StillStand(r: map<Addr, RawString>, t: map<Addr, RawString>, suffixes: seq<Suffix>, bs: seq<Bytes>,
                   more: seq<Bytes>, pieces: seq<Bytes>)
    requires Stable(r, t) && bs <= more && |pieces| <= |suffixes|
    requires forall k :: 0 <= k < |pieces| ==> StandsFor(r, bs, suffixes[k], pieces[k])
    ensures forall k :: 0 <= k < |pieces| ==> StandsFor(t, more, suffixes[k], pieces[k])
  {
    hide FitsIn, ViewIn;
    forall k | 0 <= k < |pieces|
      ensures StandsFor(t, more, suffixes[k], pieces[k])
    {
      assert StandsFor(r, bs, suffixes[k], pieces[k]);
    }
  }

  // ----- what a chain of appends costs ------------------------------------------------

  /** Bytes copied while content is still short, at most. */
  const SHORT: nat := 120

  /** The total `spent` on building `b` is covered: by its length while it is
      short; afterwards by its length and the capacity it last had to move to. */
  ghost predicate Covered(raws: map<Addr, RawString>, statics: set<Addr>, b: Bytes, spent: nat) {
    FitsIn(raws, b) &&
    match b
    case Inline(data) => 2 * spent <= |data| * (|data| + 1)
    case Slice(raw, start, end) =>
      var r := raws[raw];
      || (start == 0 && raw !in statics && r.len == end && IsPower(r.cap) && r.cap <= 2 * end
          && spent <= SHORT + 2 * r.cap + end)
      || spent <= SHORT + (end - start)
  }

  /** Along a chain of appends, five times the final length and a constant. */
  lemma CoveredCost(raws: map<Addr, RawString>, statics: set<Addr>, b: Bytes, spent: nat)
    requires Covered(raws, statics, b, spent)
    ensures spent <= 5 * Length(b) + SHORT
  {
    if b.Inline? {
      ShortSquare(|b.data|);
    }
  }

  /** A chain starts with nothing spent. */
  lemma CoveredStart(raws: map<Addr, RawString>, statics: set<Addr>, b: Bytes)
    requires FitsIn(raws, b)
    ensures Covered(raws, statics, b, 0)
  {
  }

  lemma ShortSquare(n: nat)
    requires n < INLINE
    ensures n * (n + 1) <= 16 * n && n * (n + 1) <= 2 * SHORT
  {
    assert n * (n + 1) <= n * 16;
  }

  class Contents {
    var raws: map<Addr, RawString>
    /** Storage of the program image, which is never written. */
    const statics: set<Addr>
    var usage: nat

    ghost predicate Valid()
      reads this
    {
      forall r :: r in raws ==> ValidRaw(raws[r])
    }

    ghost predicate Fits(b: Bytes)
      reads this
    {
      FitsIn(raws, b)
    }

    ghost function View(b: Bytes): seq<int>
      requires Fits(b)
      reads this
    {
      ViewIn(raws, b)
    }

    constructor (statics: set<Addr>)
      ensures Valid() && raws == map[] && usage == 0 && this.statics == statics
    {
      raws, usage, this.statics := map[], 0, statics;
    }

    function Shown(b: Bytes): (r: seq<int>)
      requires FitsIn(raws, b)
      reads this
      ensures r == ViewIn(raws, b) && |r| == Length(b)
    {
      ViewIn(raws, b)
    }

    /** Raw storage for `capacity` bytes at a fresh address. */
    method AllocateCapacity(capacity: nat, address: Addr)
      requires Valid() && address !in raws
      modifies this
      ensures Valid() && usage == old(usage) + capacity + RAW_HEADER
      ensures raws == old(raws)[address := RawString(0, capacity, seq(capacity, i => 0))]
      ensures Stable(old(raws), raws)
    {
      TailOnly(raws, address, RawString(0, capacity, seq(capacity, i => 0)));
      raws := raws[address := RawString(0, capacity, seq(capacity, i => 0))];
      usage := usage + capacity + RAW_HEADER;
    }

    /** New content with the given bytes. */
    method Write(source: seq<int>, address: Addr) returns (b: Bytes)
      requires Valid() && address !in raws
      modifies this
      ensures Valid() && Stable(old(raws), raws) && Fits(b) && View(b) == source
      ensures usage == old(usage) + (if |source| < INLINE then 0 else |source| + RAW_HEADER)
      ensures raws.Keys <= old(raws.Keys) + {address} && Extends(old(raws), raws)
    {
      if |source| < INLINE {
        return Inline(source);
      }
      AllocateCapacity(|source|, address);
      ghost var before := raws;
      TailOnly(raws, address, RawString(|source|, |source|, source));
      raws := raws[address := RawString(|source|, |source|, source)];
      StableTrans(old(raws), before, raws);
      b := Slice(address, 0, |source|);
      assert source[0..|source|] == source;
    }

    /** A view of part of a view; `None` where the runtime stops. */
    method SliceOf(owner: Bytes, start: nat, length: nat) returns (b: Option<Bytes>)
      requires Valid() && Fits(owner)
      ensures b.None? <==> start + length > Length(owner)
      ensures b.Some? ==> Fits(b.value) && View(b.value) == View(owner)[start..start + length]
    {
      var parent := Shown(owner);
      var end := start + length;
      if end > |parent| {
        return None;
      }
      if length < INLINE {
        return Some(Inline(parent[start..end]));
      }
      LongIsSlice(raws, owner);
      b := Some(Slice(owner.raw, owner.start + start, owner.start + end));
      SubView(raws[owner.raw].bytes, owner.start, owner.end, start, end);
    }

    /** Appends without touching a published byte: in place behind the view if it
        ends where its storage does, otherwise into new storage of the next power
        of two. Costs stay covered. `None` is an overflow. */
    method Append(owner: Bytes, suffix: Bytes, address: Addr, ghost spent: nat) returns (r: Option<Appended>)
      requires Valid() && Fits(owner) && Fits(suffix) && address !in raws && address !in statics
      modifies this
      ensures Valid() && Stable(old(raws), raws)
      ensures r.None? <==> TooLong(old(raws), statics, owner, suffix)
      ensures r.None? ==> raws == old(raws)
      ensures raws.Keys <= old(raws.Keys) + {address}
      ensures r.Some? ==> Fits(r.value.bytes) && View(r.value.bytes) == old(View(owner) + View(suffix))
      ensures r.Some? ==> r.value.copied == Cost(old(raws), statics, owner, suffix)
      ensures r.Some? && old(Covered(raws, statics, owner, spent)) ==>
        Covered(raws, statics, r.value.bytes, spent + r.value.copied)
    {
      hide Stable, IsPower;
      var left, right := Shown(owner), Shown(suffix);
      var length := |left| + |right|;
      Unchanged(raws);
      if length > U32_MAX {
        return None;
      }
      if |right| == 0 {
        assert left + right == left;
        return Some(Appended(owner, 0));
      }
      if length < INLINE {
        ShortAppend(|left|, |right|, spent);
        return Some(Appended(Inline(left + right), length));
      }
      if owner.Slice? {
        var end := owner.end + |right|;
        if end > U32_MAX {
          return None;
        }
        if owner.raw !in statics && owner.end == raws[owner.raw].len && end <= raws[owner.raw].cap {
          var grown := AppendInPlace(owner, suffix, spent);
          return Some(grown);
        }
      }
      var cap := Capacity(length);
      if cap > U32_MAX - RAW_HEADER {
        return None;
      }
      var moved := AppendMoved(owner, suffix, cap, address, spent);
      return Some(moved);
    }

    method AppendInPlace(owner: Bytes, suffix: Bytes, ghost spent: nat) returns (r: Appended)
      requires Valid() && Fits(owner) && Fits(suffix) && InPlace(raws, statics, owner, Length(suffix))
      modifies this`raws
      ensures Valid() && Stable(old(raws), raws)
      ensures Fits(r.bytes) && View(r.bytes) == old(View(owner) + View(suffix))
      ensures raws.Keys == old(raws.Keys) && r.copied == Length(suffix)
      ensures old(Covered(raws, statics, owner, spent)) ==> Covered(raws, statics, r.bytes, spent + r.copied)
    {
      hide Stable, IsPower;
      var right := Shown(suffix);
      var was := raws[owner.raw];
      var end := owner.end + |right|;
      var grown := RawString(end, was.cap, Over(was.bytes, owner.end, right));
      TailOnly(raws, owner.raw, grown);
      raws := raws[owner.raw := grown];
      r := Appended(Slice(owner.raw, owner.start, end), |right|);
      assert grown.bytes[owner.start..end] == grown.bytes[..owner.end][owner.start..] + grown.bytes[owner.end..end];
      assert was.bytes[owner.start..owner.end] == was.bytes[..owner.end][owner.start..];
    }

    method AppendMoved(owner: Bytes, suffix: Bytes, cap: nat, address: Addr, ghost spent: nat) returns (r: Appended)
      requires Valid() && Fits(owner) && Fits(suffix) && address !in raws && address !in statics
      requires var length := Length(owner) + Length(suffix); INLINE <= length <= cap < 2 * length && IsPower(cap)
      requires !InPlace(raws, statics, owner, Length(suffix))
      modifies this
      ensures Valid() && Stable(old(raws), raws)
      ensures Fits(r.bytes) && View(r.bytes) == old(View(owner) + View(suffix))
      ensures raws.Keys == old(raws.Keys) + {address} && r.copied == Length(owner) + Length(suffix)
      ensures old(Covered(raws, statics, owner, spent)) ==> Covered(raws, statics, r.bytes, spent + r.copied)
    {
      hide Stable, IsPower;
      var left, right := Shown(owner), Shown(suffix);
      var length := |left| + |right|;
      AllocateCapacity(cap, address);
      ghost var before := raws;
      var filled := RawString(length, cap, Over(seq(cap, i => 0), 0, left + right));
      TailOnly(raws, address, filled);
      raws := raws[address := filled];
      StableTrans(old(raws), before, raws);
      r := Appended(Slice(address, 0, length), length);
      if Covered(old(raws), statics, owner, spent) {
        MoveCovered(old(raws), statics, owner, spent, |right|, cap);
      }
    }

    /** The view to append: new content is written first. Storage there was stays
        as it is. */
    method Prepare(suffix: Suffix, results: seq<Bytes>, address: Addr) returns (b: Bytes)
      requires Valid() && address !in raws
      requires suffix.Given? ==> Fits(suffix.bytes)
      requires suffix.Earlier? ==> suffix.appends < |results| && Fits(results[suffix.appends])
      modifies this
      ensures Valid() && Stable(old(raws), raws) && StandsFor(raws, results, suffix, b)
      ensures raws.Keys <= old(raws.Keys) + {address} && Extends(old(raws), raws)
    {
      hide Stable;
      Unchanged(raws);
      match suffix
      case Given(given) => b := given;
      case Earlier(k) => b := results[k];
      case Made(data) => b := Write(data, address);
    }

    /** A chain of appends, each to the result of the one before, until one of
        them overflows: every result shows all views up to it in order, to the
        end of the chain, and few more bytes are copied than there are. `pieces`
        are the views that were appended, new content among them, and `storages`
        is the storage each append met. */
    method AppendAll(owner: Bytes, suffixes: seq<Suffix>, spare: seq<Addr>, addresses: seq<Addr>)
      returns (results: seq<Bytes>, pieces: seq<Bytes>, copied: nat, ghost storages: seq<map<Addr, RawString>>)
      requires Valid() && Chainable(raws, owner, suffixes)
      requires |spare| == |addresses| == |suffixes|
      requires forall i :: 0 <= i < |spare| ==> spare[i] !in raws && addresses[i] !in raws && addresses[i] !in statics
      requires forall i, j :: 0 <= i < |spare| && 0 <= j < |spare| ==> spare[i] != addresses[j]
      requires forall i, j :: 0 <= i < j < |spare| ==> spare[i] != spare[j] && addresses[i] != addresses[j]
      modifies this
      ensures Valid() && Stable(old(raws), raws)
      ensures |results| > 0 && results[0] == owner && |pieces| == |storages| <= |suffixes|
      ensures |results| == |pieces| || (|results| == |pieces| + 1 && |pieces| == |suffixes|)
      ensures forall i :: 0 <= i < |results| ==> Shows(old(raws), raws, owner, suffixes, results[i], i)
      ensures forall i :: 0 <= i < |pieces| ==> StandsFor(raws, results, suffixes[i], pieces[i])
      ensures forall i :: 0 <= i < |pieces| ==>
        (TooLong(storages[i], statics, results[i], pieces[i]) <==> i == |results| - 1)
      ensures forall i :: 0 <= i < |storages| ==> Between(old(raws), storages[i], raws)
      ensures |storages| > 0 ==> Extends(old(raws), storages[0])
      ensures |results| == |pieces| ==> storages[|storages| - 1] == raws
      ensures copied == TotalCost(storages, statics, results, pieces, |results| - 1)
      ensures copied <= 5 * Length(results[|results| - 1]) + SHORT
    {
      hide Cost, Covered, Stable, FitsIn, ViewIn, ValidRaw, Length, Chained, Shows, TooLong, StandsFor, Between,
           Extends;
      ghost var was := raws;
      results, pieces, copied, storages := [owner], [], 0, [];
      CoveredStart(raws, statics, owner);
      Unchanged(raws);
      ChainStart(was, owner, suffixes);
      for i := 0 to |suffixes|
        invariant Valid() && Stable(was, raws) && |results| == i + 1 && |pieces| == |storages| == i
        invariant results[0] == owner && (i > 0 ==> Extends(was, storages[0])) && (i == 0 ==> raws == was)
        invariant forall k :: 0 <= k < i ==> Between(was, storages[k], raws)
        invariant Covered(raws, statics, results[i], copied)
        invariant copied == TotalCost(storages, statics, results, pieces, i)
        invariant forall k :: i <= k < |spare| ==> spare[k] !in raws && addresses[k] !in raws
        invariant forall k :: 0 <= k <= i ==> Shows(was, raws, owner, suffixes, results[k], k)
        invariant forall k :: 0 <= k < i ==> StandsFor(raws, results, suffixes[k], pieces[k])
        invariant forall k :: 0 <= k < i ==> !TooLong(storages[k], statics, results[k], pieces[k])
      {
        ghost var start := raws;
        SuffixFits(was, raws, owner, suffixes, results, i);
        var piece := Prepare(suffixes[i], results, spare[i]);
        ghost var before := raws;
        StableTrans(was, start, before);
        StableShows(was, start, before, owner, suffixes, results);
        StillStand(start, before, suffixes, results, results, pieces);
        SuffixShows(was, before, owner, suffixes, results, piece, i);
        CoveredBeside(start, before, statics, results[i], copied);
        assert Shows(was, raws, owner, suffixes, results[i], i);
        ShownFits(was, raws, owner, suffixes, results[i], i);
        Arrived(was, before);
        BetweenGrows(was, storages, start, before);
        TotalGrows(storages, statics, results, pieces, storages + [raws], results, pieces + [piece], i);
        pieces, storages := pieces + [piece], storages + [raws];
        var next := Append(results[i], piece, addresses[i], copied);
        StableTrans(was, before, raws);
        BetweenGrows(was, storages, before, raws);
        if next.None? {
          CoveredCost(raws, statics, results[i], copied);
          return;
        }
        StableShows(was, before, raws, owner, suffixes, results);
        assert Shows(was, raws, owner, suffixes, next.value.bytes, i + 1) by {
          NextShows(was, before, raws, owner, suffixes, results[i], piece, next.value.bytes, i);
        }
        StillStand(before, raws, suffixes, results, results + [next.value.bytes], pieces);
        TotalGrows(storages, statics, results, pieces, storages, results + [next.value.bytes], pieces, i + 1);
        results, copied := results + [next.value.bytes], copied + next.value.copied;
      }
      CoveredCost(raws, statics, results[|suffixes|], copied);
    }
  }

  /** Writing new content leaves the cost covered. */
  lemma CoveredBeside(raws: map<Addr, RawString>, now: map<Addr, RawString>, statics: set<Addr>, b: Bytes, spent: nat)
    requires Covered(raws, statics, b, spent) && Extends(raws, now)
    ensures Covered(now, statics, b, spent)
  {
    hide IsPower;
  }

  lemma Arrived(was: map<Addr, RawString>, now: map<Addr, RawString>)
    requires Stable(was, now)
    ensures Between(was, now, now)
  {
    Unchanged(now);
  }

  lemma BetweenGrows(was: map<Addr, RawString>, met: seq<map<Addr, RawString>>, r: map<Addr, RawString>,
                     now: map<Addr, RawString>)
    requires Stable(r, now) && forall k :: 0 <= k < |met| ==> Between(was, met[k], r)
    ensures forall k :: 0 <= k < |met| ==> Between(was, met[k], now)
  {
    hide Stable;
    forall k | 0 <= k < |met|
      ensures Between(was, met[k], now)
    {
      assert Between(was, met[k], r);
      StableTrans(met[k], r, now);
    }
  }

  lemma ChainStart(was: map<Addr, RawString>, owner: Bytes, suffixes: seq<Suffix>)
    requires Chainable(was, owner, suffixes)
    ensures Shows(was, was, owner, suffixes, owner, 0)
  {
  }

  lemma ShownFits(was: map<Addr, RawString>, raws: map<Addr, RawString>, owner: Bytes, suffixes: seq<Suffix>, b: Bytes,
                  i: nat)
    requires Chainable(was, owner, suffixes) && i <= |suffixes| && Shows(was, raws, owner, suffixes, b, i)
    ensures FitsIn(raws, b)
  {
    hide FitsIn, ViewIn, Chained;
  }

  lemma NextShows(was: map<Addr, RawString>, before: map<Addr, RawString>, raws: map<Addr, RawString>, owner: Bytes,
                  suffixes: seq<Suffix>, b: Bytes, suffix: Bytes, next: Bytes, i: nat)
    requires Chainable(was, owner, suffixes) && i < |suffixes| && Shows(was, before, owner, suffixes, b, i)
    requires FitsIn(before, suffix) && FitsIn(raws, next)
    requires ViewIn(raws, next) == ViewIn(before, b) + ViewIn(before, suffix)
    requires Chained(was, owner, suffixes, i + 1) == Chained(was, owner, suffixes, i) + ViewIn(before, suffix)
    ensures Shows(was, raws, owner, suffixes, next, i + 1)
  {
    hide FitsIn, ViewIn, Chained;
  }

  lemma LongIsSlice(raws: map<Addr, RawString>, b: Bytes)
    requires FitsIn(raws, b) && Length(b) >= INLINE
    ensures b.Slice?
  {
  }

  lemma SubView(s: seq<int>, lo: nat, hi: nat, start: nat, end: nat)
    requires start <= end <= hi - lo && lo <= hi <= |s|
    ensures s[lo..hi][start..end] == s[lo + start..lo + end]
  {
    var a, b := s[lo..hi][start..end], s[lo + start..lo + end];
    assert |a| == |b| && forall i :: 0 <= i < |a| ==> a[i] == b[i];
  }

  lemma Unchanged(raws: map<Addr, RawString>)
    ensures Stable(raws, raws)
  {
  }

  lemma ShortAppend(left: nat, right: nat, spent: nat)
    requires right > 0 && left + right < INLINE
    ensures 2 * spent <= left * (left + 1) ==> 2 * (spent + left + right) <= (left + right) * (left + right + 1)
  {
    var n := left + right;
    assert left * (left + 1) <= (n - 1) * n;
    assert n * (n + 1) == (n - 1) * n + 2 * n;
  }

  /** Moving pays for itself: capacities at least double. */
  lemma MoveCovered(raws: map<Addr, RawString>, statics: set<Addr>, owner: Bytes, spent: nat, right: nat, cap: nat)
    requires Covered(raws, statics, owner, spent) && IsPower(cap) && Length(owner) + right <= cap
    requires owner.Slice? && owner.raw !in statics && owner.end == raws[owner.raw].len ==>
      owner.end + right > raws[owner.raw].cap
    ensures spent + Length(owner) + right <= SHORT + 2 * cap + Length(owner) + right
  {
    hide IsPower;
    match owner
    case Inline(data) => ShortSquare(|data|);
    case Slice(raw, start, end) =>
      var r := raws[raw];
      if start == 0 && raw !in statics && r.len == end && IsPower(r.cap) && r.cap <= 2 * end
        && spent <= SHORT + 2 * r.cap + end {
        PowersDouble(r.cap, cap);
      }
  }
}
