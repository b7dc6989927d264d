/** The snapshot artifact codec (snapshot_artifact.rs). */
module SnapshotCodec {
  import opened Wrappers

  type Byte = x: int | 0 <= x < 256

  const TWO_32: nat := 0x1_0000_0000
  const TWO_64: nat := 0x1_0000_0000_0000_0000

  datatype GlobalValue = I32(i32: int) | I64(i64: int) | F32(f32: nat) | F64(f64: nat)

  /** A name is its bytes in UTF-8. */
  datatype Global = Global(name: seq<Byte>, value: GlobalValue)

  datatype Snapshot = Snapshot(guest: seq<Byte>, globals: seq<Global>)

  datatype Error = Magic | Version | Truncated | Count | Name | Tag | Trailing | TooLong

  type Result<+T> = Wrappers.Result<T, Error>

  function MagicBytes(): seq<Byte> {
    [84, 76, 83, 65, 82, 84, 48, 49]
  }

  const VERSION: nat := 1

  // ----- words ------------------------------------------------------------------------

  /** Little-endian bytes of a number. */
  function Little(n: nat, length: nat): (r: seq<Byte>)
    ensures |r| == length
  {
    if length == 0 then [] else [n % 256] + Little(n / 256, length - 1)
  }

  function Number(bytes: seq<Byte>): nat {
    if bytes == [] then 0 else bytes[0] + 256 * Number(bytes[1..])
  }

  function Power(length: nat): (p: nat)
    ensures p > 0
  {
    if length == 0 then 1 else 256 * Power(length - 1)
  }

  lemma {:induction false} NumberOfLittle(n: nat, length: nat)
    requires n < Power(length)
    ensures Number(Little(n, length)) == n
  {
    if length > 0 {
      NumberOfLittle(n / 256, length - 1);
      assert Little(n, length)[1..] == Little(n / 256, length - 1);
    }
  }

  lemma {:induction false} LittleOfNumber(bytes: seq<Byte>)
    ensures Little(Number(bytes), |bytes|) == bytes && Number(bytes) < Power(|bytes|)
  {
    if bytes != [] {
      LittleOfNumber(bytes[1..]);
      assert bytes == [bytes[0]] + bytes[1..];
    }
  }

  lemma Powers()
    ensures Power(4) == TWO_32 && Power(8) == TWO_64
  {
    assert Power(1) == 256 && Power(2) == 0x1_0000 && Power(3) == 0x100_0000;
    assert Power(4) == TWO_32 && Power(5) == 0x100_0000_0000 && Power(6) == 0x1_0000_0000_0000
      && Power(7) == 0x100_0000_0000_0000;
  }

  /** Two's complement. */
  function Unsigned(v: int, modulus: nat): nat
    requires modulus > 0
  {
    v % modulus
  }

  function Signed(n: nat, modulus: nat): int {
    if 2 * n >= modulus then n - modulus else n
  }

  predicate Fits(v: GlobalValue) {
    match v
    case I32(i) => -(TWO_32 / 2) <= i < TWO_32 / 2
    case I64(i) => -(TWO_64 / 2) <= i < TWO_64 / 2
    case F32(bits) => bits < TWO_32
    case F64(bits) => bits < TWO_64
  }

  // ----- the encoding ------------------------------------------------------------------

  function Framed(bytes: seq<Byte>): seq<Byte> {
    Little(|bytes|, 4) + bytes
  }

  function TagOf(v: GlobalValue): Byte {
    match v
    case I32(_) => 0
    case I64(_) => 1
    case F32(_) => 2
    case F64(_) => 3
  }

  function Width(tag: int): nat {
    if tag == 0 || tag == 2 then 4 else 8
  }

  function BitsOf(v: GlobalValue): nat {
    match v
    case I32(i) => Unsigned(i, TWO_32)
    case I64(i) => Unsigned(i, TWO_64)
    case F32(bits) => bits
    case F64(bits) => bits
  }

  function OfBits(tag: int, bits: nat): GlobalValue {
    if tag == 0 then I32(Signed(bits, TWO_32))
    else if tag == 1 then I64(Signed(bits, TWO_64))
    else if tag == 2 then F32(bits)
    else F64(bits)
  }

  lemma BitsInverse(v: GlobalValue)
    requires Fits(v)
    ensures OfBits(TagOf(v), BitsOf(v)) == v && BitsOf(v) < Power(Width(TagOf(v)))
  {
    hide Power;
    Powers();
  }

  lemma OfBitsInverse(tag: int, bits: nat)
    requires 0 <= tag < 4 && bits < Power(Width(tag))
    ensures var v := OfBits(tag, bits); Fits(v) && TagOf(v) == tag && BitsOf(v) == bits
  {
    hide Power;
    Powers();
  }

  function EncodedGlobal(g: Global): seq<Byte> {
    Framed(g.name) + [TagOf(g.value)] + Little(BitsOf(g.value), Width(TagOf(g.value)))
  }

  function EncodedGlobals(gs: seq<Global>): seq<Byte> {
    if gs == [] then [] else EncodedGlobals(gs[..|gs| - 1]) + EncodedGlobal(gs[|gs| - 1])
  }

  function Encoded(s: Snapshot): seq<Byte> {
    MagicBytes() + Little(VERSION, 4) + Framed(s.guest) + Little(|s.globals|, 4) + EncodedGlobals(s.globals)
  }

  /** Lengths fit the format. */
  predicate Encodable(s: Snapshot) {
    |s.guest| < TWO_32 && |s.globals| < TWO_32 && forall g :: g in s.globals ==> |g.name| < TWO_32
  }

  /** What a snapshot value is: numbers of their width, names in UTF-8. */
  predicate Typed(utf8: seq<Byte> -> bool, s: Snapshot) {
    forall g :: g in s.globals ==> Fits(g.value) && utf8(g.name)
  }

// ----- an image, byte by byte -------------------------------------------------------------

  /** Four bytes as a number, the least significant first. */
  function FourBytes(b: seq<Byte>): nat
    requires |b| == 4
  {
    b[0] as nat + 0x100 * b[1] as nat + 0x1_0000 * b[2] as nat + 0x100_0000 * b[3] as nat
  }

  lemma LittleFour(n: nat)
    requires n < TWO_32
    ensures FourBytes(Little(n, 4)) == n
  {
    FirstFour(n, 0);
  }

  /** The first four of several bytes, and the rest. */
  lemma FirstFour(n: nat, more: nat)
    ensures var low, rest := Little(n, 4 + more)[..4], n / 256 / 256 / 256 / 256;
      n == FourBytes(low) + TWO_32 * rest && Little(n, 4 + more)[4..] == Little(rest, more)
  {
    hide Little;
    var a := n / 256;
    var b := a / 256;
    var c := b / 256;
    FirstByte(n, 3 + more);
    FirstByte(a, 2 + more);
    FirstByte(b, 1 + more);
    FirstByte(c, more);
  }

  lemma FirstByte(n: nat, more: nat)
    ensures Little(n, 1 + more)[0] == n % 256 && Little(n, 1 + more)[1..] == Little(n / 256, more)
  {
  }

  /** The header of an image: eight letters, the version, the guest behind its length,
      and the number of globals. */
  lemma ImageParts(s: Snapshot)
    requires Encodable(s)
    ensures var e, n := Encoded(s), |s.guest|;
      && |e| >= 20 + n && e[..8] == [84, 76, 83, 65, 82, 84, 48, 49] && e[8..12] == [1, 0, 0, 0]
      && FourBytes(e[12..16]) == n && e[16..16 + n] == s.guest && FourBytes(e[16 + n..20 + n]) == |s.globals|
      && e[20 + n..] == EncodedGlobals(s.globals)
  {
    hide EncodedGlobals, Little;
    var e, n := Encoded(s), |s.guest|;
    VersionBytes();
    LittleFour(n);
    LittleFour(|s.globals|);
    assert e[12..16] == Little(n, 4);
    assert e[16 + n..20 + n] == Little(|s.globals|, 4);
  }

  lemma VersionBytes()
    ensures Little(VERSION, 4) == [1, 0, 0, 0]
  {
    assert Little(0, 1) == [0] && Little(0, 2) == [0, 0] && Little(0, 3) == [0, 0, 0];
  }

  /** A global: its name behind its length, one byte for its type, and its number, a
      negative one as its complement. */
  lemma GlobalParts(g: Global)
    requires |g.name| < TWO_32 && Fits(g.value)
    ensures var e, n := EncodedGlobal(g), |g.name|;
      && |e| >= n + 9 && FourBytes(e[..4]) == n && e[4..4 + n] == g.name
      && var low := FourBytes(e[n + 5..n + 9]);
      match g.value
      case I32(i) => |e| == n + 9 && e[n + 4] == 0 && low == if i < 0 then i + 0x1_0000_0000 else i
      case F32(bits) => |e| == n + 9 && e[n + 4] == 2 && low == bits
      case I64(i) =>
        && |e| == n + 13 && e[n + 4] == 1
        && low + 0x1_0000_0000 * FourBytes(e[n + 9..]) == if i < 0 then i + 0x1_0000_0000_0000_0000 else i
      case F64(bits) => |e| == n + 13 && e[n + 4] == 3 && low + 0x1_0000_0000 * FourBytes(e[n + 9..]) == bits
  {
    hide Little, Power, BitsOf;
    var e, n, bits := EncodedGlobal(g), |g.name|, BitsOf(g.value);
    NumberBits(g.value);
    LittleFour(n);
    assert e[..4] == Little(n, 4);
    if g.value.I32? || g.value.F32? {
      LittleFour(bits);
      assert e[n + 5..n + 9] == Little(bits, 4);
    } else {
      LittleEight(bits);
      assert e[n + 5..n + 9] == Little(bits, 8)[..4] && e[n + 9..] == Little(bits, 8)[4..];
    }
  }

  lemma NumberBits(v: GlobalValue)
    requires Fits(v)
    ensures BitsOf(v) < TWO_64 && (v.I32? || v.F32? ==> BitsOf(v) < TWO_32)
    ensures v.I32? ==> BitsOf(v) == if v.i32 < 0 then v.i32 + TWO_32 else v.i32
    ensures v.I64? ==> BitsOf(v) == if v.i64 < 0 then v.i64 + TWO_64 else v.i64
    ensures v.F32? ==> BitsOf(v) == v.f32
    ensures v.F64? ==> BitsOf(v) == v.f64
  {
  }

  lemma LittleEight(n: nat)
    requires n < TWO_64
    ensures FourBytes(Little(n, 8)[..4]) + TWO_32 * FourBytes(Little(n, 8)[4..]) == n
  {
    hide Little;
    FirstFour(n, 4);
    LittleFour(n / 256 / 256 / 256 / 256);
  }

  method Encode(s: Snapshot) returns (r: Result<seq<Byte>>)
    ensures r.Ok? <==> Encodable(s)
    ensures r.Ok? ==> r.value == Encoded(s)
  {
    hide MagicBytes, Little, EncodedGlobals, EncodedGlobal, TagOf, BitsOf, Width;
    var out := MagicBytes() + Little(VERSION, 4);
    if |s.guest| >= TWO_32 {
      return Err(TooLong);
    }
    out := out + Little(|s.guest|, 4) + s.guest;
    if |s.globals| >= TWO_32 {
      return Err(TooLong);
    }
    out := out + Little(|s.globals|, 4);
    ghost var head := out;
    assert head == MagicBytes() + Little(VERSION, 4) + Framed(s.guest) + Little(|s.globals|, 4);
    NoneEncoded(s.globals);
    for i := 0 to |s.globals|
      invariant out == head + EncodedGlobals(s.globals[..i])
      invariant forall k :: 0 <= k < i ==> |s.globals[k].name| < TWO_32
    {
      var g := s.globals[i];
      if |g.name| >= TWO_32 {
        assert g in s.globals;
        return Err(TooLong);
      }
      ghost var before := out;
      out := out + Little(|g.name|, 4) + g.name;
      out := out + [TagOf(g.value)] + Little(BitsOf(g.value), Width(TagOf(g.value)));
      NextEncoded(s.globals, i);
      assert out == before + EncodedGlobal(g) by { GlobalBytes(g); }
    }
    assert s.globals[..|s.globals|] == s.globals;
    return Ok(out);
  }

  lemma NoneEncoded(gs: seq<Global>)
    ensures EncodedGlobals(gs[..0]) == []
  {
  }

  lemma NextEncoded(gs: seq<Global>, i: nat)
    requires i < |gs|
    ensures EncodedGlobals(gs[..i + 1]) == EncodedGlobals(gs[..i]) + EncodedGlobal(gs[i])
  {
    hide EncodedGlobal;
    assert gs[..i + 1][..i] == gs[..i];
  }

  lemma GlobalBytes(g: Global)
    ensures EncodedGlobal(g) ==
      Little(|g.name|, 4) + g.name + [TagOf(g.value)] + Little(BitsOf(g.value), Width(TagOf(g.value)))
  {
    hide Little, TagOf, BitsOf, Width;
  }

  // ----- reading -------------------------------------------------------------------------

  datatype Parsed<+T> = Fail(error: Error) | Got(value: T, at: nat)

  function TakeAt(input: seq<Byte>, at: nat, length: nat): Parsed<seq<Byte>> {
    if at + length <= |input| then Got(input[at..at + length], at + length) else Fail(Truncated)
  }

  function NumberAt(input: seq<Byte>, at: nat, length: nat): Parsed<nat> {
    match TakeAt(input, at, length)
    case Fail(e) => Fail(e)
    case Got(bytes, end) => Got(Number(bytes), end)
  }

  function BytesAt(input: seq<Byte>, at: nat): Parsed<seq<Byte>> {
    match NumberAt(input, at, 4)
    case Fail(e) => Fail(e)
    case Got(length, end) => TakeAt(input, end, length)
  }

  function ValueAt(input: seq<Byte>, at: nat): Parsed<GlobalValue> {
    match TakeAt(input, at, 1)
    case Fail(e) => Fail(e)
    case Got(tag, end) =>
      if tag[0] >= 4 then Fail(Tag)
      else
        match NumberAt(input, end, Width(tag[0]))
        case Fail(e) => Fail(e)
        case Got(bits, last) => Got(OfBits(tag[0], bits), last)
  }

  function GlobalAt(utf8: seq<Byte> -> bool, input: seq<Byte>, at: nat): Parsed<Global> {
    match BytesAt(input, at)
    case Fail(e) => Fail(e)
    case Got(name, end) =>
      if !utf8(name) then Fail(Name)
      else
        match ValueAt(input, end)
        case Fail(e) => Fail(e)
        case Got(value, last) => Got(Global(name, value), last)
  }

  function GlobalsAt(utf8: seq<Byte> -> bool, input: seq<Byte>, at: nat, count: nat): Parsed<seq<Global>> {
    if count == 0 then Got([], at)
    else
      match GlobalsAt(utf8, input, at, count - 1)
      case Fail(e) => Fail(e)
      case Got(before, end) =>
        match GlobalAt(utf8, input, end)
        case Fail(e) => Fail(e)
        case Got(g, last) => Got(before + [g], last)
  }

  /** `bytes` lie in the input at `at`. */
  predicate Lies(input: seq<Byte>, at: nat, bytes: seq<Byte>) {
    at + |bytes| <= |input| && input[at..at + |bytes|] == bytes
  }

  lemma LiesSplit(input: seq<Byte>, at: nat, a: seq<Byte>, b: seq<Byte>)
    ensures Lies(input, at, a + b) <==> Lies(input, at, a) && Lies(input, at + |a|, b)
  {
    var c := a + b;
    if Lies(input, at, c) {
      assert input[at..at + |a|] == c[..|a|] == a;
      assert input[at + |a|..at + |c|] == c[|a|..] == b;
    }
    if Lies(input, at, a) && Lies(input, at + |a|, b) {
      assert input[at..at + |c|] == input[at..at + |a|] + input[at + |a|..at + |c|];
    }
  }

  /** Reading a number finds exactly the numbers that were written. */
  lemma NumberExact(input: seq<Byte>, at: nat, length: nat, n: nat)
    ensures NumberAt(input, at, length) == Got(n, at + length) <==>
      n < Power(length) && Lies(input, at, Little(n, length))
  {
    hide Number, Power, Little;
    if at + length <= |input| {
      LittleOfNumber(input[at..at + length]);
    }
    if n < Power(length) && Lies(input, at, Little(n, length)) {
      NumberOfLittle(n, length);
    }
  }

  lemma BytesExact(input: seq<Byte>, at: nat, bytes: seq<Byte>)
    ensures BytesAt(input, at) == Got(bytes, at + 4 + |bytes|) <==> |bytes| < TWO_32 && Lies(input, at, Framed(bytes))
  {
    hide NumberAt, Little, Power, Lies;
    Powers();
    NumberExact(input, at, 4, |bytes|);
    LiesSplit(input, at, Little(|bytes|, 4), bytes);
    LiesTake(input, at + 4, bytes);
    if BytesAt(input, at).Got? && BytesAt(input, at).value == bytes {
      TakeLength(input, NumberAt(input, at, 4).at, NumberAt(input, at, 4).value);
      NumberEnd(input, at, 4);
    }
  }

  lemma LiesTake(input: seq<Byte>, at: nat, bytes: seq<Byte>)
    ensures Lies(input, at, bytes) <==> TakeAt(input, at, |bytes|) == Got(bytes, at + |bytes|)
  {
  }

  lemma TakeLength(input: seq<Byte>, at: nat, length: nat)
    ensures TakeAt(input, at, length).Got? ==>
      |TakeAt(input, at, length).value| == length && TakeAt(input, at, length).at == at + length
  {
  }

  lemma NumberEnd(input: seq<Byte>, at: nat, length: nat)
    ensures NumberAt(input, at, length).Got? ==> NumberAt(input, at, length).at == at + length
  {
    hide Number;
  }

  function EncodedValue(v: GlobalValue): seq<Byte> {
    [TagOf(v)] + Little(BitsOf(v), Width(TagOf(v)))
  }

  lemma ValueExact(input: seq<Byte>, at: nat, v: GlobalValue)
    ensures ValueAt(input, at) == Got(v, at + |EncodedValue(v)|) <==> Fits(v) && Lies(input, at, EncodedValue(v))
  {
    hide NumberAt, Little, Power, Lies, OfBits, BitsOf, Fits;
    LiesSplit(input, at, [TagOf(v)], Little(BitsOf(v), Width(TagOf(v))));
    LiesTake(input, at, [TagOf(v)]);
    if Fits(v) {
      BitsInverse(v);
      NumberExact(input, at + 1, Width(TagOf(v)), BitsOf(v));
    }
    if ValueAt(input, at).Got? && ValueAt(input, at).value == v {
      var tag := input[at];
      assert input[at..at + 1] == [tag];
      var bits := NumberAt(input, at + 1, Width(tag)).value;
      NumberEnd(input, at + 1, Width(tag));
      NumberExact(input, at + 1, Width(tag), bits);
      OfBitsInverse(tag, bits);
    }
  }

  lemma GlobalExact(utf8: seq<Byte> -> bool, input: seq<Byte>, at: nat, g: Global)
    ensures GlobalAt(utf8, input, at) == Got(g, at + |EncodedGlobal(g)|) <==>
      |g.name| < TWO_32 && utf8(g.name) && Fits(g.value) && Lies(input, at, EncodedGlobal(g))
  {
    hide BytesAt, ValueAt, Little, Lies, BitsOf, Fits;
    assert EncodedGlobal(g) == Framed(g.name) + EncodedValue(g.value);
    LiesSplit(input, at, Framed(g.name), EncodedValue(g.value));
    BytesExact(input, at, g.name);
    ValueExact(input, at + |Framed(g.name)|, g.value);
    if GlobalAt(utf8, input, at).Got? && GlobalAt(utf8, input, at).value == g {
      BytesEnd(input, at);
    }
  }

  lemma BytesEnd(input: seq<Byte>, at: nat)
    ensures BytesAt(input, at).Got? ==> BytesAt(input, at).at == at + 4 + |BytesAt(input, at).value|
  {
    hide NumberAt;
    NumberEnd(input, at, 4);
  }

  predicate Wellformed(utf8: seq<Byte> -> bool, gs: seq<Global>) {
    forall g :: g in gs ==> |g.name| < TWO_32 && utf8(g.name) && Fits(g.value)
  }

  lemma GlobalEnd(utf8: seq<Byte> -> bool, input: seq<Byte>, at: nat)
    ensures var p := GlobalAt(utf8, input, at); p.Got? ==> p.at == at + |EncodedGlobal(p.value)|
  {
    hide BytesAt, NumberAt, Little, BitsOf, OfBits;
    BytesEnd(input, at);
    var p := BytesAt(input, at);
    if p.Got? && p.at < |input| {
      NumberEnd(input, p.at + 1, Width(input[p.at]));
      if input[p.at] < 4 {
        SameWidth(input[p.at], NumberAt(input, p.at + 1, Width(input[p.at])));
      }
    }
  }

  lemma SameWidth(tag: int, bits: Parsed<nat>)
    requires 0 <= tag < 4
    ensures bits.Got? ==> TagOf(OfBits(tag, bits.value)) == tag
  {
  }

  /** Reading globals finds exactly the globals that were written. */
  lemma {:induction false} GlobalsExact(utf8: seq<Byte> -> bool, input: seq<Byte>, at: nat, gs: seq<Global>)
    requires at <= |input|
    ensures GlobalsAt(utf8, input, at, |gs|) == Got(gs, at + |EncodedGlobals(gs)|) <==>
      Wellformed(utf8, gs) && Lies(input, at, EncodedGlobals(gs))
    decreases |gs|
  {
    hide GlobalAt, EncodedGlobal, Lies;
    if gs == [] {
      assert Lies(input, at, []) by { LiesTake(input, at, []); }
    } else {
      var n := |gs| - 1;
      var front := gs[..n];
      assert gs == front + [gs[n]];
      GlobalsExact(utf8, input, at, front);
      LiesSplit(input, at, EncodedGlobals(front), EncodedGlobal(gs[n]));
      GlobalExact(utf8, input, at + |EncodedGlobals(front)|, gs[n]);
      GlobalsEnd(utf8, input, at, n);
    }
  }

  lemma {:induction false} GlobalsEnd(utf8: seq<Byte> -> bool, input: seq<Byte>, at: nat, count: nat)
    ensures var p := GlobalsAt(utf8, input, at, count); p.Got? ==>
      |p.value| == count && p.at == at + |EncodedGlobals(p.value)|
  {
    hide GlobalAt, EncodedGlobal;
    if count > 0 {
      GlobalsEnd(utf8, input, at, count - 1);
      var p := GlobalsAt(utf8, input, at, count - 1);
      if p.Got? {
        GlobalEnd(utf8, input, p.at);
        var q := GlobalAt(utf8, input, p.at);
        if q.Got? {
          assert (p.value + [q.value])[..count - 1] == p.value;
        }
      }
    }
  }

  /** Every global takes up at least nine bytes, so the guard on their number never
      refuses an image. */
  lemma {:induction false} NineEach(gs: seq<Global>)
    ensures 9 * |gs| <= |EncodedGlobals(gs)|
  {
    if gs != [] {
      NineEach(gs[..|gs| - 1]);
    }
  }

  // ----- the reader ------------------------------------------------------------------------

  class Reader {
    const input: seq<Byte>
    var at: nat

    constructor (input: seq<Byte>)
      ensures this.input == input && at == 0
    {
      this.input := input;
      at := 0;
    }

    method Take(length: nat) returns (r: Result<seq<Byte>>)
      modifies this
      ensures r.Ok? ==> TakeAt(input, old(at), length) == Got(r.value, at)
      ensures r.Err? ==> TakeAt(input, old(at), length) == Fail(r.error) && at == old(at)
    {
      if at + length > |input| {
        return Err(Truncated);
      }
      r := Ok(input[at..at + length]);
      at := at + length;
    }

    method ReadNumber(length: nat) returns (r: Result<nat>)
      modifies this
      ensures r.Ok? ==> NumberAt(input, old(at), length) == Got(r.value, at)
      ensures r.Err? ==> NumberAt(input, old(at), length) == Fail(r.error)
    {
      var bytes := Take(length);
      r := if bytes.Err? then Err(bytes.error) else Ok(Number(bytes.value));
    }

    method ReadBytes() returns (r: Result<seq<Byte>>)
      modifies this
      ensures r.Ok? ==> BytesAt(input, old(at)) == Got(r.value, at)
      ensures r.Err? ==> BytesAt(input, old(at)) == Fail(r.error)
    {
      var length := ReadNumber(4);
      if length.Err? {
        return Err(length.error);
      }
      r := Take(length.value);
    }

    method ReadValue() returns (r: Result<GlobalValue>)
      modifies this
      ensures r.Ok? ==> ValueAt(input, old(at)) == Got(r.value, at)
      ensures r.Err? ==> ValueAt(input, old(at)) == Fail(r.error)
    {
      var tag := Take(1);
      if tag.Err? {
        return Err(tag.error);
      }
      if tag.value[0] >= 4 {
        return Err(Tag);
      }
      var bits := ReadNumber(Width(tag.value[0]));
      r := if bits.Err? then Err(bits.error) else Ok(OfBits(tag.value[0], bits.value));
    }

    method ReadGlobal(utf8: seq<Byte> -> bool) returns (r: Result<Global>)
      modifies this
      ensures r.Ok? ==> GlobalAt(utf8, input, old(at)) == Got(r.value, at)
      ensures r.Err? ==> GlobalAt(utf8, input, old(at)) == Fail(r.error)
    {
      var name := ReadBytes();
      if name.Err? {
        return Err(name.error);
      }
      if !utf8(name.value) {
        return Err(Name);
      }
      var value := ReadValue();
      r := if value.Err? then Err(value.error) else Ok(Global(name.value, value.value));
    }
  }

  /** Decoding accepts exactly the images of snapshots, and gives the snapshot
      back. */
  method Decode(utf8: seq<Byte> -> bool, input: seq<Byte>) returns (r: Result<Snapshot>)
    ensures r.Ok? ==> Encodable(r.value) && Typed(utf8, r.value) && Encoded(r.value) == input
    ensures forall s :: Encodable(s) && Typed(utf8, s) && Encoded(s) == input ==> r == Ok(s)
  {
    hide TakeAt, NumberAt, BytesAt, GlobalAt, GlobalsAt, Lies, Encoded, EncodedGlobals, Framed, MagicBytes, Little;
    Parts(utf8, input);
    var reader := new Reader(input);
    var magic := reader.Take(8);
    if magic.Err? || magic.value != MagicBytes() {
      return Err(if magic.Err? then magic.error else Magic);
    }
    var version := reader.ReadNumber(4);
    if version.Err? || version.value != VERSION {
      return Err(if version.Err? then version.error else Version);
    }
    var guest := reader.ReadBytes();
    if guest.Err? {
      return Err(guest.error);
    }
    ghost var guestEnd := reader.at;
    var count := reader.ReadNumber(4);
    if count.Err? {
      return Err(count.error);
    }
    var start := reader.at;
    NumberEnd(input, guestEnd, 4);
    if count.value > (if |input| < start then 0 else |input| - start) / 9 {
      return Err(Count);
    }
    var globals: seq<Global> := [];
    NoGlobals(utf8, input, start);
    for i := 0 to count.value
      invariant reader.input == input && fresh(reader)
      invariant GlobalsAt(utf8, input, start, i) == Got(globals, reader.at)
    {
      var g := reader.ReadGlobal(utf8);
      NextGlobal(utf8, input, start, i, globals);
      if g.Err? {
        MoreFail(utf8, input, start, i + 1, count.value);
        return Err(g.error);
      }
      globals := globals + [g.value];
    }
    if reader.at != |input| {
      return Err(Trailing);
    }
    r := Ok(Snapshot(guest.value, globals));
    GlobalsEnd(utf8, input, start, count.value);
    TakeLength(input, 0, 8);
    NumberEnd(input, 8, 4);
    assert Reads(utf8, input, r.value);
  }

  lemma NoGlobals(utf8: seq<Byte> -> bool, input: seq<Byte>, at: nat)
    ensures GlobalsAt(utf8, input, at, 0) == Got([], at)
  {
  }

  lemma NextGlobal(utf8: seq<Byte> -> bool, input: seq<Byte>, at: nat, i: nat, globals: seq<Global>)
    requires GlobalsAt(utf8, input, at, i).Got? && GlobalsAt(utf8, input, at, i).value == globals
    ensures var end := GlobalsAt(utf8, input, at, i).at; var g := GlobalAt(utf8, input, end);
      GlobalsAt(utf8, input, at, i + 1) == if g.Fail? then Fail(g.error) else Got(globals + [g.value], g.at)
  {
    hide GlobalAt;
  }

  lemma {:induction false} MoreFail(utf8: seq<Byte> -> bool, input: seq<Byte>, at: nat, i: nat, n: nat)
    requires GlobalsAt(utf8, input, at, i).Fail? && i <= n
    ensures GlobalsAt(utf8, input, at, n).Fail?
    decreases n
  {
    hide GlobalAt;
    if i < n {
      MoreFail(utf8, input, at, i, n - 1);
    }
  }

  /** How the parts of an artifact are read, for the snapshot that it is the image
      of, if there is one. */
  ghost predicate Reads(utf8: seq<Byte> -> bool, input: seq<Byte>, s: Snapshot) {
    var version := NumberAt(input, 8, 4);
    var guest := BytesAt(input, 12);
    && TakeAt(input, 0, 8) == Got(MagicBytes(), 8)
    && version == Got(VERSION, 12) && guest.Got? && guest.value == s.guest
    && NumberAt(input, guest.at, 4) == Got(|s.globals|, guest.at + 4)
    && |s.globals| <= (if |input| < guest.at + 4 then 0 else |input| - (guest.at + 4)) / 9
    && GlobalsAt(utf8, input, guest.at + 4, |s.globals|) == Got(s.globals, |input|)
  }

  lemma Parts(utf8: seq<Byte> -> bool, input: seq<Byte>)
    ensures forall s :: Reads(utf8, input, s) <==> Encodable(s) && Typed(utf8, s) && Encoded(s) == input
  {
    hide Reads, Encoded, Encodable, Typed;
    forall s
      ensures Reads(utf8, input, s) <==> Encodable(s) && Typed(utf8, s) && Encoded(s) == input
    {
      ReadsExact(utf8, input, s);
    }
  }

  lemma ReadsExact(utf8: seq<Byte> -> bool, input: seq<Byte>, s: Snapshot)
    ensures Reads(utf8, input, s) <==> Encodable(s) && Typed(utf8, s) && Encoded(s) == input
  {
    hide NumberAt, BytesAt, GlobalsAt, EncodedGlobals, Little, Lies, MagicBytes, TakeAt, Fits;
    var a, b, c, d, e := MagicBytes(), Little(VERSION, 4), Framed(s.guest), Little(|s.globals|, 4),
      EncodedGlobals(s.globals);
    MagicLength();
    Powers();
    Whole(input, a + b + c + d + e);
    LiesSplit(input, 0, a + b + c + d, e);
    LiesSplit(input, 0, a + b + c, d);
    LiesSplit(input, 0, a + b, c);
    LiesSplit(input, 0, a, b);
    LiesTake(input, 0, a);
    NumberExact(input, 8, 4, VERSION);
    BytesExact(input, 12, s.guest);
    BytesEnd(input, 12);
    var end := 12 + 4 + |s.guest|;
    NumberExact(input, end, 4, |s.globals|);
    NineEach(s.globals);
    if end + 4 <= |input| {
      GlobalsExact(utf8, input, end + 4, s.globals);
      GlobalsEnd(utf8, input, end + 4, |s.globals|);
    }
    NumberInside(input, end, 4);
  }

  lemma MagicLength()
    ensures |MagicBytes()| == 8
  {
  }

  lemma NumberInside(input: seq<Byte>, at: nat, length: nat)
    ensures NumberAt(input, at, length).Got? ==> at + length <= |input|
  {
  }

  lemma Whole(input: seq<Byte>, bytes: seq<Byte>)
    ensures bytes == input <==> Lies(input, 0, bytes) && |bytes| == |input|
  {
  }

  /** Different snapshots have different images. */
  lemma EncodedInjective(utf8: seq<Byte> -> bool, s: Snapshot, t: Snapshot)
    requires Encodable(s) && Typed(utf8, s) && Encodable(t) && Typed(utf8, t) && Encoded(s) == Encoded(t)
    ensures s == t
  {
    hide Encoded, Encodable, Typed, NumberAt, BytesAt, GlobalsAt, TakeAt;
    ReadsExact(utf8, Encoded(s), s);
    ReadsExact(utf8, Encoded(s), t);
  }
}
