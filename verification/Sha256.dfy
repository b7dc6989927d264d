/** Streaming SHA-256 (telora-sha256): buffering, padding and compression against
    the one-shot definition of FIPS 180-4. */
module Sha256 {

  type Byte = bv8
  type Word = bv32

  const TWO_64: nat := 0x1_0000_0000_0000_0000
  const BLOCK := 64

  // ----- functions and constants (sections 4.1.2, 4.2.2 and 5.3.3) -----------------------

  /** Addition modulo 2^32. */
  function Plus(x: Word, y: Word): Word { x + y }

  function Sum4(a: Word, b: Word, c: Word, d: Word): Word { a + b + c + d }

  function RotR(x: Word, n: nat): Word
    requires 0 < n < 32
  {
    (x >> n) | (x << (32 - n))
  }

  function Ch(x: Word, y: Word, z: Word): Word { (x & y) ^ (!x & z) }

  function Maj(x: Word, y: Word, z: Word): Word { (x & y) ^ (x & z) ^ (y & z) }

  function BigSigma0(x: Word): Word { RotR(x, 2) ^ RotR(x, 13) ^ RotR(x, 22) }

  function BigSigma1(x: Word): Word { RotR(x, 6) ^ RotR(x, 11) ^ RotR(x, 25) }

  function SmallSigma0(x: Word): Word { RotR(x, 7) ^ RotR(x, 18) ^ (x >> 3) }

  function SmallSigma1(x: Word): Word { RotR(x, 17) ^ RotR(x, 19) ^ (x >> 10) }

  function Constants(): (k: seq<Word>)
    ensures |k| == 64
  {
    [0x428a2f98, 0x71374491, 0xb5c0fbcf, 0xe9b5dba5, 0x3956c25b, 0x59f111f1, 0x923f82a4, 0xab1c5ed5] +
    [0xd807aa98, 0x12835b01, 0x243185be, 0x550c7dc3, 0x72be5d74, 0x80deb1fe, 0x9bdc06a7, 0xc19bf174] +
    [0xe49b69c1, 0xefbe4786, 0x0fc19dc6, 0x240ca1cc, 0x2de92c6f, 0x4a7484aa, 0x5cb0a9dc, 0x76f988da] +
    [0x983e5152, 0xa831c66d, 0xb00327c8, 0xbf597fc7, 0xc6e00bf3, 0xd5a79147, 0x06ca6351, 0x14292967] +
    [0x27b70a85, 0x2e1b2138, 0x4d2c6dfc, 0x53380d13, 0x650a7354, 0x766a0abb, 0x81c2c92e, 0x92722c85] +
    [0xa2bfe8a1, 0xa81a664b, 0xc24b8b70, 0xc76c51a3, 0xd192e819, 0xd6990624, 0xf40e3585, 0x106aa070] +
    [0x19a4c116, 0x1e376c08, 0x2748774c, 0x34b0bcb5, 0x391c0cb3, 0x4ed8aa4a, 0x5b9cca4f, 0x682e6ff3] +
    [0x748f82ee, 0x78a5636f, 0x84c87814, 0x8cc70208, 0x90befffa, 0xa4506ceb, 0xbef9a3f7, 0xc67178f2]
  }

  function Initial(): (h: seq<Word>)
    ensures |h| == 8
  {
    [0x6a09e667, 0xbb67ae85, 0x3c6ef372, 0xa54ff53a, 0x510e527f, 0x9b05688c, 0x1f83d9ab, 0x5be0cd19]
  }

  // ----- the hash computation (section 6.2.2) ---------------------------------------------

  function BigEndian(b: seq<Byte>): Word
    requires |b| == 4
  {
    ((b[0] as Word) << 24) | ((b[1] as Word) << 16) | ((b[2] as Word) << 8) | (b[3] as Word)
  }

  /** The message schedule. */
  function Schedule(block: seq<Byte>, t: nat): Word
    requires |block| == BLOCK
  {
    if t < 16 then BigEndian(block[4 * t..4 * t + 4])
    else Sum4(SmallSigma1(Schedule(block, t - 2)), Schedule(block, t - 7), SmallSigma0(Schedule(block, t - 15)),
      Schedule(block, t - 16))
  }

  datatype Vars = Vars(a: Word, b: Word, c: Word, d: Word, e: Word, f: Word, g: Word, h: Word)

  function Round(v: Vars, k: Word, w: Word): Vars {
    var t1 := Plus(Plus(Plus(Plus(v.h, BigSigma1(v.e)), Ch(v.e, v.f, v.g)), k), w);
    var t2 := Plus(BigSigma0(v.a), Maj(v.a, v.b, v.c));
    Vars(Plus(t1, t2), v.a, v.b, v.c, Plus(v.d, t1), v.e, v.f, v.g)
  }

  function Rounds(v: Vars, block: seq<Byte>, t: nat): Vars
    requires |block| == BLOCK && t <= 64
  {
    if t == 0 then v else Round(Rounds(v, block, t - 1), Constants()[t - 1], Schedule(block, t - 1))
  }

  function Working(h: seq<Word>): Vars
    requires |h| == 8
  {
    Vars(h[0], h[1], h[2], h[3], h[4], h[5], h[6], h[7])
  }

  function Added(h: seq<Word>, v: Vars): (r: seq<Word>)
    requires |h| == 8
    ensures |r| == 8
  {
    [Plus(h[0], v.a), Plus(h[1], v.b), Plus(h[2], v.c), Plus(h[3], v.d), Plus(h[4], v.e), Plus(h[5], v.f),
      Plus(h[6], v.g), Plus(h[7], v.h)]
  }

  function Compressed(h: seq<Word>, block: seq<Byte>): (r: seq<Word>)
    requires |h| == 8 && |block| == BLOCK
    ensures |r| == 8
  {
    Added(h, Rounds(Working(h), block, 64))
  }

  /** The hash value after the blocks that `m` consists of. */
  function Hashed(m: seq<Byte>): (h: seq<Word>)
    ensures |h| == 8
  {
    if |m| < BLOCK then Initial() else Compressed(Hashed(m[..|m| - BLOCK]), m[|m| - BLOCK..])
  }

  /** Eight bytes, most significant first. */
  function Length64(n: nat): (b: seq<Byte>)
    requires n < TWO_64
    ensures |b| == 8
  {
    seq(8, i requires 0 <= i < 8 => (n / Power256(7 - i) % 256) as bv8)
  }

  function Power256(k: nat): (p: nat)
    ensures p > 0
  {
    if k == 0 then 1 else 256 * Power256(k - 1)
  }

  function Zeros(n: nat): (z: seq<Byte>)
    ensures |z| == n
  {
    seq(n, i => 0)
  }

  /** Padding (section 5.1.1): a one bit, zeros, and the length in bits. */
  function Padded(m: seq<Byte>): (p: seq<Byte>)
    requires 8 * |m| < TWO_64
    ensures |p| % BLOCK == 0
  {
    m + [0x80] + Zeros((119 - |m| % BLOCK) % BLOCK) + Length64(8 * |m|)
  }

  function WordBytes(w: Word): (b: seq<Byte>)
    ensures |b| == 4
  {
    [(w >> 24) as bv8, ((w >> 16) & 0xff) as bv8, ((w >> 8) & 0xff) as bv8, (w & 0xff) as bv8]
  }

  function Output(h: seq<Word>): seq<Byte> {
    if h == [] then [] else WordBytes(h[0]) + Output(h[1..])
  }

  /** The digest of a whole message. */
  function Digest(m: seq<Byte>): seq<Byte>
    requires 8 * |m| < TWO_64
  {
    Output(Hashed(Padded(m)))
  }

// ----- where the constants come from (sections 4.2.2 and 5.3.3) --------------------------

  /** The first 64 prime numbers. */
  function Primes(): (p: seq<nat>)
    ensures |p| == 64
  {
    [2, 3, 5, 7, 11, 13, 17, 19] +
    [23, 29, 31, 37, 41, 43, 47, 53] +
    [59, 61, 67, 71, 73, 79, 83, 89] +
    [97, 101, 103, 107, 109, 113, 127, 131] +
    [137, 139, 149, 151, 157, 163, 167, 173] +
    [179, 181, 191, 193, 197, 199, 211, 223] +
    [227, 229, 233, 239, 241, 251, 257, 263] +
    [269, 271, 277, 281, 283, 293, 307, 311]
  }

  /** `f` is the first 32 bits of the fractional part of the cube root of `p`. */
  ghost predicate CubeFraction(p: nat, f: nat) {
    f < 0x1_0000_0000 && exists whole: nat :: UnderCube(p, whole * 0x1_0000_0000 + f)
  }

  predicate UnderCube(p: nat, r: nat) {
    r * r * r <= p * 0x1_0000_0000_0000_0000_0000_0000 < (r + 1) * (r + 1) * (r + 1)
  }

  /** The same for the square root. */
  ghost predicate SquareFraction(p: nat, f: nat) {
    f < 0x1_0000_0000 && exists whole: nat :: UnderSquare(p, whole * 0x1_0000_0000 + f)
  }

  predicate UnderSquare(p: nat, r: nat) {
    r * r <= p * 0x1_0000_0000_0000_0000 < (r + 1) * (r + 1)
  }

  lemma Cube(p: nat, whole: nat, f: nat, w: Word)
    requires f < 0x1_0000_0000 && w as nat == f && UnderCube(p, whole * 0x1_0000_0000 + f)
    ensures CubeFraction(p, w as nat)
  {
  }

  lemma Square(p: nat, whole: nat, f: nat, w: Word)
    requires f < 0x1_0000_0000 && w as nat == f && UnderSquare(p, whole * 0x1_0000_0000 + f)
    ensures SquareFraction(p, w as nat)
  {
  }

  ghost predicate CubesFrom(t: nat) {
    forall i :: t <= i < t + 8 && i < 64 ==> CubeFraction(Primes()[i], Constants()[i] as nat)
  }

  lemma FirstConstants()
    ensures CubesFrom(0)
  {
    hide CubeFraction;
    Cube(2, 1, 0x428a2f98, Constants()[0]);
    Cube(3, 1, 0x71374491, Constants()[1]);
    Cube(5, 1, 0xb5c0fbcf, Constants()[2]);
    Cube(7, 1, 0xe9b5dba5, Constants()[3]);
    Cube(11, 2, 0x3956c25b, Constants()[4]);
    Cube(13, 2, 0x59f111f1, Constants()[5]);
    Cube(17, 2, 0x923f82a4, Constants()[6]);
    Cube(19, 2, 0xab1c5ed5, Constants()[7]);
  }

  lemma SecondConstants()
    ensures CubesFrom(8)
  {
    hide CubeFraction;
    Cube(23, 2, 0xd807aa98, Constants()[8]);
    Cube(29, 3, 0x12835b01, Constants()[9]);
    Cube(31, 3, 0x243185be, Constants()[10]);
    Cube(37, 3, 0x550c7dc3, Constants()[11]);
    Cube(41, 3, 0x72be5d74, Constants()[12]);
    Cube(43, 3, 0x80deb1fe, Constants()[13]);
    Cube(47, 3, 0x9bdc06a7, Constants()[14]);
    Cube(53, 3, 0xc19bf174, Constants()[15]);
  }

  lemma ThirdConstants()
    ensures CubesFrom(16)
  {
    hide CubeFraction;
    Cube(59, 3, 0xe49b69c1, Constants()[16]);
    Cube(61, 3, 0xefbe4786, Constants()[17]);
    Cube(67, 4, 0x0fc19dc6, Constants()[18]);
    Cube(71, 4, 0x240ca1cc, Constants()[19]);
    Cube(73, 4, 0x2de92c6f, Constants()[20]);
    Cube(79, 4, 0x4a7484aa, Constants()[21]);
    Cube(83, 4, 0x5cb0a9dc, Constants()[22]);
    Cube(89, 4, 0x76f988da, Constants()[23]);
  }

  lemma FourthConstants()
    ensures CubesFrom(24)
  {
    hide CubeFraction;
    Cube(97, 4, 0x983e5152, Constants()[24]);
    Cube(101, 4, 0xa831c66d, Constants()[25]);
    Cube(103, 4, 0xb00327c8, Constants()[26]);
    Cube(107, 4, 0xbf597fc7, Constants()[27]);
    Cube(109, 4, 0xc6e00bf3, Constants()[28]);
    Cube(113, 4, 0xd5a79147, Constants()[29]);
    Cube(127, 5, 0x06ca6351, Constants()[30]);
    Cube(131, 5, 0x14292967, Constants()[31]);
  }

  lemma FifthConstants()
    ensures CubesFrom(32)
  {
    hide CubeFraction;
    Cube(137, 5, 0x27b70a85, Constants()[32]);
    Cube(139, 5, 0x2e1b2138, Constants()[33]);
    Cube(149, 5, 0x4d2c6dfc, Constants()[34]);
    Cube(151, 5, 0x53380d13, Constants()[35]);
    Cube(157, 5, 0x650a7354, Constants()[36]);
    Cube(163, 5, 0x766a0abb, Constants()[37]);
    Cube(167, 5, 0x81c2c92e, Constants()[38]);
    Cube(173, 5, 0x92722c85, Constants()[39]);
  }

  lemma SixthConstants()
    ensures CubesFrom(40)
  {
    hide CubeFraction;
    Cube(179, 5, 0xa2bfe8a1, Constants()[40]);
    Cube(181, 5, 0xa81a664b, Constants()[41]);
    Cube(191, 5, 0xc24b8b70, Constants()[42]);
    Cube(193, 5, 0xc76c51a3, Constants()[43]);
    Cube(197, 5, 0xd192e819, Constants()[44]);
    Cube(199, 5, 0xd6990624, Constants()[45]);
    Cube(211, 5, 0xf40e3585, Constants()[46]);
    Cube(223, 6, 0x106aa070, Constants()[47]);
  }

  lemma SeventhConstants()
    ensures CubesFrom(48)
  {
    hide CubeFraction;
    Cube(227, 6, 0x19a4c116, Constants()[48]);
    Cube(229, 6, 0x1e376c08, Constants()[49]);
    Cube(233, 6, 0x2748774c, Constants()[50]);
    Cube(239, 6, 0x34b0bcb5, Constants()[51]);
    Cube(241, 6, 0x391c0cb3, Constants()[52]);
    Cube(251, 6, 0x4ed8aa4a, Constants()[53]);
    Cube(257, 6, 0x5b9cca4f, Constants()[54]);
    Cube(263, 6, 0x682e6ff3, Constants()[55]);
  }

  lemma EighthConstants()
    ensures CubesFrom(56)
  {
    hide CubeFraction;
    Cube(269, 6, 0x748f82ee, Constants()[56]);
    Cube(271, 6, 0x78a5636f, Constants()[57]);
    Cube(277, 6, 0x84c87814, Constants()[58]);
    Cube(281, 6, 0x8cc70208, Constants()[59]);
    Cube(283, 6, 0x90befffa, Constants()[60]);
    Cube(293, 6, 0xa4506ceb, Constants()[61]);
    Cube(307, 6, 0xbef9a3f7, Constants()[62]);
    Cube(311, 6, 0xc67178f2, Constants()[63]);
  }

  /** The round constants are the first bits of the fractional parts of the cube roots
      of the first 64 primes, and the initial hash value those of the square roots of
      the first eight. */
  lemma ConstantsFromPrimes()
    ensures forall t :: 0 <= t < 64 ==> CubeFraction(Primes()[t], Constants()[t] as nat)
    ensures forall t :: 0 <= t < 8 ==> SquareFraction(Primes()[t], Initial()[t] as nat)
  {
    hide CubeFraction, Constants, Primes;
    FirstConstants();
    SecondConstants();
    ThirdConstants();
    FourthConstants();
    FifthConstants();
    SixthConstants();
    SeventhConstants();
    EighthConstants();
    InitialFromPrimes();
  }

  lemma InitialFromPrimes()
    ensures forall t :: 0 <= t < 8 ==> SquareFraction(Primes()[t], Initial()[t] as nat)
  {
    hide SquareFraction;
    Square(2, 1, 0x6a09e667, Initial()[0]);
    Square(3, 1, 0xbb67ae85, Initial()[1]);
    Square(5, 2, 0x3c6ef372, Initial()[2]);
    Square(7, 2, 0xa54ff53a, Initial()[3]);
    Square(11, 3, 0x510e527f, Initial()[4]);
    Square(13, 3, 0x9b05688c, Initial()[5]);
    Square(17, 4, 0x1f83d9ab, Initial()[6]);
    Square(19, 4, 0x5be0cd19, Initial()[7]);
  }

  // ----- words and bits ---------------------------------------------------------------------

  /** Words and their bytes, most significant first, determine each other. */
  lemma WordRoundTrip(w: Word, b: seq<Byte>)
    requires |b| == 4
    ensures BigEndian(WordBytes(w)) == w && WordBytes(BigEndian(b)) == b
    ensures w < 0x100 ==> WordBytes(w) == [0, 0, 0, w as Byte]
  {
  }

  /** `Ch` chooses between its last operands by the first, `Maj` takes what two of
      three agree on. */
  lemma ChooseMajority(x: Word, y: Word, z: Word)
    ensures Ch(0, y, z) == z && Ch(0xffff_ffff, y, z) == y
    ensures Maj(x, x, z) == x && Maj(x, z, x) == x && Maj(z, x, x) == x
  {
  }

  /** Where each function takes the lowest bit, and the last bit that a shift keeps. */
  lemma BitImages()
    ensures BigSigma0(1) == 0x4008_0400 && BigSigma1(1) == 0x0420_0080
    ensures SmallSigma0(1) == 0x0200_4000 && SmallSigma1(1) == 0x0000_a000
    ensures SmallSigma0(8) == 0x1002_0001 && SmallSigma1(1024) == 0x0280_0001
  {
  }

  // ----- reading a padded message -------------------------------------------------------------

  /** Bytes as one number, most significant first. */
  function Value(b: seq<Byte>): nat {
    if b == [] then 0 else 256 * Value(b[..|b| - 1]) + b[|b| - 1] as nat
  }

  lemma {:induction false} LengthValue(n: nat, j: nat)
    requires n < TWO_64 && j <= 8
    ensures Value(Length64(n)[..j]) == n / Power256(8 - j)
    decreases j
  {
    hide Length64, Power256;
    var b := Length64(n);
    EightPowers();
    if j > 0 {
      var q := Power256(8 - j);
      LengthValue(n, j - 1);
      LengthByte(n, j - 1);
      MorePower(8 - j);
      assert b[..j][..j - 1] == b[..j - 1];
      DivideTwice(n, q);
    }
  }

  lemma EightPowers()
    ensures Power256(8) == TWO_64 && Power256(0) == 1
  {
  }

  lemma MorePower(k: nat)
    ensures Power256(k + 1) == 256 * Power256(k)
  {
  }

  lemma LengthByte(n: nat, i: nat)
    requires n < TWO_64 && i < 8
    ensures Length64(n)[i] as nat == n / Power256(7 - i) % 256
  {
    hide Power256;
    ByteValue(n / Power256(7 - i) % 256);
  }

  /** Every number below 256 is that of a byte. */
  lemma {:induction false} ByteOf(x: nat) returns (b: Byte)
    requires x < 256
    ensures b as nat == x
  {
    if x == 0 {
      b := 0;
    } else {
      var c := ByteOf(x - 1);
      NextByte(c);
      b := c + 1;
    }
  }

  lemma NextByte(b: Byte)
    requires b as nat < 255
    ensures (b + 1) as nat == b as nat + 1
  {
  }

  lemma ByteValue(x: nat)
    requires x < 256
    ensures (x as bv8) as nat == x
  {
    var b := ByteOf(x);
    SameByte(b);
  }

  lemma SameByte(b: Byte)
    ensures (b as nat) as bv8 == b
  {
  }

  lemma DivideTwice(n: nat, q: nat)
    requires q > 0
    ensures n / (256 * q) == n / q / 256
  {
    var a, s := Divide(n, q);
    var x, d := Divide(a, 256);
    var y, r := Divide(n, 256 * q);
    Nested(n, q, a, s, x, d);
    Unique(256 * q, x, q * d + s, y, r);
  }

  lemma Divide(n: nat, q: nat) returns (a: nat, s: nat)
    requires q > 0
    ensures a == n / q && n == q * a + s && s < q
  {
    a, s := n / q, n % q;
  }

  lemma Nested(n: nat, q: nat, a: nat, s: nat, x: nat, d: nat)
    requires n == q * a + s && s < q && a == 256 * x + d && d < 256
    ensures n == (256 * q) * x + (q * d + s) && q * d + s < 256 * q
  {
    Distribute(q, 256 * x, d);
    Distribute(q, d, 255 - d);
    Scaled(q, x, 255 - d);
  }

  lemma Scaled(q: nat, x: int, k: nat)
    ensures q * (256 * x) == (256 * q) * x && q * k >= 0
  {
  }

  lemma Distribute(d: int, a: int, b: int)
    ensures d * (a + b) == d * a + d * b
  {
  }

  lemma AtLeast(d: nat, k: nat)
    requires k >= 1
    ensures d * k >= d
  {
  }

  /** A quotient and its remainder are unique. */
  lemma Unique(d: nat, x: nat, r: nat, y: nat, s: nat)
    requires r < d && s < d && d * x + r == d * y + s
    ensures x == y
  {
    if x < y {
      Distribute(d, x, y - x);
      AtLeast(d, y - x);
    } else if y < x {
      Distribute(d, y, x - y);
      AtLeast(d, x - y);
    }
  }

  /** A padded message is the message, a one bit and zeros, in the fewest whole blocks
      that leave room for its length in bits, which stands in the last eight bytes. */
  lemma PaddingShape(m: seq<Byte>)
    requires 8 * |m| < TWO_64
    ensures var p := Padded(m);
      && |p| % 64 == 0 && |m| + 9 <= |p| < |m| + 9 + 64
      && p[..|m|] == m && p[|m|] == 0x80 && (forall i :: |m| < i < |p| - 8 ==> p[i] == 0)
      && Value(p[|p| - 8..]) == 8 * |m|
  {
    hide Length64, Value, Power256;
    var p := Padded(m);
    EightPowers();
    assert p[|p| - 8..] == Length64(8 * |m|)[..8];
    LengthValue(8 * |m|, 8);
  }

  /** Different messages have different paddings. */
  lemma PaddingInjective(m: seq<Byte>, n: seq<Byte>)
    requires 8 * |m| < TWO_64 && 8 * |n| < TWO_64 && Padded(m) == Padded(n)
    ensures m == n
  {
    hide Padded, Value;
    PaddingShape(m);
    PaddingShape(n);
  }

  lemma {:induction false} HashedMore(m: seq<Byte>, block: seq<Byte>)
    requires |block| == BLOCK
    ensures Hashed(m + block) == Compressed(Hashed(m), block)
  {
    hide Compressed;
    assert (m + block)[..|m + block| - BLOCK] == m && (m + block)[|m + block| - BLOCK..] == block;
  }

  // ----- compression in place ------------------------------------------------------------

  lemma BitSumOrder(a: Word, b: Word, c: Word, d: Word)
    ensures a + b + c + d == d + c + b + a
  {
  }

  lemma SumOrder(a: Word, b: Word, c: Word, d: Word)
    ensures Sum4(a, b, c, d) == Sum4(d, c, b, a)
  {
    BitSumOrder(a, b, c, d);
  }

  /** The schedule in an array of 64 words. */
  method FillSchedule(words: array<Word>, block: seq<Byte>)
    requires words.Length == 64 && |block| == BLOCK
    modifies words
    ensures forall t :: 0 <= t < 64 ==> words[t] == Schedule(block, t)
  {
    hide BigEndian, SmallSigma0, SmallSigma1, Schedule, Plus, Sum4;
    for t := 0 to 16
      invariant forall k :: 0 <= k < t ==> words[k] == Schedule(block, k)
    {
      ScheduleStart(block, t);
      words[t] := BigEndian(block[4 * t..4 * t + 4]);
    }
    for t := 16 to 64
      invariant forall k :: 0 <= k < t ==> words[k] == Schedule(block, k)
    {
      var s0 := SmallSigma0(words[t - 15]);
      var s1 := SmallSigma1(words[t - 2]);
      ScheduleStep(block, t);
      SumOrder(words[t - 16], s0, words[t - 7], s1);
      words[t] := Sum4(words[t - 16], s0, words[t - 7], s1);
    }
  }

  lemma ScheduleStart(block: seq<Byte>, t: nat)
    requires |block| == BLOCK && t < 16
    ensures Schedule(block, t) == BigEndian(block[4 * t..4 * t + 4])
  {
  }

  lemma ScheduleStep(block: seq<Byte>, t: nat)
    requires |block| == BLOCK && t >= 16
    ensures Schedule(block, t) ==
      Sum4(SmallSigma1(Schedule(block, t - 2)), Schedule(block, t - 7), SmallSigma0(Schedule(block, t - 15)),
        Schedule(block, t - 16))
  {
    hide SmallSigma0, SmallSigma1, BigEndian, Plus, Sum4;
  }

  method Compress(state: seq<Word>, block: seq<Byte>) returns (next: seq<Word>)
    requires |state| == 8 && |block| == BLOCK
    ensures next == Compressed(state, block)
  {
    hide Schedule, Ch, Maj, BigSigma0, BigSigma1, Constants, Rounds, Round, Plus;
    var words := new Word[64];
    FillSchedule(words, block);
    var a, b, c, d := state[0], state[1], state[2], state[3];
    var e, f, g, h := state[4], state[5], state[6], state[7];
    NoRounds(Working(state), block);
    for t := 0 to 64
      invariant Vars(a, b, c, d, e, f, g, h) == Rounds(Working(state), block, t)
      invariant forall k :: 0 <= k < 64 ==> words[k] == Schedule(block, k)
    {
      ghost var v := Vars(a, b, c, d, e, f, g, h);
      var choice := Ch(e, f, g);
      var majority := Maj(a, b, c);
      var t1 := Plus(Plus(Plus(Plus(h, BigSigma1(e)), choice), Constants()[t]), words[t]);
      var t2 := Plus(BigSigma0(a), majority);
      RoundStep(Working(state), block, t, v, t1, t2);
      h := g;
      g := f;
      f := e;
      e := Plus(d, t1);
      d := c;
      c := b;
      b := a;
      a := Plus(t1, t2);
    }
    next := [Plus(state[0], a), Plus(state[1], b), Plus(state[2], c), Plus(state[3], d), Plus(state[4], e),
      Plus(state[5], f), Plus(state[6], g), Plus(state[7], h)];
  }

  lemma NoRounds(v: Vars, block: seq<Byte>)
    requires |block| == BLOCK
    ensures Rounds(v, block, 0) == v
  {
  }

  lemma RoundStep(start: Vars, block: seq<Byte>, t: nat, v: Vars, t1: Word, t2: Word)
    requires |block| == BLOCK && t < 64 && v == Rounds(start, block, t)
    requires t1 == Plus(Plus(Plus(Plus(v.h, BigSigma1(v.e)), Ch(v.e, v.f, v.g)), Constants()[t]), Schedule(block, t))
    requires t2 == Plus(BigSigma0(v.a), Maj(v.a, v.b, v.c))
    ensures Rounds(start, block, t + 1) == Vars(Plus(t1, t2), v.a, v.b, v.c, Plus(v.d, t1), v.e, v.f, v.g)
  {
    hide Schedule, Ch, Maj, BigSigma0, BigSigma1, Constants, Plus;
  }

  // ----- streaming --------------------------------------------------------------------------

  /** The state after some message: what was hashed, and what waits in the block. */
  ghost predicate Holds(message: seq<Byte>, state: seq<Word>, block: seq<Byte>, blockLen: nat) {
    && |block| == BLOCK && blockLen < BLOCK && blockLen == |message| % BLOCK
    && state == Hashed(message[..|message| - blockLen])
    && block[..blockLen] == message[|message| - blockLen..]
  }

  class Context {
    var state: seq<Word>
    const block: array<Byte>
    var blockLen: nat
    var byteLen: nat
    ghost var message: seq<Byte>

    ghost predicate Valid()
      reads this, block
    {
      block.Length == BLOCK && Holds(message, state, block[..], blockLen) && byteLen == |message| % TWO_64
    }

    constructor ()
      ensures Valid() && message == [] && fresh(block)
    {
      state := Initial();
      block := new Byte[BLOCK](i => 0);
      blockLen, byteLen, message := 0, 0, [];
      new;
      assert message[..|message| - blockLen] == [] && block[..][..blockLen] == [];
    }

    /** Takes in more of the message, however it is cut up. */
    method Update(data: seq<Byte>)
      requires Valid()
      modifies this, block
      ensures Valid() && message == old(message) + data
    {
      hide Hashed, Holds, Written;
      ghost var was := message;
      byteLen := (byteLen + |data|) % TWO_64;
      LengthWraps(|was|, |data|);
      HoldsShape(message, state, block[..], blockLen);
      var input := data;
      if blockLen != 0 {
        var count := if BLOCK - blockLen < |input| then BLOCK - blockLen else |input|;
        ghost var before := block[..];
        Copy(blockLen, input[..count]);
        BlockFilled(was, state, before, blockLen, data, count, block[..]);
        blockLen := blockLen + count;
        input := input[count..];
        message := was + data[..count];
        if blockLen == BLOCK {
          state := Compress(state, block[..]);
          blockLen := 0;
        }
      }
      assert message + input == was + data;
      if input != [] {
        Feed(input);
      }
    }

    /** Writes bytes into the block. */
    method Copy(at: nat, bytes: seq<Byte>)
      requires at + |bytes| <= block.Length
      modifies block
      ensures block[..] == Written(old(block[..]), at, bytes)
    {
      for i := 0 to |bytes|
        invariant forall k :: 0 <= k < block.Length ==>
          block[k] == if at <= k < at + i then bytes[k - at] else old(block[k])
      {
        block[at + i] := bytes[i];
      }
    }

    /** Hashes the whole blocks of the input. */
    method Blocks(input: seq<Byte>) returns (at: nat)
      requires state == Hashed(message)
      modifies this`state, this`message
      ensures at <= |input| < at + BLOCK && at % BLOCK == 0 && message == old(message) + input[..at]
      ensures state == Hashed(message)
    {
      hide Hashed, Compressed;
      at := 0;
      while at + BLOCK <= |input|
        invariant 0 <= at <= |input| && at % BLOCK == 0
        invariant message == old(message) + input[..at] && state == Hashed(message)
      {
        var next := input[at..at + BLOCK];
        HashedMore(message, next);
        assert input[..at + BLOCK] == input[..at] + next;
        state := Compress(state, next);
        message := message + next;
        at := at + BLOCK;
      }
    }

    /** Whole blocks are hashed from the input; the rest waits. */
    method Feed(input: seq<Byte>)
      requires block.Length == BLOCK && blockLen == 0 && Holds(message, state, block[..], 0)
      modifies this`state, this`blockLen, this`message, block
      ensures Holds(message, state, block[..], blockLen) && message == old(message) + input
    {
      hide Hashed, Holds, Written;
      ghost var was := message;
      HoldsShape(message, state, block[..], 0);
      var at := Blocks(input);
      var remainder := |input| % BLOCK;
      ghost var hashed, rest := message, input[at..];
      Remainder(|input|, at);
      if remainder != 0 {
        WrittenStart(block[..], rest);
        Copy(0, input[|input| - remainder..]);
        blockLen := remainder;
      }
      message := hashed + rest;
      assert was + input == was + input[..at] + rest;
      HoldsRest(hashed, rest, block[..]);
    }

    /** Pads and answers the digest of everything that was taken in. */
    method Finish() returns (output: seq<Byte>)
      requires Valid() && |message| < 0x2000_0000_0000_0000
      modifies this, block
      ensures output == Digest(old(message))
    {
      hide Hashed, Length64, Output, Compressed, Holds, Padded;
      ghost var m := message;
      HoldsShape(m, state, block[..], blockLen);
      var bitLen := byteLen * 8 % TWO_64;
      assert bitLen == 8 * |m|;
      var n := blockLen;
      ghost var tail := m[|m| - n..];
      ghost var before := block[..];
      block[n] := 0x80;
      if n + 1 > 56 {
        Copy(n + 1, Zeros(BLOCK - n - 1));
        assert block[..] == tail + [0x80] + Zeros(BLOCK - n - 1);
        state := Compress(state, block[..]);
        Copy(0, Zeros(BLOCK));
        Copy(56, Length64(bitLen));
        assert block[..] == Zeros(56) + Length64(bitLen);
        TwoBlocks(m, n);
      } else {
        Copy(n + 1, Zeros(56 - n - 1));
        Copy(56, Length64(bitLen));
        assert block[..] == tail + [0x80] + Zeros(56 - n - 1) + Length64(bitLen);
        OneBlock(m, n);
      }
      state := Compress(state, block[..]);
      output := Output(state);
    }
  }

  function Joined(parts: seq<seq<Byte>>): seq<Byte> {
    if parts == [] then [] else Joined(parts[..|parts| - 1]) + parts[|parts| - 1]
  }

  /** Streaming is invisible: however a message is cut into updates, the digest is
      that of the whole. */
  method Hash(parts: seq<seq<Byte>>) returns (digest: seq<Byte>)
    requires |Joined(parts)| < 0x2000_0000_0000_0000
    ensures digest == Digest(Joined(parts))
  {
    hide Digest, Holds;
    var context := new Context();
    for i := 0 to |parts|
      invariant context.Valid() && fresh(context) && fresh(context.block) && context.message == Joined(parts[..i])
    {
      assert parts[..i + 1][..i] == parts[..i];
      context.Update(parts[i]);
    }
    assert parts[..|parts|] == parts;
    digest := context.Finish();
  }

  function Written(block: seq<Byte>, at: nat, bytes: seq<Byte>): (r: seq<Byte>)
    requires at + |bytes| <= |block|
    ensures |r| == |block|
  {
    block[..at] + bytes + block[at + |bytes|..]
  }

  lemma WrittenStart(block: seq<Byte>, bytes: seq<Byte>)
    requires |bytes| <= |block|
    ensures Written(block, 0, bytes)[..|bytes|] == bytes
  {
  }

  lemma Remainder(n: nat, at: nat)
    requires at <= n < at + BLOCK && at % BLOCK == 0
    ensures n % BLOCK == n - at
  {
  }

  lemma HoldsShape(message: seq<Byte>, state: seq<Word>, block: seq<Byte>, blockLen: nat)
    requires Holds(message, state, block, blockLen)
    ensures |block| == BLOCK && blockLen < BLOCK && blockLen == |message| % BLOCK
    ensures state == Hashed(message[..|message| - blockLen]) && block[..blockLen] == message[|message| - blockLen..]
    ensures blockLen == 0 ==> state == Hashed(message)
  {
    hide Hashed;
    assert blockLen == 0 ==> message[..|message| - blockLen] == message;
  }

  /** The block took in as much as fits. */
  lemma BlockFilled(was: seq<Byte>, state: seq<Word>, before: seq<Byte>, blockLen: nat, data: seq<Byte>, count: nat,
                    block: seq<Byte>)
    requires Holds(was, state, before, blockLen) && blockLen != 0
    requires count == if BLOCK - blockLen < |data| then BLOCK - blockLen else |data|
    requires block == Written(before, blockLen, data[..count])
    ensures blockLen + count < BLOCK ==> Holds(was + data[..count], state, block, blockLen + count)
    ensures blockLen + count == BLOCK ==>
      |block| == BLOCK && |state| == 8 && Holds(was + data[..count], Compressed(state, block), block, 0)
  {
    hide Hashed, Compressed, Holds, Written;
    HoldsShape(was, state, before, blockLen);
    var hashed := was[..|was| - blockLen];
    FilledParts(was, state, before, blockLen, data, count, block);
    if blockLen + count == BLOCK {
      assert block[..BLOCK] == block && hashed + block + [] == hashed + block;
      HashedMore(hashed, block);
      HoldsRest(hashed + block, [], block);
    } else {
      HoldsRest(hashed, block[..blockLen + count], block);
    }
  }

  lemma FilledParts(was: seq<Byte>, state: seq<Word>, before: seq<Byte>, blockLen: nat, data: seq<Byte>, count: nat,
                    block: seq<Byte>)
    requires Holds(was, state, before, blockLen) && count <= |data| && blockLen + count <= BLOCK
    requires block == Written(before, blockLen, data[..count])
    ensures |block| == BLOCK && blockLen == |was| % BLOCK && state == Hashed(was[..|was| - blockLen])
    ensures was + data[..count] == was[..|was| - blockLen] + block[..blockLen + count]
  {
    hide Hashed;
    assert block[..blockLen + count] == before[..blockLen] + data[..count];
    assert was == was[..|was| - blockLen] + was[|was| - blockLen..];
  }

  /** What does not fill a block waits in it. */
  lemma HoldsRest(hashed: seq<Byte>, rest: seq<Byte>, block: seq<Byte>)
    requires |hashed| % BLOCK == 0 && |rest| < BLOCK && |block| == BLOCK && block[..|rest|] == rest
    ensures Holds(hashed + rest, Hashed(hashed), block, |rest|)
  {
    hide Hashed;
    var m := hashed + rest;
    assert m[..|m| - |rest|] == hashed && m[|m| - |rest|..] == rest;
  }

  lemma LengthWraps(a: nat, b: nat)
    ensures (a % TWO_64 + b) % TWO_64 == (a + b) % TWO_64
  {
  }

  /** Padding that needs one more block. */
  lemma OneBlock(m: seq<Byte>, n: nat)
    requires |m| % BLOCK == n && n + 1 <= 56 && 8 * |m| < TWO_64
    ensures Hashed(Padded(m)) ==
      Compressed(Hashed(m[..|m| - n]), m[|m| - n..] + [0x80] + Zeros(56 - n - 1) + Length64(8 * |m|))
  {
    hide Hashed, Length64, Compressed;
    var last := m[|m| - n..] + [0x80] + Zeros(56 - n - 1) + Length64(8 * |m|);
    assert Padded(m) == m[..|m| - n] + last;
    HashedMore(m[..|m| - n], last);
  }

  /** Padding that needs two. */
  lemma TwoBlocks(m: seq<Byte>, n: nat)
    requires |m| % BLOCK == n && n + 1 > 56 && 8 * |m| < TWO_64
    ensures Hashed(Padded(m)) ==
      Compressed(Compressed(Hashed(m[..|m| - n]), m[|m| - n..] + [0x80] + Zeros(BLOCK - n - 1)),
        Zeros(56) + Length64(8 * |m|))
  {
    hide Hashed, Length64, Compressed;
    var first := m[|m| - n..] + [0x80] + Zeros(BLOCK - n - 1);
    var last := Zeros(56) + Length64(8 * |m|);
    assert Zeros((119 - n) % BLOCK) == Zeros(BLOCK - n - 1) + Zeros(56);
    assert Padded(m) == m[..|m| - n] + first + last;
    HashedMore(m[..|m| - n], first);
    HashedMore(m[..|m| - n] + first, last);
  }
}
