/**
 * The hand-written SHA-256 on JavaScript numbers, and FIPS 180-4 on 32-bit
 * words. JavaScript numbers are modelled as integers with an explicit bound
 * on every sum; bit operations convert to 32 bits and back to signed, as the
 * language defines them.
 */
module Sha256 {
  import opened Strings

  const TWO31: int := 0x8000_0000
  const TWO32: int := 0x1_0000_0000
  const TWO53: int := 0x20_0000_0000_0000

  type Word = x: int | 0 <= x < TWO32
  type Byte = x: int | 0 <= x < 256

  // ---------------------------------------------------------------- bits of natural numbers

  function Pow2(n: nat): (r: nat)
    ensures r > 0
  {
    if n == 0 then 1 else 2 * Pow2(n - 1)
  }

  lemma Pow2Word()
    ensures Pow2(32) == TWO32
  {
    assert Pow2(4) == 16;
    assert Pow2(8) == 256;
    assert Pow2(12) == 4096;
    assert Pow2(16) == 65536;
    assert Pow2(20) == 1048576;
    assert Pow2(24) == 16777216;
    assert Pow2(28) == 268435456;
  }

  function AndBits(a: nat, b: nat): nat {
    if a == 0 || b == 0 then 0 else 2 * AndBits(a / 2, b / 2) + (if a % 2 == 1 && b % 2 == 1 then 1 else 0)
  }

  function OrBits(a: nat, b: nat): nat
    decreases a + b
  {
    if a == 0 && b == 0 then 0 else 2 * OrBits(a / 2, b / 2) + (if a % 2 == 1 || b % 2 == 1 then 1 else 0)
  }

  function XorBits(a: nat, b: nat): nat
    decreases a + b
  {
    if a == 0 && b == 0 then 0 else 2 * XorBits(a / 2, b / 2) + (if a % 2 != b % 2 then 1 else 0)
  }

  predicate Bit(x: nat, i: nat) {
    if i == 0 then x % 2 == 1 else Bit(x / 2, i - 1)
  }

  /** Each operation acts on every bit position alone. */
  lemma {:induction false} AndBit(a: nat, b: nat, i: nat)
    ensures Bit(AndBits(a, b), i) == (Bit(a, i) && Bit(b, i))
    decreases i
  {
    NoBits(i);
    if a > 0 && b > 0 && i > 0 {
      AndBit(a / 2, b / 2, i - 1);
    }
  }

  lemma {:induction false} OrBit(a: nat, b: nat, i: nat)
    ensures Bit(OrBits(a, b), i) == (Bit(a, i) || Bit(b, i))
    decreases i
  {
    NoBits(i);
    if a + b > 0 && i > 0 {
      OrBit(a / 2, b / 2, i - 1);
    }
  }

  lemma {:induction false} XorBit(a: nat, b: nat, i: nat)
    ensures Bit(XorBits(a, b), i) == (Bit(a, i) != Bit(b, i))
    decreases i
  {
    NoBits(i);
    if a + b > 0 && i > 0 {
      XorBit(a / 2, b / 2, i - 1);
    }
  }

  lemma {:induction false} NoBits(i: nat)
    ensures !Bit(0, i)
  {
    if i > 0 {
      NoBits(i - 1);
    }
  }

  /** No bit appears above the highest bit of the operands. */
  lemma {:induction false} BitsStayBelow(a: nat, b: nat, n: nat)
    requires a < Pow2(n) && b < Pow2(n)
    ensures AndBits(a, b) < Pow2(n) && OrBits(a, b) < Pow2(n) && XorBits(a, b) < Pow2(n)
  {
    if n > 0 {
      BitsStayBelow(a / 2, b / 2, n - 1);
    }
  }

  lemma WordBits(a: Word, b: Word)
    ensures AndBits(a, b) < TWO32 && OrBits(a, b) < TWO32 && XorBits(a, b) < TWO32
  {
    Pow2Word();
    BitsStayBelow(a, b, 32);
  }

  function And32(a: Word, b: Word): Word {
    WordBits(a, b);
    AndBits(a, b)
  }

  function Or32(a: Word, b: Word): Word {
    WordBits(a, b);
    OrBits(a, b)
  }

  function Xor32(a: Word, b: Word): Word {
    WordBits(a, b);
    XorBits(a, b)
  }

  function Not32(a: Word): Word {
    TWO32 - 1 - a
  }

  // ---------------------------------------------------------------- FIPS 180-4, sections 3.2 to 4.1.2

  function Plus(a: Word, b: Word): Word {
    (a + b) % TWO32
  }

  /** SHR: drop the low `n` bits. */
  function ShiftRight(n: nat, x: Word): Word {
    ShiftShrinks(x, Pow2(n));
    x / Pow2(n)
  }

  lemma {:induction false} AtLeastOnce(p: nat, q: nat)
    requires p > 0
    ensures q <= p * q
  {
    if p > 1 {
      AtLeastOnce(p - 1, q);
      assert p * q == (p - 1) * q + q;
    }
  }

  lemma ShiftShrinks(x: nat, p: nat)
    requires p > 0
    ensures 0 <= x / p <= x
  {
    var q := x / p;
    assert x == p * q + x % p;
    AtLeastOnce(p, q);
  }

  function ShiftLeft(n: nat, x: Word): Word {
    (x * Pow2(n)) % TWO32
  }

  /** ROTR: a right shift joined with the bits that fell out. */
  function Rotr(n: nat, x: Word): Word
    requires n <= 32
  {
    Or32(ShiftRight(n, x), ShiftLeft(32 - n, x))
  }

  function Ch(x: Word, y: Word, z: Word): Word {
    Xor32(And32(x, y), And32(Not32(x), z))
  }

  function Maj(x: Word, y: Word, z: Word): Word {
    Xor32(Xor32(And32(x, y), And32(x, z)), And32(y, z))
  }

  function BigSigma0(x: Word): Word { Xor32(Xor32(Rotr(2, x), Rotr(13, x)), Rotr(22, x)) }
  function BigSigma1(x: Word): Word { Xor32(Xor32(Rotr(6, x), Rotr(11, x)), Rotr(25, x)) }
  function SmallSigma0(x: Word): Word { Xor32(Xor32(Rotr(7, x), Rotr(18, x)), ShiftRight(3, x)) }
  function SmallSigma1(x: Word): Word { Xor32(Xor32(Rotr(17, x), Rotr(19, x)), ShiftRight(10, x)) }

  const K: seq<Word> := K_ROW0 + K_ROW1 + K_ROW2 + K_ROW3

  const K_ROW0: seq<Word> := [
    0x428a2f98, 0x71374491, 0xb5c0fbcf, 0xe9b5dba5, 0x3956c25b, 0x59f111f1, 0x923f82a4, 0xab1c5ed5,
    0xd807aa98, 0x12835b01, 0x243185be, 0x550c7dc3, 0x72be5d74, 0x80deb1fe, 0x9bdc06a7, 0xc19bf174]
  const K_ROW1: seq<Word> := [
    0xe49b69c1, 0xefbe4786, 0x0fc19dc6, 0x240ca1cc, 0x2de92c6f, 0x4a7484aa, 0x5cb0a9dc, 0x76f988da,
    0x983e5152, 0xa831c66d, 0xb00327c8, 0xbf597fc7, 0xc6e00bf3, 0xd5a79147, 0x06ca6351, 0x14292967]
  const K_ROW2: seq<Word> := [
    0x27b70a85, 0x2e1b2138, 0x4d2c6dfc, 0x53380d13, 0x650a7354, 0x766a0abb, 0x81c2c92e, 0x92722c85,
    0xa2bfe8a1, 0xa81a664b, 0xc24b8b70, 0xc76c51a3, 0xd192e819, 0xd6990624, 0xf40e3585, 0x106aa070]
  const K_ROW3: seq<Word> := [
    0x19a4c116, 0x1e376c08, 0x2748774c, 0x34b0bcb5, 0x391c0cb3, 0x4ed8aa4a, 0x5b9cca4f, 0x682e6ff3,
    0x748f82ee, 0x78a5636f, 0x84c87814, 0x8cc70208, 0x90befffa, 0xa4506ceb, 0xbef9a3f7, 0xc67178f2]

  const H0: seq<Word> := [
    0x6a09e667, 0xbb67ae85, 0x3c6ef372, 0xa54ff53a, 0x510e527f, 0x9b05688c, 0x1f83d9ab, 0x5be0cd19]

  /** `k` holds the first 32 bits of the fractional part of the cube root of `p`, whose integer part is `m`. */
  predicate CubeRootBits(p: nat, m: nat, k: Word) {
    var r := m * TWO32 + k;
    r * r * r <= p * TWO32 * TWO32 * TWO32 < (r + 1) * (r + 1) * (r + 1)
  }

  predicate SquareRootBits(p: nat, m: nat, k: Word) {
    var r := m * TWO32 + k;
    r * r <= p * TWO32 * TWO32 < (r + 1) * (r + 1)
  }

  /** The round constants are the cube roots of the first sixty-four primes, in order. */
  lemma RoundConstants0()
    ensures |K_ROW0| == 16
    ensures CubeRootBits(2, 1, K_ROW0[0]) && CubeRootBits(3, 1, K_ROW0[1]) && CubeRootBits(5, 1, K_ROW0[2])
    ensures CubeRootBits(7, 1, K_ROW0[3])
    ensures CubeRootBits(11, 2, K_ROW0[4]) && CubeRootBits(13, 2, K_ROW0[5]) && CubeRootBits(17, 2, K_ROW0[6])
    ensures CubeRootBits(19, 2, K_ROW0[7])
    ensures CubeRootBits(23, 2, K_ROW0[8]) && CubeRootBits(29, 3, K_ROW0[9]) && CubeRootBits(31, 3, K_ROW0[10])
    ensures CubeRootBits(37, 3, K_ROW0[11])
    ensures CubeRootBits(41, 3, K_ROW0[12]) && CubeRootBits(43, 3, K_ROW0[13]) && CubeRootBits(47, 3, K_ROW0[14])
    ensures CubeRootBits(53, 3, K_ROW0[15])
  {
  }

  lemma RoundConstants1()
    ensures |K_ROW1| == 16
    ensures CubeRootBits(59, 3, K_ROW1[0]) && CubeRootBits(61, 3, K_ROW1[1]) && CubeRootBits(67, 4, K_ROW1[2])
    ensures CubeRootBits(71, 4, K_ROW1[3])
    ensures CubeRootBits(73, 4, K_ROW1[4]) && CubeRootBits(79, 4, K_ROW1[5]) && CubeRootBits(83, 4, K_ROW1[6])
    ensures CubeRootBits(89, 4, K_ROW1[7])
    ensures CubeRootBits(97, 4, K_ROW1[8]) && CubeRootBits(101, 4, K_ROW1[9]) && CubeRootBits(103, 4, K_ROW1[10])
    ensures CubeRootBits(107, 4, K_ROW1[11])
    ensures CubeRootBits(109, 4, K_ROW1[12]) && CubeRootBits(113, 4, K_ROW1[13]) && CubeRootBits(127, 5, K_ROW1[14])
    ensures CubeRootBits(131, 5, K_ROW1[15])
  {
  }

  lemma RoundConstants2()
    ensures |K_ROW2| == 16
    ensures CubeRootBits(137, 5, K_ROW2[0]) && CubeRootBits(139, 5, K_ROW2[1]) && CubeRootBits(149, 5, K_ROW2[2])
    ensures CubeRootBits(151, 5, K_ROW2[3])
    ensures CubeRootBits(157, 5, K_ROW2[4]) && CubeRootBits(163, 5, K_ROW2[5]) && CubeRootBits(167, 5, K_ROW2[6])
    ensures CubeRootBits(173, 5, K_ROW2[7])
    ensures CubeRootBits(179, 5, K_ROW2[8]) && CubeRootBits(181, 5, K_ROW2[9]) && CubeRootBits(191, 5, K_ROW2[10])
    ensures CubeRootBits(193, 5, K_ROW2[11])
    ensures CubeRootBits(197, 5, K_ROW2[12]) && CubeRootBits(199, 5, K_ROW2[13]) && CubeRootBits(211, 5, K_ROW2[14])
    ensures CubeRootBits(223, 6, K_ROW2[15])
  {
  }

  lemma RoundConstants3()
    ensures |K_ROW3| == 16
    ensures CubeRootBits(227, 6, K_ROW3[0]) && CubeRootBits(229, 6, K_ROW3[1]) && CubeRootBits(233, 6, K_ROW3[2])
    ensures CubeRootBits(239, 6, K_ROW3[3])
    ensures CubeRootBits(241, 6, K_ROW3[4]) && CubeRootBits(251, 6, K_ROW3[5]) && CubeRootBits(257, 6, K_ROW3[6])
    ensures CubeRootBits(263, 6, K_ROW3[7])
    ensures CubeRootBits(269, 6, K_ROW3[8]) && CubeRootBits(271, 6, K_ROW3[9]) && CubeRootBits(277, 6, K_ROW3[10])
    ensures CubeRootBits(281, 6, K_ROW3[11])
    ensures CubeRootBits(283, 6, K_ROW3[12]) && CubeRootBits(293, 6, K_ROW3[13]) && CubeRootBits(307, 6, K_ROW3[14])
    ensures CubeRootBits(311, 6, K_ROW3[15])
  {
  }

  /** The initial hash value is the square roots of the first eight primes, in order. */
  lemma InitialConstants()
    ensures |H0| == 8
    ensures SquareRootBits(2, 1, H0[0]) && SquareRootBits(3, 1, H0[1]) && SquareRootBits(5, 2, H0[2])
    ensures SquareRootBits(7, 2, H0[3])
    ensures SquareRootBits(11, 3, H0[4]) && SquareRootBits(13, 3, H0[5]) && SquareRootBits(17, 4, H0[6])
    ensures SquareRootBits(19, 4, H0[7])
  {
  }

  /**
   * The six logical functions and the constants, as values: the loops below are
   * proved for any that match the code's.
   */
  datatype Logic = Logic(start: seq<Word>, k: seq<Word>, ch: (Word, Word, Word) -> Word,
                         maj: (Word, Word, Word) -> Word,
                         big0: Word -> Word, big1: Word -> Word, small0: Word -> Word, small1: Word -> Word)

  /** FIPS 180-4, section 4.1.2. */
  function Fips(): Logic {
    Logic(H0, K, (x, y, z) => Ch(x, y, z), (x, y, z) => Maj(x, y, z),
          x => BigSigma0(x), x => BigSigma1(x), x => SmallSigma0(x), x => SmallSigma1(x))
  }

  // ---------------------------------------------------------------- FIPS 180-4, section 6.2.2

  /** The first `n` words of the message schedule. */
  function Schedule(fn: Logic, m: seq<Word>, n: nat): (w: seq<Word>)
    requires |m| == 16
    ensures |w| == n
  {
    if n == 0 then []
    else
      var w := Schedule(fn, m, n - 1);
      var t := n - 1;
      if t < 16 then w + [m[t]]
      else w + [Plus(Plus(Plus(fn.small1(w[t - 2]), w[t - 7]), fn.small0(w[t - 15])), w[t - 16])]
  }

  /** The eight working variables. */
  datatype Vars = Vars(a: Word, b: Word, c: Word, d: Word, e: Word, f: Word, g: Word, h: Word)

  function Round(fn: Logic, v: Vars, k: Word, w: Word): Vars {
    Mix(v, fn.big1(v.e), fn.ch(v.e, v.f, v.g), fn.big0(v.a), fn.maj(v.a, v.b, v.c), k, w)
  }

  /** T1 and T2 from their parts, and the eight assignments. */
  function Mix(v: Vars, s1: Word, ch: Word, s0: Word, maj: Word, k: Word, w: Word): Vars {
    var t1 := Plus(Plus(Plus(Plus(v.h, s1), ch), k), w);
    var t2 := Plus(s0, maj);
    Vars(Plus(t1, t2), v.a, v.b, v.c, Plus(v.d, t1), v.e, v.f, v.g)
  }

  function Rounds(fn: Logic, v: Vars, w: seq<Word>, n: nat): Vars
    requires n <= |w| <= |fn.k|
  {
    if n == 0 then v else Round(fn, Rounds(fn, v, w, n - 1), fn.k[n - 1], w[n - 1])
  }

  function StartVars(h: seq<Word>): Vars
    requires |h| == 8
  {
    Vars(h[0], h[1], h[2], h[3], h[4], h[5], h[6], h[7])
  }

  function AddVars(h: seq<Word>, v: Vars): (r: seq<Word>)
    requires |h| == 8
    ensures |r| == 8
  {
    [Plus(v.a, h[0]), Plus(v.b, h[1]), Plus(v.c, h[2]), Plus(v.d, h[3]),
     Plus(v.e, h[4]), Plus(v.f, h[5]), Plus(v.g, h[6]), Plus(v.h, h[7])]
  }

  function Compress(fn: Logic, h: seq<Word>, m: seq<Word>): (r: seq<Word>)
    requires |h| == 8 && |m| == 16
    ensures |r| == 8
  {
    var w := Schedule(fn, m, |fn.k|);
    AddVars(h, Rounds(fn, StartVars(h), w, |w|))
  }

  // ---------------------------------------------------------------- JavaScript numbers

  predicate Exact(x: int) {
    -TWO53 < x < TWO53
  }

  /** ToUint32 and ToInt32. */
  function U(x: int): Word {
    x % TWO32
  }

  function I(x: int): int {
    if U(x) >= TWO31 then U(x) - TWO32 else U(x)
  }

  function JsAnd(x: int, y: int): int { I(And32(U(x), U(y))) }
  function JsOr(x: int, y: int): int { I(Or32(U(x), U(y))) }
  function JsXor(x: int, y: int): int { I(Xor32(U(x), U(y))) }
  function JsNot(x: int): int { I(Not32(U(x))) }

  /** `x >>> n` */
  function JsShrU(x: int, n: nat): int { ShiftRight(n, U(x)) }

  /** `x << n` */
  function JsShl(x: int, n: nat): int { I(ShiftLeft(n, U(x))) }

  /** `x >> n`: floor division of the signed value. */
  function JsSar(x: int, n: nat): int { I(x) / Pow2(n) }

  /** `x >>> 0` */
  function JsU(x: int): int { U(x) }

  /** A number that is a signed or an unsigned 32-bit value. */
  predicate Small(x: int) {
    -TWO31 <= x < TWO32
  }

  /** Reading a signed result as a word gives the word back. */
  lemma SignedWord(v: Word)
    ensures U(I(v)) == v && Small(I(v)) && I(v) < TWO31
  {
  }

  lemma WordIsItself(v: Word)
    ensures U(v) == v
  {
  }

  /** Sums of numbers are congruent to sums of words. */
  lemma SumWord(x: int, y: int)
    ensures U(x + y) == Plus(U(x), U(y))
  {
  }

  function RotateRight(value: int, bits: nat): int
    requires bits <= 32
  {
    JsOr(JsShrU(value, bits), JsShl(value, 32 - bits))
  }

  /** The mixed signed and unsigned rotation is ROTR on the word. */
  lemma RotateIsRotr(value: int, bits: nat)
    requires bits <= 32
    ensures U(RotateRight(value, bits)) == Rotr(bits, U(value)) && Small(RotateRight(value, bits))
  {
    SignedWord(ShiftLeft(32 - bits, U(value)));
    WordIsItself(ShiftRight(bits, U(value)));
    SignedWord(Or32(ShiftRight(bits, U(value)), ShiftLeft(32 - bits, U(value))));
  }

  lemma XorWord(x: int, y: int)
    ensures U(JsXor(x, y)) == Xor32(U(x), U(y)) && Small(JsXor(x, y))
  {
    SignedWord(Xor32(U(x), U(y)));
  }

  lemma AndWord(x: int, y: int)
    ensures U(JsAnd(x, y)) == And32(U(x), U(y)) && Small(JsAnd(x, y))
  {
    SignedWord(And32(U(x), U(y)));
  }

  lemma NotWord(x: int)
    ensures U(JsNot(x)) == Not32(U(x)) && Small(JsNot(x))
  {
    SignedWord(Not32(U(x)));
  }

  // ---------------------------------------------------------------- the expressions of the code

  function JsSmall0(x: int): int { JsXor(JsXor(RotateRight(x, 7), RotateRight(x, 18)), JsShrU(x, 3)) }
  function JsSmall1(x: int): int { JsXor(JsXor(RotateRight(x, 17), RotateRight(x, 19)), JsShrU(x, 10)) }
  function JsBig0(x: int): int { JsXor(JsXor(RotateRight(x, 2), RotateRight(x, 13)), RotateRight(x, 22)) }
  function JsBig1(x: int): int { JsXor(JsXor(RotateRight(x, 6), RotateRight(x, 11)), RotateRight(x, 25)) }
  function JsCh(e: int, f: int, g: int): int { JsXor(JsAnd(e, f), JsAnd(JsNot(e), g)) }
  function JsMaj(a: int, b: int, c: int): int { JsXor(JsXor(JsAnd(a, b), JsAnd(a, c)), JsAnd(b, c)) }

  lemma JsSmall0Word(x: int)
    ensures U(JsSmall0(x)) == SmallSigma0(U(x)) && Small(JsSmall0(x))
  {
    RotateIsRotr(x, 7);
    RotateIsRotr(x, 18);
    WordIsItself(ShiftRight(3, U(x)));
    XorWord(RotateRight(x, 7), RotateRight(x, 18));
    XorWord(JsXor(RotateRight(x, 7), RotateRight(x, 18)), JsShrU(x, 3));
  }

  lemma JsSmall1Word(x: int)
    ensures U(JsSmall1(x)) == SmallSigma1(U(x)) && Small(JsSmall1(x))
  {
    RotateIsRotr(x, 17);
    RotateIsRotr(x, 19);
    WordIsItself(ShiftRight(10, U(x)));
    XorWord(RotateRight(x, 17), RotateRight(x, 19));
    XorWord(JsXor(RotateRight(x, 17), RotateRight(x, 19)), JsShrU(x, 10));
  }

  lemma JsBig0Word(x: int)
    ensures U(JsBig0(x)) == BigSigma0(U(x)) && Small(JsBig0(x))
  {
    RotateIsRotr(x, 2);
    RotateIsRotr(x, 13);
    RotateIsRotr(x, 22);
    XorWord(RotateRight(x, 2), RotateRight(x, 13));
    XorWord(JsXor(RotateRight(x, 2), RotateRight(x, 13)), RotateRight(x, 22));
  }

  lemma JsBig1Word(x: int)
    ensures U(JsBig1(x)) == BigSigma1(U(x)) && Small(JsBig1(x))
  {
    RotateIsRotr(x, 6);
    RotateIsRotr(x, 11);
    RotateIsRotr(x, 25);
    XorWord(RotateRight(x, 6), RotateRight(x, 11));
    XorWord(JsXor(RotateRight(x, 6), RotateRight(x, 11)), RotateRight(x, 25));
  }

  lemma JsChWord(e: int, f: int, g: int)
    ensures U(JsCh(e, f, g)) == Ch(U(e), U(f), U(g)) && Small(JsCh(e, f, g))
  {
    AndWord(e, f);
    NotWord(e);
    AndWord(JsNot(e), g);
    XorWord(JsAnd(e, f), JsAnd(JsNot(e), g));
  }

  lemma JsMajWord(a: int, b: int, c: int)
    ensures U(JsMaj(a, b, c)) == Maj(U(a), U(b), U(c)) && Small(JsMaj(a, b, c))
  {
    AndWord(a, b);
    AndWord(a, c);
    AndWord(b, c);
    XorWord(JsAnd(a, b), JsAnd(a, c));
    XorWord(JsXor(JsAnd(a, b), JsAnd(a, c)), JsAnd(b, c));
  }

  /** The same six expressions on JavaScript numbers. */
  datatype JsLogic = JsLogic(start: seq<int>, k: seq<int>, ch: (int, int, int) -> int, maj: (int, int, int) -> int,
                             big0: int -> int, big1: int -> int, small0: int -> int, small1: int -> int)

  function Code(): JsLogic {
    JsLogic(H0, K, (e, f, g) => JsCh(e, f, g), (a, b, c) => JsMaj(a, b, c),
            x => JsBig0(x), x => JsBig1(x), x => JsSmall0(x), x => JsSmall1(x))
  }

  /** The expression gives a 32-bit number, signed or not, congruent to the word function. */
  ghost predicate Unary(js: int -> int, fn: Word -> Word) {
    forall x: int :: Small(js(x)) && U(js(x)) == fn(U(x))
  }

  ghost predicate Ternary(js: (int, int, int) -> int, fn: (Word, Word, Word) -> Word) {
    forall x: int, y: int, z: int :: Small(js(x, y, z)) && U(js(x, y, z)) == fn(U(x), U(y), U(z))
  }

  ghost predicate Matches(js: JsLogic, fn: Logic) {
    && |fn.start| == 8 && js.start == fn.start && |fn.k| == 64 && js.k == fn.k
    && Ternary(js.ch, fn.ch) && Ternary(js.maj, fn.maj)
    && Unary(js.big0, fn.big0) && Unary(js.big1, fn.big1)
    && Unary(js.small0, fn.small0) && Unary(js.small1, fn.small1)
  }

  lemma CodeMatchesFips()
    ensures Matches(Code(), Fips())
  {
    forall e: int, f: int, g: int
      ensures Small(Code().ch(e, f, g)) && U(Code().ch(e, f, g)) == Fips().ch(U(e), U(f), U(g))
    {
      JsChWord(e, f, g);
    }
    forall a: int, b: int, c: int
      ensures Small(Code().maj(a, b, c)) && U(Code().maj(a, b, c)) == Fips().maj(U(a), U(b), U(c))
    {
      JsMajWord(a, b, c);
    }
    forall x: int ensures Small(Code().big0(x)) && U(Code().big0(x)) == Fips().big0(U(x)) {
      JsBig0Word(x);
    }
    forall x: int ensures Small(Code().big1(x)) && U(Code().big1(x)) == Fips().big1(U(x)) {
      JsBig1Word(x);
    }
    forall x: int ensures Small(Code().small0(x)) && U(Code().small0(x)) == Fips().small0(U(x)) {
      JsSmall0Word(x);
    }
    forall x: int ensures Small(Code().small1(x)) && U(Code().small1(x)) == Fips().small1(U(x)) {
      JsSmall1Word(x);
    }
  }

  /** Four numbers added and cut to a word: no precision is lost, and the order of addition does not matter. */
  lemma FourWords(a: int, b: int, c: int, d: int)
    requires Small(a) && Small(b) && Small(c) && Small(d)
    ensures Exact(a + b + c + d)
    ensures U(a + b + c + d) == Plus(Plus(Plus(U(d), U(c)), U(b)), U(a))
  {
    SumWord(d, c);
    SumWord(d + c, b);
    SumWord(d + c + b, a);
  }

  lemma FiveWords(a: int, b: int, c: int, d: int, e: int)
    requires Small(a) && Small(b) && Small(c) && Small(d) && Small(e)
    ensures Exact(a + b + c + d + e)
    ensures U(a + b + c + d + e) == Plus(Plus(Plus(Plus(U(a), U(b)), U(c)), U(d)), U(e))
  {
    SumWord(a, b);
    SumWord(a + b, c);
    SumWord(a + b + c, d);
    SumWord(a + b + c + d, e);
  }

  lemma TwoWords(a: int, b: int)
    requires Small(a) && Small(b)
    ensures Exact(a + b) && U(a + b) == Plus(U(a), U(b))
  {
    SumWord(a, b);
  }

  // ---------------------------------------------------------------- sha256Block

  function Words(s: seq<int>): (r: seq<Word>)
    ensures |r| == |s|
  {
    seq(|s|, i requires 0 <= i < |s| => U(s[i]))
  }

  predicate AllSmall(s: seq<int>) {
    forall i :: 0 <= i < |s| ==> Small(s[i])
  }

  predicate AllWords(s: seq<int>) {
    forall i :: 0 <= i < |s| ==> 0 <= s[i] < TWO32
  }

  lemma {:induction false} ScheduleStart(fn: Logic, m: seq<Word>, n: nat)
    requires |m| == 16 && n <= 16
    ensures Schedule(fn, m, n) == m[..n]
  {
    if n > 0 {
      ScheduleStart(fn, m, n - 1);
      assert m[..n] == m[..n - 1] + [m[n - 1]];
    }
  }

  /** What the body of the first loop stores. */
  function JsEntry(js: JsLogic, w: seq<int>, i: nat): int
    requires 16 <= i <= |w|
  {
    JsU(w[i - 16] + js.small0(w[i - 15]) + w[i - 7] + js.small1(w[i - 2]))
  }

  method ScheduleBody(js: JsLogic, w: array<int>, i: nat)
    requires 16 <= i < w.Length
    modifies w
    ensures w[..i + 1] == old(w[..i]) + [JsEntry(js, old(w[..i]), i)]
  {
    var s0 := js.small0(w[i - 15]);
    var s1 := js.small1(w[i - 2]);
    w[i] := JsU(w[i - 16] + s0 + w[i - 7] + s1);
  }

  /** The first loop: extend sixteen message numbers to the schedule, in place. */
  method ExtendSchedule(js: JsLogic, ghost fn: Logic, w: array<int>)
    requires w.Length == 64 && AllSmall(w[..16]) && Matches(js, fn)
    modifies w
    ensures AllSmall(w[..]) && Words(w[..]) == Schedule(fn, Words(old(w[..16])), |fn.k|)
  {
    ghost var m := Words(w[..16]);
    ScheduleStart(fn, m, 16);
    assert Words(w[..16]) == m == m[..16];
    var i := 16;
    while i < 64
      invariant 16 <= i <= 64
      invariant AllSmall(w[..i]) && Words(w[..i]) == Schedule(fn, m, i)
    {
      ScheduleContinues(js, fn, m, i, w[..i]);
      ScheduleBody(js, w, i);
      i := i + 1;
    }
    assert w[..i] == w[..] && i == |fn.k|;
  }

  /** One entry of the schedule: the sum is exact and congruent to the word sum. */
  lemma ScheduleStep(fn: Logic, m: seq<Word>, i: nat, before: seq<int>, s0: int, s1: int, x: int)
    requires |m| == 16 && 16 <= i < 64 && |before| == i && AllSmall(before) && Words(before) == Schedule(fn, m, i)
    requires Small(s0) && U(s0) == fn.small0(U(before[i - 15]))
    requires Small(s1) && U(s1) == fn.small1(U(before[i - 2]))
    requires x == before[i - 16] + s0 + before[i - 7] + s1
    ensures Exact(x) && AllSmall(before + [JsU(x)]) && Words(before + [JsU(x)]) == Schedule(fn, m, i + 1)
  {
    FourWords(before[i - 16], s0, before[i - 7], s1);
    var w, y := Schedule(fn, m, i), JsU(x);
    WordIsItself(y);
    assert w[i - 2] == U(before[i - 2]) && w[i - 7] == U(before[i - 7]) && w[i - 15] == U(before[i - 15])
      && w[i - 16] == U(before[i - 16]);
    assert Words(before + [y]) == Words(before) + [U(y)];
  }

  lemma ScheduleContinues(js: JsLogic, fn: Logic, m: seq<Word>, i: nat, before: seq<int>)
    requires |m| == 16 && 16 <= i < 64 && |before| == i && AllSmall(before) && Words(before) == Schedule(fn, m, i)
    requires Matches(js, fn)
    ensures AllSmall(before + [JsEntry(js, before, i)])
    ensures Words(before + [JsEntry(js, before, i)]) == Schedule(fn, m, i + 1)
  {
    var s0, s1 := js.small0(before[i - 15]), js.small1(before[i - 2]);
    ScheduleStep(fn, m, i, before, s0, s1, before[i - 16] + s0 + before[i - 7] + s1);
  }

  /** T1 and T2 as the code adds them, the parts being signed or unsigned numbers. */
  lemma MixStep(v: Vars, s1: int, ch: int, s0: int, maj: int, k: Word, w: int, t1: int, t2: int, next: Vars)
    requires Small(s1) && Small(ch) && Small(s0) && Small(maj) && Small(w)
    requires t1 == JsU(v.h + s1 + ch + k + w) && t2 == JsU(s0 + maj)
    requires next == Vars(JsU(t1 + t2), v.a, v.b, v.c, JsU(v.d + t1), v.e, v.f, v.g)
    ensures Exact(v.h + s1 + ch + k + w) && Exact(s0 + maj) && Exact(v.d + t1) && Exact(t1 + t2)
    ensures next == Mix(v, U(s1), U(ch), U(s0), U(maj), k, U(w))
  {
    WordIsItself(v.h);
    WordIsItself(k);
    FiveWords(v.h, s1, ch, k, w);
    TwoWords(s0, maj);
  }

  ghost predicate PartsMatch(js: JsLogic, fn: Logic, v: Vars) {
    && Small(js.big1(v.e)) && U(js.big1(v.e)) == fn.big1(v.e)
    && Small(js.big0(v.a)) && U(js.big0(v.a)) == fn.big0(v.a)
    && Small(js.ch(v.e, v.f, v.g)) && U(js.ch(v.e, v.f, v.g)) == fn.ch(v.e, v.f, v.g)
    && Small(js.maj(v.a, v.b, v.c)) && U(js.maj(v.a, v.b, v.c)) == fn.maj(v.a, v.b, v.c)
  }

  /** On words, the four parts of a round are the word functions themselves. */
  lemma RoundParts(js: JsLogic, fn: Logic, v: Vars)
    requires Matches(js, fn)
    ensures PartsMatch(js, fn, v)
  {
    WordIsItself(v.a);
    WordIsItself(v.b);
    WordIsItself(v.c);
    WordIsItself(v.e);
    WordIsItself(v.f);
    WordIsItself(v.g);
  }

  /** One round on JavaScript numbers that already are words. */
  lemma RoundStep(fn: Logic, v: Vars, s1: int, ch: int, s0: int, maj: int, k: Word, w: int, t1: int, t2: int,
                  next: Vars)
    requires Small(s1) && Small(ch) && Small(s0) && Small(maj) && Small(w)
    requires U(s1) == fn.big1(v.e) && U(ch) == fn.ch(v.e, v.f, v.g) && U(s0) == fn.big0(v.a)
    requires U(maj) == fn.maj(v.a, v.b, v.c)
    requires t1 == JsU(v.h + s1 + ch + k + w) && t2 == JsU(s0 + maj)
    requires next == Vars(JsU(t1 + t2), v.a, v.b, v.c, JsU(v.d + t1), v.e, v.f, v.g)
    ensures next == Round(fn, v, k, U(w))
  {
    MixStep(v, s1, ch, s0, maj, k, w, t1, t2, next);
  }

  /** The variables after one more pass through the loop body. */
  function JsRound(js: JsLogic, v: Vars, k: int, w: int): Vars {
    var t1 := JsU(v.h + js.big1(v.e) + js.ch(v.e, v.f, v.g) + k + w);
    var t2 := JsU(js.big0(v.a) + js.maj(v.a, v.b, v.c));
    Vars(JsU(t1 + t2), v.a, v.b, v.c, JsU(v.d + t1), v.e, v.f, v.g)
  }

  lemma JsRoundIsRound(js: JsLogic, fn: Logic, v: Vars, k: Word, w: int)
    requires PartsMatch(js, fn, v) && Small(w)
    ensures JsRound(js, v, k, w) == Round(fn, v, k, U(w))
  {
    var s1, ch, s0, maj := js.big1(v.e), js.ch(v.e, v.f, v.g), js.big0(v.a), js.maj(v.a, v.b, v.c);
    RoundStep(fn, v, s1, ch, s0, maj, k, w, JsU(v.h + s1 + ch + k + w), JsU(s0 + maj), JsRound(js, v, k, w));
  }

  lemma JsRoundContinues(js: JsLogic, fn: Logic, v0: Vars, w: seq<int>, i: nat, v: Vars)
    requires Matches(js, fn) && |w| == 64 && AllSmall(w) && i < 64 && v == Rounds(fn, v0, Words(w), i)
    ensures JsRound(js, v, js.k[i], w[i]) == Rounds(fn, v0, Words(w), i + 1)
  {
    RoundParts(js, fn, v);
    JsRoundIsRound(js, fn, v, fn.k[i], w[i]);
  }

  /** The body of the second loop: the working variables, moved in the order of the code. */
  method RoundBody(js: JsLogic, v: Vars, k: Word, w: int) returns (next: Vars)
    ensures next == JsRound(js, v, k, w)
  {
    var a, b, c, d, e, f, g, hh := v.a, v.b, v.c, v.d, v.e, v.f, v.g, v.h;
    var s1 := js.big1(e);
    var t1 := JsU(hh + s1 + js.ch(e, f, g) + k + w);
    var s0 := js.big0(a);
    var t2 := JsU(s0 + js.maj(a, b, c));
    hh := g;
    g := f;
    f := e;
    e := JsU(d + t1);
    d := c;
    c := b;
    b := a;
    a := JsU(t1 + t2);
    next := Vars(a, b, c, d, e, f, g, hh);
  }

  /** The second loop: sixty-four rounds. */
  method RunRounds(js: JsLogic, ghost fn: Logic, h: array<int>, w: array<int>) returns (v: Vars)
    requires h.Length == 8 && AllWords(h[..]) && w.Length == 64 && AllSmall(w[..]) && Matches(js, fn)
    ensures v == Rounds(fn, StartVars(h[..]), Words(w[..]), |w[..]|)
  {
    assert forall k :: 0 <= k < 8 ==> h[k] == h[..][k];
    v := Vars(h[0], h[1], h[2], h[3], h[4], h[5], h[6], h[7]);
    ghost var v0 := StartVars(h[..]);
    var i := 0;
    while i < w.Length
      invariant 0 <= i <= w.Length
      invariant v == Rounds(fn, v0, Words(w[..]), i)
    {
      JsRoundContinues(js, fn, v0, w[..], i, v);
      v := RoundBody(js, v, js.k[i], w[i]);
      i := i + 1;
    }
  }

  /** The third loop: add the working variables to the hash value. */
  method AddInto(h: array<int>, v: Vars)
    requires h.Length == 8 && AllWords(h[..])
    modifies h
    ensures AllWords(h[..]) && h[..] == AddVars(old(h[..]), v)
  {
    var next := [v.a, v.b, v.c, v.d, v.e, v.f, v.g, v.h];
    ghost var h0 := h[..];
    var i := 0;
    while i < 8
      invariant 0 <= i <= 8
      invariant forall k :: 0 <= k < i ==> h[k] == Plus(next[k], h0[k])
      invariant forall k :: i <= k < 8 ==> h[k] == h0[k]
    {
      h[i] := JsU(h[i] + next[i]);
      i := i + 1;
    }
    ghost var sum := AddVars(h0, v);
    assert forall k :: 0 <= k < 8 ==> sum[k] == Plus(next[k], h0[k]);
  }

  /** `sha256Block`: one block folded into the hash value, in place. */
  method Sha256Block(js: JsLogic, ghost fn: Logic, h: array<int>, w: array<int>)
    requires h.Length == 8 && w.Length == 64 && h != w && Matches(js, fn)
    requires AllWords(h[..]) && AllSmall(w[..16])
    modifies h, w
    ensures AllWords(h[..]) && h[..] == Compress(fn, old(h[..]), Words(old(w[..16])))
  {
    ExtendSchedule(js, fn, w);
    var v := RunRounds(js, fn, h, w);
    AddInto(h, v);
  }

  // ---------------------------------------------------------------- padding, FIPS 180-4, section 5.1.1

  function Zeros(n: nat): seq<Byte> {
    seq(n, i => 0)
  }

  /** A number below 2^64 as eight bytes, high byte first. */
  function BigEndian(value: int, bytes: nat): (r: seq<Byte>)
    ensures |r| == bytes
    decreases bytes, value
  {
    if bytes == 0 then [] else BigEndian(value / 256, bytes - 1) + [value % 256]
  }

  /** The number of zero bytes between the end mark and the length. */
  function ZeroBytes(length: nat): nat {
    (55 - length) % 64
  }

  /** The padded message: one 1 bit, zeros, and the length in bits as 64 bits. */
  function Pad(data: seq<Byte>): (p: seq<Byte>)
    ensures |p| % 64 == 0
  {
    data + [0x80] + Zeros(ZeroBytes(|data|)) + BigEndian(8 * |data|, 8)
  }

  /** With k the zero bits after the 1 bit, l + 1 + k = 448 mod 512, and k is the least such number. */
  lemma PadIsLeast(length: nat)
    ensures var l, k := 8 * length, 7 + 8 * ZeroBytes(length);
            (l + 1 + k) % 512 == 448 && k < 512
  {
    var q := (55 - length) / 64;
    assert 55 - length == 64 * q + ZeroBytes(length);
    assert 8 * length + 1 + 7 + 8 * ZeroBytes(length) == 448 + 512 * (-q);
  }

  /** `((n + 9 + 63) >> 6) << 6` on 32-bit numbers. */
  function PaddedLength(n: nat): int {
    JsShl(JsSar(n + 9 + 63, 6), 6)
  }

  /** Below 2^31 - 72 bytes the shifts give the least multiple of 64 that holds the message, the mark and the length. */
  lemma PaddedLengthRight(n: nat)
    requires n < TWO31 - 72
    ensures PaddedLength(n) == n + 9 + ZeroBytes(n)
    ensures PaddedLength(n) % 64 == 0 && n + 9 <= PaddedLength(n) < n + 9 + 64
  {
    PaddedLengthRounds(n);
    RoundUp(n);
  }

  lemma PaddedLengthRounds(n: nat)
    requires n < TWO31 - 72
    ensures PaddedLength(n) == 64 * ((n + 72) / 64)
  {
    assert Pow2(6) == 64;
    var q := (n + 72) / 64;
    assert I(n + 72) == n + 72;
    assert JsSar(n + 9 + 63, 6) == q;
    assert ShiftLeft(6, q) == 64 * q;
  }

  lemma RoundUp(n: nat)
    ensures 64 * ((n + 72) / 64) == n + 9 + ZeroBytes(n)
  {
    var z := (55 - n) / 64;
    assert 55 - n == 64 * z + ZeroBytes(n);
    assert n + 72 == 64 * (1 - z) + (63 - ZeroBytes(n));
  }

  /**
   * From there on the 32-bit shifts overflow: the length is negative or shorter
   * than the message, and the code throws.
   */
  lemma PaddedLengthFails(n: nat)
    requires n >= TWO31 - 72
    ensures PaddedLength(n) < 0 || PaddedLength(n) < n
  {
    assert Pow2(6) == 64;
    if n < TWO31 {
      assert I(n + 72) == n + 72 - TWO32;
      var q := (n + 72 - TWO32) / 64;
      assert JsSar(n + 9 + 63, 6) == q;
      assert U(q) == q + TWO32;
      assert ShiftLeft(6, U(q)) == (64 * q + 64 * TWO32) % TWO32 == 64 * q + TWO32;
    } else {
      SignedWord(ShiftLeft(6, U(JsSar(n + 9 + 63, 6))));
    }
  }

  lemma {:induction false} BigEndianSplit(value: nat, low: nat, high: nat)
    ensures BigEndian(value, high + low) == BigEndian(value / Pow256(low), high) + BigEndian(value % Pow256(low), low)
    decreases low
  {
    if low > 0 {
      BigEndianSplit(value / 256, low - 1, high);
      DivideTwice(value, Pow256(low - 1));
      var inner := BigEndian(value / 256 / Pow256(low - 1), high);
      assert BigEndian(value, high + low) == BigEndian(value / 256, high + low - 1) + [value % 256];
      assert BigEndian(value % Pow256(low), low) == BigEndian(value % Pow256(low) / 256, low - 1)
        + [value % Pow256(low) % 256];
    }
  }

  function Pow256(n: nat): (r: nat)
    ensures r > 0
  {
    if n == 0 then 1 else 256 * Pow256(n - 1)
  }

  lemma DivideTwice(value: nat, p: nat)
    requires p > 0
    ensures value / (256 * p) == value / 256 / p
    ensures value % (256 * p) / 256 == value / 256 % p
    ensures value % (256 * p) % 256 == value % 256
  {
    var v, r := value / 256, value % 256;
    var q, t := v / p, v % p;
    assert v == p * q + t;
    assert value == 256 * (p * q + t) + r == (256 * p) * q + (256 * t + r);
    assert 0 <= 256 * t + r < 256 * p;
    QuotientUnique(value, 256 * p, q, 256 * t + r);
  }

  lemma QuotientUnique(value: nat, p: nat, q: nat, r: nat)
    requires p > 0 && value == p * q + r && r < p
    ensures value / p == q && value % p == r
  {
    var q', r' := value / p, value % p;
    assert value == p * q' + r';
    assert p * (q - q') == r' - r;
    if q > q' {
      AtLeastOnce(q - q', p);
    } else if q < q' {
      AtLeastOnce(q' - q, p);
    }
  }

  /** `view.setUint32(offset, value)`: four bytes, high byte first. */
  method SetUint32(a: array<Byte>, offset: nat, value: int)
    requires offset + 4 <= a.Length
    modifies a
    ensures a[..] == old(a[..offset]) + BigEndian(U(value), 4) + old(a[offset + 4..])
  {
    var u := JsU(value);
    a[offset] := u / 0x100_0000 % 256;
    a[offset + 1] := u / 0x1_0000 % 256;
    a[offset + 2] := u / 0x100 % 256;
    a[offset + 3] := u % 256;
    FourBytes(u);
  }

  lemma FourBytes(u: nat)
    ensures BigEndian(u, 4) == [u / 0x100_0000 % 256, u / 0x1_0000 % 256, u / 0x100 % 256, u % 256]
  {
    var u1 := u / 256;
    var u2 := u1 / 256;
    var u3 := u2 / 256;
    assert u2 == u / 0x1_0000 && u3 == u / 0x100_0000;
    ByteLast(u3, 1, []);
    ByteLast(u2, 2, [u3 % 256]);
    ByteLast(u1, 3, [u3 % 256, u2 % 256]);
    ByteLast(u, 4, [u3 % 256, u2 % 256, u1 % 256]);
  }

  lemma ByteLast(value: nat, bytes: nat, head: seq<Byte>)
    requires bytes > 0 && BigEndian(value / 256, bytes - 1) == head
    ensures BigEndian(value, bytes) == head + [value % 256]
  {
  }

  /** Building the padded buffer; `None` where the code throws a RangeError. */
  method PadMessage(data: seq<Byte>) returns (padded: Option<array<Byte>>)
    ensures padded.Some? <==> |data| < TWO31 - 72
    ensures padded.Some? ==> fresh(padded.value) && padded.value[..] == Pad(data)
  {
    var n := |data|;
    var length := PaddedLength(n);
    if n < TWO31 - 72 { PaddedLengthRight(n); } else { PaddedLengthFails(n); }
    if length < 0 || n > length {
      return None;
    }
    var a := FillPadded(data, length);
    padded := Some(a);
  }

  method FillPadded(data: seq<Byte>, length: nat) returns (a: array<Byte>)
    requires |data| < TWO31 && length == |data| + 9 + ZeroBytes(|data|)
    ensures fresh(a) && a[..] == Pad(data)
  {
    a := CopyMarked(data, length);
    DropLength(data, ZeroBytes(|data|));
    SetLength(a, |data|);
  }

  lemma DropLength(data: seq<Byte>, zeros: nat)
    ensures (data + [0x80] + Zeros(zeros + 8))[..|data| + 1 + zeros] == data + [0x80] + Zeros(zeros)
  {
  }

  /** The length in bits, as two words at the end of the buffer. */
  method SetLength(a: array<Byte>, n: nat)
    requires n < TWO31 && 8 <= a.Length
    modifies a
    ensures a[..] == old(a[..a.Length - 8]) + BigEndian(8 * n, 8)
  {
    ghost var head := a[..a.Length - 8];
    SetTwoWords(a, n * 8 / TWO32, n * 8);
    LengthBytes(n);
    Regroup(head, BigEndian(U(n * 8 / TWO32), 4), BigEndian(U(n * 8), 4));
  }

  method SetTwoWords(a: array<Byte>, high: int, low: int)
    requires 8 <= a.Length
    modifies a
    ensures a[..] == old(a[..a.Length - 8]) + BigEndian(U(high), 4) + BigEndian(U(low), 4)
  {
    ghost var head := a[..a.Length - 8];
    SetUint32(a, a.Length - 8, high);
    assert a[..a.Length - 4] == head + BigEndian(U(high), 4);
    SetUint32(a, a.Length - 4, low);
  }

  lemma Regroup(x: seq<Byte>, y: seq<Byte>, z: seq<Byte>)
    ensures x + y + z == x + (y + z)
  {
  }

  /** `padded.set(data)` and the end mark, in a buffer of zeros. */
  method CopyMarked(data: seq<Byte>, length: nat) returns (a: array<Byte>)
    requires |data| < length
    ensures fresh(a) && a[..] == data + [0x80] + Zeros(length - |data| - 1)
  {
    a := new Byte[length](i => 0);
    var i := 0;
    while i < |data|
      invariant 0 <= i <= |data|
      invariant forall k :: 0 <= k < i ==> a[k] == data[k]
      invariant forall k :: i <= k < length ==> a[k] == 0
    {
      a[i] := data[i];
      i := i + 1;
    }
    a[i] := 0x80;
  }

  lemma WordPow256()
    ensures Pow256(4) == TWO32
  {
  }

  lemma EightBytes(value: nat, p: nat)
    requires p == Pow256(4)
    ensures BigEndian(value, 8) == BigEndian(value / p, 4) + BigEndian(value % p, 4)
  {
    BigEndianSplit(value, 4, 4);
  }

  lemma LengthBytes(n: nat)
    requires n < TWO31
    ensures BigEndian(8 * n, 8) == BigEndian(U(n * 8 / TWO32), 4) + BigEndian(U(n * 8), 4)
  {
    WordPow256();
    EightBytes(8 * n, TWO32);
    assert 0 <= 8 * n / TWO32 < TWO32;
    WordIsItself(8 * n / TWO32);
  }

  // ---------------------------------------------------------------- the whole hash

  function WordAt(p: seq<Byte>, j: nat): Word
    requires j + 4 <= |p|
  {
    var b0: int, b1: int, b2: int, b3: int := p[j], p[j + 1], p[j + 2], p[j + 3];
    b0 * 0x100_0000 + b1 * 0x1_0000 + b2 * 0x100 + b3
  }

  function BlockWords(p: seq<Byte>, offset: nat): (r: seq<Word>)
    requires offset + 64 <= |p|
    ensures |r| == 16
  {
    seq(16, i requires 0 <= i < 16 => WordAt(p, offset + i * 4))
  }

  /** The hash value after the first `n` blocks. */
  function HashBlocks(fn: Logic, p: seq<Byte>, n: nat): (r: seq<Word>)
    requires 64 * n <= |p| && |fn.start| == 8
    ensures |r| == 8
  {
    if n == 0 then fn.start else Compress(fn, HashBlocks(fn, p, n - 1), BlockWords(p, 64 * (n - 1)))
  }

  /** SHA-256 of a byte string as FIPS 180-4 defines it. */
  function Digest(data: seq<Byte>): (r: seq<Word>)
    ensures |r| == 8
  {
    HashBlocks(Fips(), Pad(data), |Pad(data)| / 64)
  }

  method InitialHash(js: JsLogic, ghost fn: Logic) returns (h: array<int>)
    requires Matches(js, fn)
    ensures fresh(h) && h.Length == 8 && AllWords(h[..]) && h[..] == fn.start
  {
    h := new int[8](i requires 0 <= i < |js.start| => js.start[i]);
    assert h[..] == js.start;
  }

  ghost predicate HashedTo(h: seq<int>, fn: Logic, p: seq<Byte>, n: nat) {
    64 * n <= |p| && |fn.start| == 8 && AllWords(h) && h == HashBlocks(fn, p, n)
  }

  /** The loop over the blocks. */
  method HashPadded(js: JsLogic, ghost fn: Logic, padded: array<Byte>, ghost blocks: nat) returns (h: array<int>)
    requires padded.Length == 64 * blocks && Matches(js, fn)
    ensures fresh(h) && h.Length == 8 && HashedTo(h[..], fn, padded[..], blocks)
  {
    h := InitialHash(js, fn);
    var w := new int[64](i => 0);
    HashAll(js, fn, padded, blocks, h, w);
  }

  method HashAll(js: JsLogic, ghost fn: Logic, padded: array<Byte>, ghost blocks: nat, h: array<int>, w: array<int>)
    requires padded.Length == 64 * blocks && h.Length == 8 && w.Length == 64 && h != w && Matches(js, fn)
    requires HashedTo(h[..], fn, padded[..], 0)
    modifies h, w
    ensures HashedTo(h[..], fn, padded[..], blocks)
  {
    var offset := 0;
    ghost var n := 0;
    while offset < padded.Length
      invariant offset == 64 * n && n <= blocks
      invariant HashedTo(h[..], fn, padded[..], n)
    {
      HashBlock(js, fn, padded, offset, n, h, w);
      offset := offset + 64;
      n := n + 1;
    }
    assert n == blocks;
  }

  method HashBlock(js: JsLogic, ghost fn: Logic, padded: array<Byte>, offset: nat, ghost n: nat, h: array<int>,
                   w: array<int>)
    requires offset == 64 * n && offset + 64 <= padded.Length && h.Length == 8 && w.Length == 64 && h != w
    requires Matches(js, fn)
    requires HashedTo(h[..], fn, padded[..], n)
    modifies h, w
    ensures HashedTo(h[..], fn, padded[..], n + 1)
  {
    LoadBlock(padded, offset, w);
    Sha256Block(js, fn, h, w);
  }

  /** `w[i] = view.getInt32(offset + i * 4)`: signed numbers. */
  method LoadBlock(padded: array<Byte>, offset: nat, w: array<int>)
    requires offset + 64 <= padded.Length && w.Length == 64
    modifies w
    ensures AllSmall(w[..16]) && Words(w[..16]) == BlockWords(padded[..], offset)
  {
    var i := 0;
    while i < 16
      invariant 0 <= i <= 16
      invariant forall k :: 0 <= k < i ==> w[k] == I(WordAt(padded[..], offset + k * 4))
    {
      w[i] := I(WordAt(padded[..], offset + i * 4));
      i := i + 1;
    }
    forall k | 0 <= k < 16 ensures Small(w[..16][k]) && Words(w[..16])[k] == BlockWords(padded[..], offset)[k] {
      SignedWord(WordAt(padded[..], offset + k * 4));
    }
  }

  // ---------------------------------------------------------------- hexadecimal text

  function HexDigit(d: nat): (c: char)
    requires d < 16
  {
    if d < 10 then '0' + d as char else 'a' + (d - 10) as char
  }

  predicate IsHexDigit(c: char) {
    '0' <= c <= '9' || 'a' <= c <= 'f'
  }

  /** A number as exactly `digits` hexadecimal digits. */
  function FixedHex(value: nat, digits: nat): string
    decreases digits, value
  {
    if digits == 0 then [] else FixedHex(value / 16, digits - 1) + [HexDigit(value % 16)]
  }

  lemma {:induction false} FixedHexForm(value: nat, digits: nat)
    ensures |FixedHex(value, digits)| == digits && forall i :: 0 <= i < digits ==>
              IsHexDigit(FixedHex(value, digits)[i])
    decreases digits
  {
    if digits > 0 {
      FixedHexForm(value / 16, digits - 1);
    }
  }

  /** `value.toString(16)` */
  function ToString16(value: nat): string {
    if value < 16 then [HexDigit(value)] else ToString16(value / 16) + [HexDigit(value % 16)]
  }

  /** `text.padStart(width, '0')` */
  function PadStart(text: string, width: nat): string
    decreases width, |text|
  {
    if |text| >= width then text else ['0'] + PadStart(text, width - 1)
  }

  lemma {:induction false} FixedHexZero(digits: nat)
    ensures FixedHex(0, digits) == PadStart([], digits)
  {
    if digits > 0 {
      FixedHexZero(digits - 1);
      PadStartZeros(digits);
    }
  }

  lemma {:induction false} PadStartZeros(width: nat)
    requires width > 0
    ensures PadStart([], width) == PadStart([], width - 1) + ['0']
  {
    if width > 1 {
      PadStartZeros(width - 1);
      assert ['0'] + (PadStart([], width - 2) + ['0']) == (['0'] + PadStart([], width - 2)) + ['0'];
    }
  }

  lemma {:induction false} PadStartAppend(text: string, width: nat, c: char)
    ensures PadStart(text + [c], width + 1) == PadStart(text, width) + [c]
    decreases width
  {
    if |text| < width {
      PadStartAppend(text, width - 1, c);
      assert ['0'] + (PadStart(text, width - 1) + [c]) == (['0'] + PadStart(text, width - 1)) + [c];
    }
  }

  function Pow16(n: nat): (r: nat)
    ensures r > 0
  {
    if n == 0 then 1 else 16 * Pow16(n - 1)
  }

  /** Minimal digits padded with zeros are the fixed-width digits. */
  lemma {:induction false} PaddedHexIsFixed(value: nat, digits: nat)
    requires digits > 0 && value < Pow16(digits)
    ensures PadStart(ToString16(value), digits) == FixedHex(value, digits)
  {
    if value < 16 {
      FixedHexZero(digits - 1);
      PadStartAppend([], digits - 1, HexDigit(value));
      assert [] + [HexDigit(value)] == ToString16(value);
    } else {
      PaddedHexIsFixed(value / 16, digits - 1);
      PadStartAppend(ToString16(value / 16), digits - 1, HexDigit(value % 16));
    }
  }

  lemma {:induction false} HexTextForm(words: seq<Word>)
    ensures |HexText(words)| == 8 * |words| && forall i :: 0 <= i < |HexText(words)| ==> IsHexDigit(HexText(words)[i])
  {
    if |words| > 0 {
      HexTextForm(words[..|words| - 1]);
      FixedHexForm(words[|words| - 1], 8);
    }
  }

  function HexText(words: seq<Word>): string {
    if |words| == 0 then [] else HexText(words[..|words| - 1]) + FixedHex(words[|words| - 1], 8)
  }

  lemma HexTextSnoc(words: seq<Word>, w: Word)
    ensures HexText(words + [w]) == HexText(words) + FixedHex(w, 8)
  {
    assert (words + [w])[..|words|] == words;
  }

  lemma HexTextNext(words: seq<Word>, i: nat, piece: string)
    requires i < |words| && piece == FixedHex(words[i], 8)
    ensures HexText(words[..i + 1]) == HexText(words[..i]) + piece
  {
    HexTextSnoc(words[..i], words[i]);
    assert words[..i + 1] == words[..i] + [words[i]];
  }

  /** `(word >>> 0).toString(16).padStart(8, '0')` */
  function WordText(w: int): string {
    PadStart(ToString16(JsU(w)), 8)
  }

  /** The texts of the words, joined. */
  method HexOf(words: seq<Word>) returns (text: string)
    ensures text == HexText(words)
  {
    text := "";
    var i := 0;
    while i < |words|
      invariant 0 <= i <= |words|
      invariant text == HexText(words[..i])
    {
      var piece := WordText(words[i]);
      PaddedWord(words[i]);
      HexTextNext(words, i, piece);
      text := text + piece;
      i := i + 1;
    }
    assert words[..i] == words;
  }

  method HashText(js: JsLogic, ghost fn: Logic, data: seq<Byte>) returns (hex: Option<string>)
    requires Matches(js, fn)
    ensures hex.Some? <==> |data| < TWO31 - 72
    ensures hex.Some? ==> hex.value == HexText(HashBlocks(fn, Pad(data), |Pad(data)| / 64))
  {
    var padded := PadMessage(data);
    if padded.None? {
      return None;
    }
    var h := HashPadded(js, fn, padded.value, |Pad(data)| / 64);
    var text := HexOf(h[..]);
    hex := Some(text);
  }

  /**
   * `sha256Hex` on the encoded bytes: the FIPS digest in lower-case hex for
   * every byte string shorter than 2^31 - 72, a RangeError (`None`) for every
   * longer one.
   */
  method Sha256Hex(data: seq<Byte>) returns (hex: Option<string>)
    ensures hex.Some? <==> |data| < TWO31 - 72
    ensures hex.Some? ==> hex.value == HexText(Digest(data))
    ensures hex.Some? ==> |hex.value| == 64 && forall i :: 0 <= i < 64 ==> IsHexDigit(hex.value[i])
  {
    CodeMatchesFips();
    HexTextForm(Digest(data));
    hex := HashText(Code(), Fips(), data);
  }

  lemma Pow16Word()
    ensures Pow16(8) == TWO32
  {
    assert Pow16(4) == 0x1_0000;
  }

  lemma PaddedWord(w: Word)
    ensures WordText(w) == FixedHex(w, 8)
  {
    WordIsItself(w);
    Pow16Word();
    PaddedHexIsFixed(w, 8);
  }
}
