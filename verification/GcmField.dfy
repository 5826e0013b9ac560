/**
 The field GF(2^128) as GCM uses it (section 6.3 of NIST SP 800-38D), and multiplication by a fixed
 element with a table of its sixteen small multiples.
 */
module GcmField {

  /** The coefficient of x^0 is the highest bit of `low`, that of x^127 the lowest bit of `high`. */
  datatype Element = Element(low: bv64, high: bv64)

  const ZERO := Element(0, 0)

  function Xor(a: bv64, b: bv64): bv64 {
    a ^ b
  }

  function Add(x: Element, y: Element): Element {
    Element(Xor(x.low, y.low), Xor(x.high, y.high))
  }

  function DoubleHigh(low: bv64, high: bv64): bv64 {
    (high >> 1) | (low << 63)
  }

  predicate Odd(w: bv64) {
    w & 1 == 1
  }

  function Half(w: bv64): bv64 {
    w >> 1
  }

  const TERMS: bv64 := 0xe100_0000_0000_0000

  function DoubleLow(low: bv64, high: bv64): bv64 {
    if Odd(high) then Xor(Half(low), TERMS) else Half(low)
  }

  /** Multiplication by x: a shift, and a reduction by 1 + x + x^2 + x^7 + x^128. */
  function Double(x: Element): Element {
    Element(DoubleLow(x.low, x.high), DoubleHigh(x.low, x.high))
  }

  function Pick(b: bool, x: Element): Element {
    if b then x else ZERO
  }

  lemma XorAssoc(a: bv64, b: bv64, c: bv64)
    ensures Xor(Xor(a, b), c) == Xor(a, Xor(b, c))
  {
    assert (a ^ b) ^ c == a ^ (b ^ c);
  }

  lemma XorLaws(a: bv64, b: bv64)
    ensures Xor(a, 0) == a && Xor(0, a) == a && Xor(a, a) == 0 && Xor(a, b) == Xor(b, a)
  {
  }

  lemma AddAssoc(x: Element, y: Element, z: Element)
    ensures Add(Add(x, y), z) == Add(x, Add(y, z))
  {
    hide Xor;
    XorAssoc(x.low, y.low, z.low);
    XorAssoc(x.high, y.high, z.high);
  }

  lemma AddLaws(x: Element, y: Element)
    ensures Add(x, ZERO) == x && Add(ZERO, x) == x && Add(x, x) == ZERO && Add(x, y) == Add(y, x)
  {
    hide Xor;
    XorLaws(x.low, y.low);
    XorLaws(x.high, y.high);
  }

  lemma DoubleHighIsLinear(a: bv64, b: bv64, c: bv64, d: bv64)
    ensures DoubleHigh(Xor(a, b), Xor(c, d)) == Xor(DoubleHigh(a, c), DoubleHigh(b, d)) && DoubleHigh(0, 0) == 0
  {
    assert ((c ^ d) >> 1) | ((a ^ b) << 63) == ((c >> 1) | (a << 63)) ^ ((d >> 1) | (b << 63));
  }

  lemma HalfIsLinear(a: bv64, b: bv64)
    ensures Half(Xor(a, b)) == Xor(Half(a), Half(b))
  {
    assert (a ^ b) >> 1 == (a >> 1) ^ (b >> 1);
  }

  lemma OddOfXor(a: bv64, b: bv64)
    ensures Odd(Xor(a, b)) <==> Odd(a) != Odd(b)
  {
    assert (a ^ b) & 1 == (a & 1) ^ (b & 1);
    assert (a & 1 == 0 || a & 1 == 1) && (b & 1 == 0 || b & 1 == 1);
  }

  lemma DoubleLowIsLinear(a: bv64, b: bv64, c: bv64, d: bv64)
    ensures DoubleLow(Xor(a, b), Xor(c, d)) == Xor(DoubleLow(a, c), DoubleLow(b, d))
  {
    hide Xor, Half, Odd;
    var s, t := Half(a), Half(b);
    HalfIsLinear(a, b);
    OddOfXor(c, d);
    XorAssoc(s, t, TERMS);
    XorAssoc(s, TERMS, t);
    XorLaws(t, TERMS);
    XorAssoc(s, TERMS, Xor(t, TERMS));
    XorAssoc(TERMS, t, TERMS);
    XorAssoc(t, TERMS, TERMS);
    XorLaws(TERMS, t);
    XorLaws(t, t);
  }

  lemma DoubleIsLinear(x: Element, y: Element)
    ensures Double(Add(x, y)) == Add(Double(x), Double(y))
  {
    hide Xor, DoubleLow, DoubleHigh;
    DoubleHighIsLinear(x.low, y.low, x.high, y.high);
    DoubleLowIsLinear(x.low, y.low, x.high, y.high);
  }

  lemma DoubleZero()
    ensures Double(ZERO) == ZERO
  {
  }

  // ----- Multiplication, bit by bit -----

  /**
   The algorithm of the standard: `bits` are the coefficients of one factor, lowest first, `v` is the other factor.
   */
  function StandardMul(bits: seq<bool>, z: Element, v: Element): Element
    decreases |bits|
  {
    if bits == [] then z else StandardMul(bits[1..], Add(z, Pick(bits[0], v)), Double(v))
  }

  /** The same product by Horner's rule. */
  function Horner(bits: seq<bool>, h: Element): Element {
    if bits == [] then ZERO else Add(Pick(bits[0], h), Double(Horner(bits[1..], h)))
  }

  lemma {:induction false} HornerOfDouble(bits: seq<bool>, h: Element)
    ensures Horner(bits, Double(h)) == Double(Horner(bits, h))
  {
    if bits == [] {
      DoubleZero();
    } else {
      HornerOfDouble(bits[1..], h);
      DoubleIsLinear(Pick(bits[0], h), Double(Horner(bits[1..], h)));
      DoubleZero();
    }
  }

  lemma {:induction false} HornerIsStandard(bits: seq<bool>, z: Element, h: Element)
    ensures StandardMul(bits, z, h) == Add(z, Horner(bits, h))
    decreases |bits|
  {
    if bits == [] {
      AddLaws(z, z);
    } else {
      HornerIsStandard(bits[1..], Add(z, Pick(bits[0], h)), Double(h));
      HornerOfDouble(bits[1..], h);
      AddAssoc(z, Pick(bits[0], h), Double(Horner(bits[1..], h)));
    }
  }

  /** The lowest `n` bits of a word, the highest of them first. */
  function WordBits(w: bv64, n: nat): (bits: seq<bool>)
    ensures |bits| == n
  {
    if n == 0 then [] else WordBits(w >> 1, n - 1) + [w & 1 == 1]
  }

  function Coefficients(y: Element): seq<bool> {
    WordBits(y.low, 64) + WordBits(y.high, 64)
  }

  function Product(y: Element, h: Element): Element {
    StandardMul(Coefficients(y), ZERO, h)
  }

  lemma HornerOne(b: bool, rest: seq<bool>, h: Element)
    ensures Horner([b] + rest, h) == Add(Pick(b, h), Double(Horner(rest, h)))
  {
    assert ([b] + rest)[1..] == rest;
  }

  // ----- Multiplication by x^4 -----

  /** What the four coefficients that are shifted out reduce to. */
  function Reduction(n: bv64): bv64 {
    (if n & 1 == 1 then 0x1c20_0000_0000_0000 else 0) ^ (if n & 2 == 2 then 0x3840_0000_0000_0000 else 0)
    ^ (if n & 4 == 4 then 0x7080_0000_0000_0000 else 0) ^ (if n & 8 == 8 then 0xe100_0000_0000_0000 else 0)
  }

  const REDUCTION_TABLE: seq<bv16> := [
    0x0000, 0x1c20, 0x3840, 0x2460, 0x7080, 0x6ca0, 0x48c0, 0x54e0,
    0xe100, 0xfd20, 0xd940, 0xc560, 0x9180, 0x8da0, 0xa9c0, 0xb5e0]

  lemma NibbleCases(n: bv64)
    requires n < 16
    ensures n == 0 || n == 1 || n == 2 || n == 3 || n == 4 || n == 5 || n == 6 || n == 7
            || n == 8 || n == 9 || n == 10 || n == 11 || n == 12 || n == 13 || n == 14 || n == 15
    ensures n as int < 16
  {
  }

  /** The lowest four bits of a word, as an index. */
  function Nibble(w: bv64): (i: nat)
    ensures i < 16
  {
    NibbleCases(w & 0xf);
    (w & 0xf) as int
  }

  lemma TableReduces(w: bv64)
    ensures (REDUCTION_TABLE[Nibble(w)] as bv64) << 48 == Reduction(w & 0xf)
  {
    NibbleCases(w & 0xf);
  }

  function SixteenHigh(low: bv64, high: bv64): bv64 {
    (high >> 4) | (low << 60)
  }

  function SixteenLow(low: bv64, high: bv64): bv64 {
    Xor(low >> 4, Reduction(high & 0xf))
  }

  function TimesSixteen(x: Element): Element {
    Element(SixteenLow(x.low, x.high), SixteenHigh(x.low, x.high))
  }

  function PickWord(b: bool, w: bv64): bv64 {
    if b then w else 0
  }

  lemma DoubleLowIs(l: bv64, h: bv64)
    ensures DoubleLow(l, h) == Xor(Half(l), PickWord(Odd(h), TERMS))
  {
    XorLaws(Half(l), TERMS);
  }

  /** The lowest bits of `high` move down, and those of `low` stay above them. */
  lemma OddHigh(l: bv64, h: bv64)
    ensures Odd(DoubleHigh(l, h)) == Odd(Half(h))
    ensures Odd(Half(DoubleHigh(l, h))) == Odd(Half(Half(h)))
    ensures Odd(Half(Half(DoubleHigh(l, h)))) == Odd(Half(Half(Half(h))))
  {
  }

  lemma HalvedTerms(b: bool, w: bv64)
    ensures Half(PickWord(b, w)) == PickWord(b, Half(w))
  {
  }

  lemma HalfOfDoubleLow(l: bv64, h: bv64)
    ensures Half(DoubleLow(l, h)) == Xor(Half(Half(l)), PickWord(Odd(h), Half(TERMS)))
  {
    hide Xor, Half, Odd, PickWord, DoubleLow;
    DoubleLowIs(l, h);
    HalfIsLinear(Half(l), PickWord(Odd(h), TERMS));
    HalvedTerms(Odd(h), TERMS);
  }

  /** Two doublings of the low word, and their halves. */
  lemma TwoDoublesLow(l: bv64, h: bv64)
    ensures DoubleLow(DoubleLow(l, h), DoubleHigh(l, h))
            == Xor(Xor(Half(Half(l)), PickWord(Odd(h), Half(TERMS))), PickWord(Odd(Half(h)), TERMS))
  {
    hide Xor, Half, Odd, PickWord, DoubleLow, DoubleHigh;
    DoubleLowIs(DoubleLow(l, h), DoubleHigh(l, h));
    HalfOfDoubleLow(l, h);
    OddHigh(l, h);
  }

  lemma FourDoublesHigh(l: bv64, h: bv64)
    ensures var h2, l2 := DoubleHigh(DoubleLow(l, h), DoubleHigh(l, h)), DoubleLow(DoubleLow(l, h), DoubleHigh(l, h));
            DoubleHigh(DoubleLow(l2, h2), DoubleHigh(l2, h2)) == SixteenHigh(l, h)
  {
  }

  lemma HalvesOf(a: bv64, b: bool, c: bool)
    ensures Half(Half(Xor(Xor(a, PickWord(b, Half(TERMS))), PickWord(c, TERMS))))
            == Xor(Xor(Half(Half(a)), PickWord(b, 0x1c20_0000_0000_0000)), PickWord(c, 0x3840_0000_0000_0000))
  {
    assert Half(Half(Half(TERMS))) == 0x1c20_0000_0000_0000 && Half(Half(TERMS)) == 0x3840_0000_0000_0000;
    hide Xor, Half, PickWord;
    var p, q := PickWord(b, Half(TERMS)), PickWord(c, TERMS);
    HalfIsLinear(Xor(a, p), q);
    HalfIsLinear(a, p);
    HalfIsLinear(Xor(Half(a), Half(p)), Half(q));
    HalfIsLinear(Half(a), Half(p));
    HalvedTerms(b, Half(TERMS));
    HalvedTerms(c, TERMS);
    HalvedTerms(b, Half(Half(TERMS)));
    HalvedTerms(c, Half(TERMS));
  }

  lemma HighBitsAfterTwo(l: bv64, h: bv64)
    ensures var h2 := DoubleHigh(DoubleLow(l, h), DoubleHigh(l, h));
            Odd(h2) == Odd(Half(Half(h))) && Odd(Half(h2)) == Odd(Half(Half(Half(h))))
  {
    hide Odd, DoubleLow, DoubleHigh;
    OddHigh(DoubleLow(l, h), DoubleHigh(l, h));
    OddHigh(l, h);
  }

  lemma FourHalves(l: bv64)
    ensures Half(Half(Half(Half(l)))) == l >> 4
  {
  }

  lemma SixteenLowIs(l: bv64, h: bv64)
    ensures SixteenLow(l, h)
            == Xor(Xor(Xor(Xor(Half(Half(Half(Half(l)))), PickWord(Odd(h), 0x1c20_0000_0000_0000)),
                           PickWord(Odd(Half(h)), 0x3840_0000_0000_0000)),
                       PickWord(Odd(Half(Half(h))), Half(TERMS))), PickWord(Odd(Half(Half(Half(h)))), TERMS))
  {
    hide Xor, Half, Odd, PickWord, Reduction;
    FourHalves(l);
    ReductionIs(h);
    var a, p, q, r, s := l >> 4, PickWord(Odd(h), 0x1c20_0000_0000_0000), PickWord(Odd(Half(h)), 0x3840_0000_0000_0000),
      PickWord(Odd(Half(Half(h))), Half(TERMS)), PickWord(Odd(Half(Half(Half(h)))), TERMS);
    XorAssoc(a, Xor(Xor(p, q), r), s);
    XorAssoc(a, Xor(p, q), r);
    XorAssoc(a, p, q);
  }

  lemma ReductionIs(h: bv64)
    ensures Reduction(h & 0xf)
            == Xor(Xor(Xor(PickWord(Odd(h), 0x1c20_0000_0000_0000), PickWord(Odd(Half(h)), 0x3840_0000_0000_0000)),
                       PickWord(Odd(Half(Half(h))), Half(TERMS))), PickWord(Odd(Half(Half(Half(h)))), TERMS))
  {
    var n := h & 0xf;
    assert n & 1 == h & 1 && n & 2 == h & 2 && n & 4 == h & 4 && n & 8 == h & 8;
    ShiftedBits(h);
  }

  lemma FourDoublesLow(l: bv64, h: bv64)
    ensures var h2, l2 := DoubleHigh(DoubleLow(l, h), DoubleHigh(l, h)), DoubleLow(DoubleLow(l, h), DoubleHigh(l, h));
            DoubleLow(DoubleLow(l2, h2), DoubleHigh(l2, h2)) == SixteenLow(l, h)
  {
    hide Xor, Half, Odd, PickWord, DoubleLow, DoubleHigh, SixteenLow;
    var h2, l2 := DoubleHigh(DoubleLow(l, h), DoubleHigh(l, h)), DoubleLow(DoubleLow(l, h), DoubleHigh(l, h));
    TwoDoublesLow(l, h);
    TwoDoublesLow(l2, h2);
    HighBitsAfterTwo(l, h);
    HalvesOf(Half(Half(l)), Odd(h), Odd(Half(h)));
    SixteenLowIs(l, h);
  }

  lemma FourDoubles(x: Element)
    ensures Double(Double(Double(Double(x)))) == TimesSixteen(x)
  {
    hide DoubleHigh, DoubleLow, SixteenHigh, SixteenLow;
    FourDoublesHigh(x.low, x.high);
    FourDoublesLow(x.low, x.high);
  }

  // ----- The table of small multiples -----

  function ReverseBits(i: nat): (r: nat)
    requires i < 16
    ensures r < 16
  {
    var j := i % 4 * 4 + i / 4;
    j / 8 * 4 + j / 4 % 2 * 8 + j / 2 % 2 + j % 2 * 2
  }

  /** The multiple of `h` by the polynomial whose coefficients are the binary digits of `k`, lowest first. */
  function Small(k: nat, h: Element): Element {
    if k == 0 then ZERO else Add(Pick(k % 2 == 1, h), Double(Small(k / 2, h)))
  }

  /** The digits of a four-bit number in reverse order. */
  lemma ReverseDigits(i: nat)
    requires i < 16
    ensures ReverseBits(i) == i % 2 * 8 + i / 2 % 2 * 4 + i / 4 % 2 * 2 + i / 8
  {
    HalvesOfNibble(i);
    Swapped(i % 2, i / 2 % 2, i / 4 % 2, i / 8, i % 4 * 4 + i / 4);
  }

  lemma HalvesOfNibble(i: nat)
    requires i < 16
    ensures i % 4 == i / 2 % 2 * 2 + i % 2 && i / 4 == i / 8 * 2 + i / 4 % 2
  {
  }

  lemma Swapped(d: nat, c: nat, b: nat, a: nat, j: nat)
    requires a < 2 && b < 2 && c < 2 && d < 2 && j == c * 8 + d * 4 + a * 2 + b
    ensures j / 8 == c && j / 4 % 2 == d && j / 2 % 2 == a && j % 2 == b
  {
  }

  lemma ReverseTwice(i: nat)
    requires i < 16
    ensures ReverseBits(ReverseBits(i)) == i
    ensures ReverseBits(i) % 2 == i / 8 && ReverseBits(i) / 2 % 2 == i / 4 % 2
    ensures ReverseBits(i) / 4 % 2 == i / 2 % 2 && ReverseBits(i) / 8 == i % 2
  {
    hide ReverseBits;
    var r := ReverseBits(i);
    ReverseDigits(i);
    ReverseDigits(r);
    DigitsOf(i % 2, i / 2 % 2, i / 4 % 2, i / 8, r);
    AllDigits(i);
  }

  lemma AllDigits(i: nat)
    requires i < 16
    ensures i == i / 8 * 8 + i / 4 % 2 * 4 + i / 2 % 2 * 2 + i % 2
  {
  }

  lemma DigitsOf(a: nat, b: nat, c: nat, d: nat, r: nat)
    requires a < 2 && b < 2 && c < 2 && d < 2 && r == a * 8 + b * 4 + c * 2 + d
    ensures r / 8 == a && r / 4 % 2 == b && r / 2 % 2 == c && r % 2 == d
  {
  }

  ghost predicate IsTable(table: seq<Element>, h: Element) {
    |table| == 16 && forall n :: 0 <= n < 16 ==> table[n] == Small(ReverseBits(n), h)
  }

  /** The entries for all numbers below `i` are there. */
  ghost predicate FilledTo(table: seq<Element>, h: Element, i: nat) {
    |table| == 16 && i <= 16 && forall k :: 0 <= k < i ==> table[ReverseBits(k)] == Small(k, h)
  }

  lemma FillOne(table: seq<Element>, h: Element, i: nat, e: Element)
    requires FilledTo(table, h, i) && i < 16 && e == Small(i, h)
    ensures FilledTo(table[ReverseBits(i) := e], h, i + 1)
  {
    hide Small, ReverseBits;
    forall k | 0 <= k < i
      ensures ReverseBits(k) != ReverseBits(i)
    {
      DistinctReversed(k, i);
    }
  }

  lemma FilledIsTable(table: seq<Element>, h: Element)
    requires FilledTo(table, h, 16)
    ensures IsTable(table, h)
  {
    hide Small, ReverseBits;
    forall n | 0 <= n < 16
      ensures table[n] == Small(ReverseBits(n), h)
    {
      ReverseTwice(n);
    }
  }

  lemma FirstEntry(h: Element)
    ensures FilledTo(seq(16, _ => ZERO), h, 1)
  {
  }

  method MakeTable(x: Element) returns (table: array<Element>)
    ensures fresh(table) && IsTable(table[..], x)
  {
    hide Add, Double, ReverseBits, Small, FilledTo, IsTable;
    table := new Element[16](_ => ZERO);
    assert table[..] == seq(16, _ => ZERO);
    FirstEntry(x);
    SmallCases(0, x);
    FillOne(table[..], x, 1, x);
    table[ReverseBits(1)] := x;
    var i := 2;
    while i < 16
      invariant 2 <= i <= 16 && i % 2 == 0
      invariant FilledTo(table[..], x, i)
    {
      SmallCases(i, x);
      Entry(table[..], x, i, i / 2);
      FillOne(table[..], x, i, Small(i, x));
      table[ReverseBits(i)] := Double(table[ReverseBits(i / 2)]);
      FillOne(table[..], x, i + 1, Small(i + 1, x));
      table[ReverseBits(i + 1)] := Add(table[ReverseBits(i)], x);
      i := i + 2;
    }
    FilledIsTable(table[..], x);
  }

  lemma Entry(table: seq<Element>, h: Element, i: nat, k: nat)
    requires FilledTo(table, h, i) && k < i
    ensures table[ReverseBits(k)] == Small(k, h)
  {
  }

  lemma DistinctReversed(i: nat, k: nat)
    requires i < 16 && k < 16 && i != k
    ensures ReverseBits(i) != ReverseBits(k)
  {
    ReverseTwice(i);
    ReverseTwice(k);
  }

  lemma SmallCases(i: nat, h: Element)
    requires i % 2 == 0
    ensures Small(i, h) == Double(Small(i / 2, h)) && Small(i + 1, h) == Add(Small(i, h), h)
    ensures Small(0, h) == ZERO && Small(1, h) == h
  {
    hide Add, Double;
    DoubleZero();
    AddLaws(h, ZERO);
    AddLaws(Double(Small(i / 2, h)), h);
    assert (i + 1) / 2 == i / 2 && Small(0, h) == ZERO;
    assert Small(1, h) == Add(h, Double(Small(0, h)));
  }

  /** Four more coefficients by Horner's rule: one multiplication by x^4 and one small multiple. */
  lemma HornerFour(a: bool, b: bool, c: bool, d: bool, rest: seq<bool>, h: Element)
    ensures Horner([a, b, c, d] + rest, h)
            == Add(TimesSixteen(Horner(rest, h)),
                   Add(Pick(a, h), Double(Add(Pick(b, h), Double(Add(Pick(c, h), Double(Pick(d, h))))))))
  {
    hide Add, Double, TimesSixteen, Pick;
    var z := Horner(rest, h);
    var (p, q, r, s) := (Pick(a, h), Pick(b, h), Pick(c, h), Pick(d, h));
    assert [a, b, c, d] + rest == [a] + ([b] + ([c] + ([d] + rest)));
    HornerOne(a, [b] + ([c] + ([d] + rest)), h);
    HornerOne(b, [c] + ([d] + rest), h);
    HornerOne(c, [d] + rest, h);
    HornerOne(d, rest, h);
    PullOut(s, Double(z), ZERO);
    var z1 := Double(z);
    PullOut(r, s, z1);
    var z2 := Double(z1);
    PullOut(q, Add(r, Double(s)), z2);
    var z3 := Double(z2);
    PullOut(p, Add(q, Double(Add(r, Double(s)))), z3);
    FourDoubles(z);
    AddLaws(Add(p, Double(Add(q, Double(Add(r, Double(s)))))), TimesSixteen(z));
  }

  lemma PullOut(p: Element, q: Element, z: Element)
    ensures Add(p, Double(Add(q, z))) == Add(Add(p, Double(q)), Double(z))
  {
    hide Add, Double;
    DoubleIsLinear(q, z);
    AddAssoc(p, Double(q), Double(z));
  }

  // ----- Multiplication with the tables -----

  lemma FourBits(w: bv64, n: nat)
    requires n >= 4
    ensures WordBits(w, n) == WordBits(w >> 4, n - 4) + [w & 8 == 8, w & 4 == 4, w & 2 == 2, w & 1 == 1]
  {
    ShiftedBits(w);
    assert WordBits(w, n) == WordBits(w >> 1, n - 1) + [w & 1 == 1];
    assert WordBits(w >> 1, n - 1) == WordBits(w >> 1 >> 1, n - 2) + [(w >> 1) & 1 == 1];
    assert WordBits(w >> 1 >> 1, n - 2) == WordBits(w >> 1 >> 1 >> 1, n - 3) + [(w >> 1 >> 1) & 1 == 1];
    assert WordBits(w >> 1 >> 1 >> 1, n - 3) == WordBits(w >> 1 >> 1 >> 1 >> 1, n - 4) + [(w >> 1 >> 1 >> 1) & 1 == 1];
  }

  lemma ShiftedBits(w: bv64)
    ensures w >> 1 >> 1 >> 1 >> 1 == w >> 4
    ensures (w >> 1) & 1 == 1 <==> w & 2 == 2
    ensures (w >> 1 >> 1) & 1 == 1 <==> w & 4 == 4
    ensures (w >> 1 >> 1 >> 1) & 1 == 1 <==> w & 8 == 8
  {
  }

  lemma NibbleBits(w: bv64)
    ensures w & 8 == 8 <==> Nibble(w) / 8 == 1
    ensures w & 4 == 4 <==> Nibble(w) / 4 % 2 == 1
    ensures w & 2 == 2 <==> Nibble(w) / 2 % 2 == 1
    ensures w & 1 == 1 <==> Nibble(w) % 2 == 1
  {
    var n := w & 0xf;
    assert w & 8 == n & 8 && w & 4 == n & 4 && w & 2 == n & 2 && w & 1 == n & 1;
    NibbleCases(n);
  }

  lemma SmallStep(k: nat, h: Element)
    ensures Small(k, h) == Add(Pick(k % 2 == 1, h), Double(Small(k / 2, h)))
  {
    if k == 0 {
      DoubleZero();
      AddLaws(ZERO, ZERO);
    }
  }

  lemma SmallFour(k: nat, h: Element)
    requires k < 16
    ensures Small(k, h)
            == Add(Pick(k % 2 == 1, h),
                   Double(Add(Pick(k / 2 % 2 == 1, h),
                              Double(Add(Pick(k / 4 % 2 == 1, h), Double(Pick(k / 8 == 1, h)))))))
  {
    hide Add, Double;
    var e := k / 8;
    assert k / 2 / 2 == k / 4 && k / 4 / 2 == e && e / 2 == 0 && e % 2 == e;
    SmallStep(k, h);
    SmallStep(k / 2, h);
    SmallStep(k / 4, h);
    SmallStep(e, h);
    DoubleZero();
    AddLaws(Pick(e == 1, h), ZERO);
  }

  /** Shift by four coefficients and reduce with the table. */
  function Shifted(z: Element): Element {
    Element(Xor(z.low >> 4, (REDUCTION_TABLE[Nibble(z.high)] as bv64) << 48), (z.high >> 4) | (z.low << 60))
  }

  lemma ShiftedIsTimesSixteen(z: Element)
    ensures Shifted(z) == TimesSixteen(z)
  {
    hide Xor, Nibble, Reduction;
    TableReduces(z.high);
  }

  /** The lowest four bits of a word, the highest of them first. */
  function FourOf(w: bv64): seq<bool> {
    [w & 8 == 8, w & 4 == 4, w & 2 == 2, w & 1 == 1]
  }

  lemma EntryIsMultiple(word: bv64, h: Element, table: seq<Element>)
    requires IsTable(table, h)
    ensures table[Nibble(word)]
            == Add(Pick(word & 8 == 8, h),
                   Double(Add(Pick(word & 4 == 4, h),
                              Double(Add(Pick(word & 2 == 2, h), Double(Pick(word & 1 == 1, h)))))))
  {
    hide Add, Double, ReverseBits, Small;
    var n := Nibble(word);
    assert table[n] == Small(ReverseBits(n), h);
    SmallFour(ReverseBits(n), h);
    ReverseTwice(n);
    NibbleBits(word);
  }

  /** One round of the multiplication is four steps of Horner's rule. */
  lemma RoundIsRight(word: bv64, h: Element, table: seq<Element>, rest: seq<bool>)
    requires IsTable(table, h)
    ensures Add(Shifted(Horner(rest, h)), table[Nibble(word)]) == Horner(FourOf(word) + rest, h)
  {
    hide Add, Double, Small, ReverseBits, Horner, Shifted, TimesSixteen, Pick, Nibble;
    ShiftedIsTimesSixteen(Horner(rest, h));
    EntryIsMultiple(word, h, table);
    HornerFour(word & 8 == 8, word & 4 == 4, word & 2 == 2, word & 1 == 1, rest, h);
  }

  lemma FourBitsMore(w: bv64, n: nat, done: seq<bool>)
    requires n >= 4
    ensures WordBits(w, n) + done == WordBits(w >> 4, n - 4) + (FourOf(w) + done)
  {
    FourBits(w, n);
  }

  lemma NoBits(w: bv64, done: seq<bool>)
    ensures WordBits(w, 0) + done == done
  {
  }

  /** Multiply by x^64 and add the multiple for one word. */
  method MulWord(table: array<Element>, word: bv64, z: Element, ghost h: Element, ghost rest: seq<bool>)
      returns (r: Element)
    requires IsTable(table[..], h) && z == Horner(rest, h)
    ensures r == Horner(WordBits(word, 64) + rest, h)
  {
    hide Add, Small, ReverseBits, Horner, Shifted, WordBits, Nibble, FourOf;
    r := z;
    var w, j := word, 0;
    ghost var done := rest;
    while j < 64
      invariant 0 <= j <= 64 && j % 4 == 0
      invariant r == Horner(done, h)
      invariant WordBits(word, 64) + rest == WordBits(w, 64 - j) + done
    {
      RoundIsRight(w, h, table[..], done);
      FourBitsMore(w, 64 - j, done);
      r := Add(Shifted(r), table[Nibble(w)]);
      done := FourOf(w) + done;
      w := w >> 4;
      j := j + 4;
    }
    NoBits(w, done);
  }

  /** The product of `y` and the element the table was made for. */
  method Mul(table: array<Element>, y: Element, ghost h: Element) returns (z: Element)
    requires IsTable(table[..], h)
    ensures z == Product(y, h)
  {
    z := ZERO;
    ghost var done: seq<bool> := [];
    for i := 0 to 2
      invariant z == Horner(done, h)
      invariant done == if i == 0 then [] else if i == 1 then WordBits(y.high, 64) + []
                else WordBits(y.low, 64) + (WordBits(y.high, 64) + [])
    {
      var word := y.high;
      if i == 1 {
        word := y.low;
      }
      z := MulWord(table, word, z, h, done);
      done := WordBits(word, 64) + done;
    }
    assert done == Coefficients(y);
    HornerIsStandard(done, ZERO, h);
    AddLaws(z, ZERO);
  }
}
