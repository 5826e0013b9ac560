/**
 The 128-bit FNV-1a hash, computed in four limbs of 32 bits, the last of which is not reduced. Powers
 of 2^32 are written out as numbers, so that products with them stay linear.
 */
module Fnv128 {
  import opened Wire
  import opened Bits

  const OFFSET: nat := 0x6C62_272E_07BB_0142_62B8_2175_6295_C58D

  // ----- The hash -----

  /** The prime is 2^88 + 0x13B. */
  function Step(h: nat, b: byte): nat {
    Xor(h, b) * 0x100_0000_0000_0000_0000_013B % 0x1_0000_0000_0000_0000_0000_0000_0000_0000
  }

  function Hash(h: nat, data: seq<byte>): nat {
    if data == [] then h else Step(Hash(h, data[..|data| - 1]), data[|data| - 1])
  }

  /** Hashing in parts is hashing the whole. */
  lemma {:induction false} HashInParts(h: nat, a: seq<byte>, b: seq<byte>)
    ensures Hash(h, a + b) == Hash(Hash(h, a), b)
  {
    if b == [] {
      assert a + b == a;
    } else {
      assert (a + b)[..|a + b| - 1] == a + b[..|b| - 1];
      HashInParts(h, a, b[..|b| - 1]);
    }
  }

  // ----- Limbs -----

  function Limbs(v0: nat, v1: nat, v2: nat, v3: nat): nat {
    v0 + 0x1_0000_0000 * v1 + 0x1_0000_0000_0000_0000 * v2 + 0x1_0000_0000_0000_0000_0000_0000 * v3
  }

  /** The last limb counts only up to multiples of 2^128. */
  function ValueOf(v0: nat, v1: nat, v2: nat, v3: nat): nat {
    Limbs(v0, v1, v2, Low(v3))
  }

  /** `high` with `n` binary zeros behind it. */
  function Doubled(high: nat, n: nat): nat {
    if n == 0 then high else 2 * Doubled(high, n - 1)
  }

  lemma TwiceProduct(p: nat, q: nat)
    ensures 2 * (p * q) == 2 * p * q
  {
  }

  lemma {:induction false} DoubledIs(high: nat, n: nat)
    ensures Doubled(high, n) == Pow(2, n) * high
  {
    if n > 0 {
      DoubledIs(high, n - 1);
      TwiceProduct(Pow(2, n - 1), high);
    }
  }

  lemma {:induction false} XorLow(a: nat, high: nat, b: nat, n: nat)
    requires a < Pow(2, n) && b < Pow(2, n)
    ensures Xor(a + Doubled(high, n), b) == Xor(a, b) + Doubled(high, n)
  {
    if n == 0 {
      XorZero(high);
    } else {
      var x := a + Doubled(high, n);
      assert x / 2 == a / 2 + Doubled(high, n - 1) && x % 2 == a % 2;
      XorLow(a / 2, high, b / 2, n - 1);
      XorParts(x, b);
      XorParts(a, b);
      SumParity2(x, a, b);
    }
  }

  lemma SumParity2(x: nat, a: nat, b: nat)
    requires x % 2 == a % 2
    ensures (x + b) % 2 == (a + b) % 2
  {
  }

  lemma Pow32()
    ensures Pow(2, 32) == 0x1_0000_0000
  {
    assert Pow(2, 8) == 0x100;
    assert Pow(2, 16) == 0x1_0000;
    assert Pow(2, 24) == 0x100_0000;
  }

  /** The byte changes only the first limb. */
  lemma XorFirst(v0: nat, v1: nat, v2: nat, v3: nat, b: byte)
    requires v0 < 0x1_0000_0000
    ensures Xor(ValueOf(v0, v1, v2, v3), b) == ValueOf(Xor(v0, b), v1, v2, v3) && Xor(v0, b) < 0x1_0000_0000
  {
    Pow32();
    var high := v1 + 0x1_0000_0000 * v2 + 0x1_0000_0000_0000_0000 * Low(v3);
    XorBound(v0, b, 32);
    XorLow(v0, high, b, 32);
    DoubledIs(high, 32);
    hide Xor, Pow, Doubled;
    assert ValueOf(v0, v1, v2, v3) == v0 + 0x1_0000_0000 * high;
  }

  // ----- Words of 64 bits -----

  function Wrap(x: nat): nat {
    x % 0x1_0000_0000_0000_0000
  }

  function Low(x: nat): nat {
    x % 0x1_0000_0000
  }

  function High(x: nat): nat {
    x / 0x1_0000_0000
  }

  lemma WrapSmall(x: nat)
    requires x < 0x1_0000_0000_0000_0000
    ensures Wrap(x) == x
  {
  }

  lemma Halves(t: nat)
    ensures t == Low(t) + 0x1_0000_0000 * High(t) && Low(t) < 0x1_0000_0000 && High(t) <= t
  {
  }

  lemma WrapSums(x: nat, y: nat, z: nat)
    ensures Wrap(Wrap(Wrap(x) + Wrap(y)) + z) == Wrap(x + y + z) < 0x1_0000_0000_0000_0000
  {
    var p, q, r := x / 0x1_0000_0000_0000_0000, y / 0x1_0000_0000_0000_0000,
                   (Wrap(x) + Wrap(y)) / 0x1_0000_0000_0000_0000;
    assert x + y + z == Wrap(Wrap(x) + Wrap(y)) + z + 0x1_0000_0000_0000_0000 * (p + q + r);
  }

  lemma Reduce(v0: nat, v1: nat, v2: nat, v3: nat, k: nat)
    requires v0 < 0x1_0000_0000 && v1 < 0x1_0000_0000 && v2 < 0x1_0000_0000 && v3 < 0x1_0000_0000
    ensures (Limbs(v0, v1, v2, v3)
             + 0x1_0000_0000_0000_0000_0000_0000_0000_0000 * k) % 0x1_0000_0000_0000_0000_0000_0000_0000_0000
         == Limbs(v0, v1, v2, v3)
  {
  }

  lemma LowOfWrap(x: nat)
    ensures Low(Wrap(x)) == Low(x)
  {
    var q := x / 0x1_0000_0000_0000_0000;
    AddMultiple(Wrap(x), 0x1_0000_0000 * q);
  }

  lemma AddMultiple(y: nat, z: nat)
    ensures Low(y + 0x1_0000_0000 * z) == Low(y)
  {
  }

  /** The last limb may overflow: only its remainder matters. */
  lemma LastLimb(v3: nat, rest: nat)
    ensures Low(Wrap(v3 * 0x13B + rest)) == Low(Low(v3) * 0x13B + rest)
  {
    hide Low, Wrap, High;
    LowOfWrap(v3 * 0x13B + rest);
    Halves(v3);
    AddMultiple(Low(v3) * 0x13B + rest, High(v3) * 0x13B);
  }

  /** The product with the prime, when each limb is split into what stays and what is carried. */
  lemma Product(v0: nat, v1: nat, v2: nat, v3: nat, l0: nat, h0: nat, l1: nat, h1: nat, l2: nat, h2: nat, l3: nat,
                h3: nat)
    requires v0 * 0x13B == l0 + 0x1_0000_0000 * h0
    requires v1 * 0x13B + h0 == l1 + 0x1_0000_0000 * h1
    requires v2 * 0x13B + v0 * 0x100_0000 + h1 == l2 + 0x1_0000_0000 * h2
    requires v3 * 0x13B + v1 * 0x100_0000 + h2 == l3 + 0x1_0000_0000 * h3
    ensures Limbs(v0, v1, v2, v3) * 0x100_0000_0000_0000_0000_013B
         == Limbs(l0, l1, l2, l3)
            + 0x1_0000_0000_0000_0000_0000_0000_0000_0000 * (h3 + v2 * 0x100_0000 + 0x100_0000_0000_0000 * v3)
  {
  }

  /** Multiplying by the prime limb by limb, with the carries. */
  lemma MulStep(v0: nat, v1: nat, v2: nat, v3: nat)
    requires v0 < 0x1_0000_0000 && v1 < 0x1_0000_0000 && v2 < 0x1_0000_0000
    ensures var t0 := v0 * 0x13B;
            var t1 := v1 * 0x13B + High(t0);
            var t2 := v2 * 0x13B + v0 * 0x100_0000 + High(t1);
            var t3 := Wrap(v3 * 0x13B + v1 * 0x100_0000 + High(t2));
            ValueOf(Low(t0), Low(t1), Low(t2), t3)
                == ValueOf(v0, v1, v2,
                           v3) * 0x100_0000_0000_0000_0000_013B % 0x1_0000_0000_0000_0000_0000_0000_0000_0000
  {
    hide Low, High, Wrap, Limbs;
    var t0 := v0 * 0x13B;
    var t1 := v1 * 0x13B + High(t0);
    var t2 := v2 * 0x13B + v0 * 0x100_0000 + High(t1);
    var w := Low(v3);
    var x := w * 0x13B + v1 * 0x100_0000 + High(t2);
    LastLimb(v3, v1 * 0x100_0000 + High(t2));
    Halves(t0);
    Halves(t1);
    Halves(t2);
    Halves(x);
    Product(v0, v1, v2, w, Low(t0), High(t0), Low(t1), High(t1), Low(t2), High(t2), Low(x), High(x));
    Reduce(Low(t0), Low(t1), Low(t2), Low(x), High(x) + v2 * 0x100_0000 + 0x100_0000_0000_0000 * w);
  }

  class Sum128a {
    var v0: nat
    var v1: nat
    var v2: nat
    var v3: nat

    constructor ()
      ensures Valid() && Value() == OFFSET
    {
      v0, v1, v2, v3 := 0x6295_C58D, 0x62B8_2175, 0x07BB_0142, 0x6C62_272E;
    }

    ghost predicate Valid()
      reads this
    {
      v0 < 0x1_0000_0000 && v1 < 0x1_0000_0000 && v2 < 0x1_0000_0000 && v3 < 0x1_0000_0000_0000_0000
    }

    ghost function Value(): nat
      reads this
    {
      ValueOf(v0, v1, v2, v3)
    }

    /** The two halves of the hash. */
    method Sum128() returns (high: nat, low: nat)
      requires Valid()
      ensures high < 0x1_0000_0000_0000_0000 && low < 0x1_0000_0000_0000_0000
              && high * 0x1_0000_0000_0000_0000 + low == Value()
    {
      high := Wrap(v3 * 0x1_0000_0000) + v2;
      low := v1 * 0x1_0000_0000 + v0;
      assert Wrap(v3 * 0x1_0000_0000) == Low(v3) * 0x1_0000_0000;
    }

    /** Multiply by the prime, in words of 64 bits. */
    method Multiply()
      requires Valid()
      modifies this
      ensures Valid() && Value()
              == old(Value()) * 0x100_0000_0000_0000_0000_013B % 0x1_0000_0000_0000_0000_0000_0000_0000_0000
    {
      hide ValueOf, Low, High, Wrap;
      MulStep(v0, v1, v2, v3);
      WrapSmall(v0 * 0x13B);
      WrapSmall(v1 * 0x13B);
      WrapSmall(v2 * 0x13B);
      WrapSmall(v0 * 0x100_0000);
      WrapSmall(v2 * 0x13B + v0 * 0x100_0000);
      var t0 := Wrap(v0 * 0x13B);
      var t1 := Wrap(v1 * 0x13B);
      var t2 := Wrap(Wrap(v2 * 0x13B) + Wrap(v0 * 0x100_0000));
      var t3 := Wrap(Wrap(v3 * 0x13B) + Wrap(v1 * 0x100_0000));
      Halves(t0);
      WrapSmall(t1 + High(t0));
      t1 := Wrap(t1 + High(t0));
      Halves(t1);
      WrapSmall(t2 + High(t1));
      t2 := Wrap(t2 + High(t1));
      Halves(t2);
      WrapSums(v3 * 0x13B, v1 * 0x100_0000, High(t2));
      t3 := Wrap(t3 + High(t2));
      v0, v1, v2, v3 := Low(t0), Low(t1), Low(t2), t3;
    }

    method Write(data: seq<byte>) returns (n: nat)
      requires Valid()
      modifies this
      ensures Valid() && Value() == Hash(old(Value()), data) && n == |data|
    {
      hide Xor, ValueOf;
      var i := 0;
      while i < |data|
        invariant 0 <= i <= |data| && Valid() && Value() == Hash(old(Value()), data[..i])
      {
        XorFirst(v0, v1, v2, v3, data[i]);
        v0 := Xor(v0, data[i]);
        Multiply();
        assert data[..i + 1][..i] == data[..i];
        i := i + 1;
      }
      assert data[..|data|] == data;
      return i;
    }
  }
}
