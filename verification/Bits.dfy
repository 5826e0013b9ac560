/** Bytes as binary and as big-endian numbers. */
module Bits {
  import opened Wire

  function Pow(base: nat, n: nat): (p: nat)
    requires base > 0
    ensures p > 0
  {
    if n == 0 then 1 else base * Pow(base, n - 1)
  }

  /** Exclusive or, binary digit by binary digit. */
  function Xor(a: nat, b: nat): nat {
    if a == 0 && b == 0 then 0 else (a + b) % 2 + 2 * Xor(a / 2, b / 2)
  }

  lemma {:induction false} XorBound(a: nat, b: nat, n: nat)
    requires a < Pow(2, n) && b < Pow(2, n)
    ensures Xor(a, b) < Pow(2, n)
  {
    if n > 0 {
      XorBound(a / 2, b / 2, n - 1);
    }
  }

  lemma {:induction false} XorParts(a: nat, b: nat)
    ensures Xor(a, b) % 2 == (a + b) % 2 && Xor(a, b) / 2 == Xor(a / 2, b / 2)
  {
    var d, q := (a + b) % 2, Xor(a / 2, b / 2);
    assert Xor(a, b) == d + 2 * q;
  }

  lemma SameParts(a: nat, b: nat)
    requires a % 2 == b % 2 && a / 2 == b / 2
    ensures a == b
  {
  }

  lemma SumParity(a: nat, b: nat, c: nat, p: nat, q: nat)
    requires p % 2 == (a + b) % 2 && q % 2 == (b + c) % 2
    ensures (p + c) % 2 == (a + q) % 2
  {
  }

  lemma {:induction false} XorAssoc(a: nat, b: nat, c: nat)
    ensures Xor(Xor(a, b), c) == Xor(a, Xor(b, c))
    decreases a + b + c
  {
    if a + b + c == 0 {
      assert Xor(0, 0) == 0;
    } else {
      XorAssoc(a / 2, b / 2, c / 2);
      XorAssocStep(a, b, c);
    }
  }

  lemma XorAssocStep(a: nat, b: nat, c: nat)
    requires Xor(Xor(a / 2, b / 2), c / 2) == Xor(a / 2, Xor(b / 2, c / 2))
    ensures Xor(Xor(a, b), c) == Xor(a, Xor(b, c))
  {
    hide Xor;
    var p, q := Xor(a, b), Xor(b, c);
    XorParts(a, b);
    XorParts(b, c);
    XorParts(p, c);
    XorParts(a, q);
    SumParity(a, b, c, p, q);
    SameParts(Xor(p, c), Xor(a, q));
  }

  lemma {:induction false} XorZero(a: nat)
    ensures Xor(a, 0) == a && Xor(0, a) == a
  {
    if a > 0 {
      XorZero(a / 2);
    }
  }

  lemma {:induction false} XorSelf(a: nat)
    ensures Xor(a, a) == 0
  {
    if a > 0 {
      XorSelf(a / 2);
    }
  }

  function XorByte(a: byte, b: byte): byte {
    assert Pow(2, 8) == 256 by {
      assert Pow(2, 4) == 16;
    }
    XorBound(a, b, 8);
    Xor(a, b)
  }

  /** Taking the same value out again. */
  lemma XorTwice(a: byte, b: byte)
    ensures XorByte(XorByte(a, b), b) == a
  {
    XorAssoc(a, b, b);
    XorSelf(b);
    XorZero(a);
  }

  /** Exchanging `b` for `c` in an exclusive or. */
  lemma XorExchange(a: byte, b: byte, c: byte)
    ensures XorByte(XorByte(a, b), XorByte(b, c)) == XorByte(a, c)
  {
    XorAssoc(XorByte(a, b), b, c);
    XorTwice(a, b);
  }

  lemma XorCancels(a: byte, b: byte, c: byte)
    requires XorByte(a, b) == XorByte(a, c)
    ensures b == c
  {
    XorAssoc(a, a, b);
    XorAssoc(a, a, c);
    XorSelf(a);
    XorZero(b);
    XorZero(c);
  }

  function XorAll(a: seq<byte>, b: seq<byte>): (r: seq<byte>)
    requires |a| == |b|
    ensures |r| == |a| && forall i :: 0 <= i < |a| ==> r[i] == XorByte(a[i], b[i])
  {
    seq(|a|, i requires 0 <= i < |a| => XorByte(a[i], b[i]))
  }

  lemma XorAllCancels(a: seq<byte>, b: seq<byte>, c: seq<byte>)
    requires |a| == |b| == |c| && XorAll(a, b) == XorAll(a, c)
    ensures b == c
  {
    forall i | 0 <= i < |a|
      ensures b[i] == c[i]
    {
      assert XorAll(a, b)[i] == XorAll(a, c)[i];
      XorCancels(a[i], b[i], c[i]);
    }
  }

  // ----- Big-endian numbers -----

  /** The low `n` bytes of `k`, highest first. */
  function BigEndian(k: nat, n: nat): (s: seq<byte>)
    ensures |s| == n
  {
    if n == 0 then [] else BigEndian(k / 256, n - 1) + [k % 256]
  }

  function Value(s: seq<byte>): nat {
    if s == [] then 0 else Value(s[..|s| - 1]) * 256 + s[|s| - 1]
  }

  lemma {:induction false} BigEndianValue(k: nat, n: nat)
    requires k < Pow(256, n)
    ensures Value(BigEndian(k, n)) == k
  {
    if n > 0 {
      assert BigEndian(k, n)[..n - 1] == BigEndian(k / 256, n - 1);
      BigEndianValue(k / 256, n - 1);
    }
  }

  lemma {:induction false} PowGrows(base: nat, m: nat, n: nat)
    requires base > 0 && m <= n
    ensures Pow(base, m) <= Pow(base, n)
    decreases n
  {
    if m < n {
      PowGrows(base, m, n - 1);
    }
  }

  /** Counting up: the last byte that is not full goes up by one, and those behind it start again. */
  function Increment(s: seq<byte>): (r: seq<byte>)
    ensures |r| == |s|
  {
    if s == [] then []
    else
      var n := |s| - 1;
      if s[n] < 255 then s[..n] + [s[n] + 1] else Increment(s[..n]) + [0]
  }

  lemma {:induction false} IncrementCounts(k: nat, n: nat)
    ensures Increment(BigEndian(k, n)) == BigEndian(k + 1, n)
  {
    if n > 0 {
      IncrementCounts(k / 256, n - 1);
      assert BigEndian(k, n)[..n - 1] == BigEndian(k / 256, n - 1);
      if k % 256 == 255 {
        assert (k + 1) / 256 == k / 256 + 1 && (k + 1) % 256 == 0;
      } else {
        assert (k + 1) / 256 == k / 256 && (k + 1) % 256 == k % 256 + 1;
      }
    }
  }

  lemma {:induction false} IncrementAt(s: seq<byte>, i: nat)
    requires i < |s| && s[i] < 255 && forall j :: i < j < |s| ==> s[j] == 255
    ensures Increment(s) == s[..i] + [s[i] + 1] + seq(|s| - i - 1, _ => 0)
    decreases |s|
  {
    var n := |s| - 1;
    if i < n {
      IncrementAt(s[..n], i);
      assert s[..n][..i] == s[..i];
      assert seq(|s| - i - 1, _ => 0) == seq(n - i - 1, _ => 0) + [0];
    } else {
      assert s[..i] + [s[i] + 1] + [] == s[..i] + [s[i] + 1];
    }
  }

  ghost predicate Full(s: seq<byte>, m: nat) {
    forall j :: |s| - m <= j < |s| && 0 <= j ==> s[j] == 255
  }

  /** The last `m` bytes of a number are full just before a carry passes all of them. */
  lemma {:induction false} FullIff(k: nat, n: nat, m: nat)
    requires m <= n
    ensures Full(BigEndian(k, n), m) <==> (k + 1) % Pow(256, m) == 0
  {
    if m > 0 {
      var s, front, p := BigEndian(k, n), BigEndian(k / 256, n - 1), Pow(256, m - 1);
      FullIff(k / 256, n - 1, m - 1);
      assert s == front + [k % 256];
      assert Full(s, m) <==> k % 256 == 255 && Full(front, m - 1) by {
        assert s[n - 1] == k % 256;
        assert forall j :: 0 <= j < n - 1 ==> s[j] == front[j];
      }
      assert Pow(256, m) == 256 * p;
      CarryIff(k, p);
    }
  }

  lemma CarryIff(k: nat, p: nat)
    requires p > 0
    ensures (k + 1) % (256 * p) == 0 <==> k % 256 == 255 && (k / 256 + 1) % p == 0
  {
    var q, m := k / 256 + 1, 256 * p;
    if k % 256 == 255 {
      MultipleIff(q, p);
      assert k + 1 == 256 * q;
    } else {
      NotBeforeFull(k, p);
    }
  }

  lemma NotBeforeFull(k: nat, p: nat)
    requires p > 0 && k % 256 != 255
    ensures (k + 1) % (256 * p) != 0
  {
    if (k + 1) % (256 * p) == 0 {
      MultipleOfPart(k + 1, 256, p);
      assert false;
    }
  }

  lemma MultipleOfPart(x: nat, a: nat, p: nat)
    requires a > 0 && p > 0 && x % (a * p) == 0
    ensures x % a == 0
  {
    var t := x / (a * p);
    assert x == (a * p) * t == a * (p * t) + 0;
    RemainderIs(x, a, p * t, 0);
  }

  lemma MultipleIff(q: nat, p: nat)
    requires p > 0
    ensures (256 * q) % (256 * p) == 0 <==> q % p == 0
  {
    var t := q / p;
    assert q == p * t + q % p;
    assert 256 * q == (256 * p) * t + 256 * (q % p);
    RemainderIs(256 * q, 256 * p, t, 256 * (q % p));
  }

  lemma RemainderIs(a: nat, b: nat, t: nat, r: nat)
    requires b > 0 && a == b * t + r && r < b
    ensures a % b == r
  {
    var d := a / b - t;
    assert b * (a / b) == b * t + b * d;
    assert b * d == r - a % b;
    AtLeast(b, d);
    AtLeast(b, -d);
    assert b * -d == -(b * d);
  }

  lemma AtLeast(b: nat, d: int)
    ensures d >= 1 ==> b * d >= b
  {
  }
}
