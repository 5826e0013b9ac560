/** Sequences without duplicates. */
module Sequences {
  ghost predicate Distinct<K>(s: seq<K>) {
    forall i, j :: 0 <= i < j < |s| ==> s[i] != s[j]
  }

  function IndexOf<K(==)>(s: seq<K>, k: K): (i: nat)
    requires k in s
    ensures i < |s| && s[i] == k
  {
    if s[0] == k then 0 else 1 + IndexOf(s[1..], k)
  }

  function Without<K(==)>(s: seq<K>, k: K): seq<K> {
    if k in s then var i := IndexOf(s, k); s[..i] + s[i + 1..] else s
  }

  lemma WithoutIs<K>(s: seq<K>, k: K)
    requires Distinct(s)
    ensures Distinct(Without(s, k)) && k !in Without(s, k)
    ensures forall x :: x in Without(s, k) <==> x in s && x != k
    ensures |Without(s, k)| == if k in s then |s| - 1 else |s|
  {
    if k in s {
      var i := IndexOf(s, k);
      var t := s[..i] + s[i + 1..];
      assert forall j :: 0 <= j < |t| ==> t[j] == s[if j < i then j else j + 1];
      forall x | x in s && x != k ensures x in t {
        var j :| 0 <= j < |s| && s[j] == x;
        assert t[if j < i then j else j - 1] == x;
      }
    }
  }

  /** A sequence without duplicates is as long as the set of its elements is large. */
  lemma {:induction false} DistinctSize<T>(s: seq<T>, all: set<T>)
    requires Distinct(s) && forall x :: x in s <==> x in all
    ensures |all| == |s|
  {
    if s == [] {
      assert all == {};
    } else {
      var n := |s| - 1;
      var t, rest := s[..n], all - {s[n]};
      assert forall x :: x in rest ==> x in t by {
        forall x | x in rest ensures x in t {
          var i :| 0 <= i < |s| && s[i] == x;
          assert t[i] == x;
        }
      }
      assert forall x :: x in t ==> x in rest;
      DistinctSize(t, rest);
    }
  }
}
