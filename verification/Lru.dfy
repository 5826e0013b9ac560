/** A least-recently-used list with a bounded number of entries. */
module Lru {
  import opened CacheOps
  import opened Sequences
  import opened Wrappers

  /** The keys from the oldest to the newest, and their values. */
  datatype List<K(==), V> = List(order: seq<K>, items: map<K, V>)

  ghost predicate Valid<K, V>(l: List<K, V>) {
    Distinct(l.order) && (forall k :: k in l.order ==> k in l.items) && forall k :: k in l.items ==> k in l.order
  }

  function Empty<K, V>(): List<K, V> {
    List([], map[])
  }

  function Drop<K, V>(l: List<K, V>, k: K): List<K, V> {
    List(Without(l.order, k), l.items - {k})
  }

  function DropOldest<K, V>(l: List<K, V>): List<K, V> {
    if l.order == [] then l else Drop(l, l.order[0])
  }

  /** Make a key the newest one, and forget the oldest one if there are too many. */
  function Put<K, V>(l: List<K, V>, size: nat, k: K, v: V): List<K, V> {
    var l' := List(Without(l.order, k) + [k], l.items[k := v]);
    if |l'.order| > size then DropOldest(l') else l'
  }

  lemma DropIs<K, V>(l: List<K, V>, k: K)
    requires Valid(l)
    ensures Valid(Drop(l, k)) && |Drop(l, k).order| == if k in l.items then |l.order| - 1 else |l.order|
  {
    WithoutIs(l.order, k);
  }

  lemma DropOldestIs<K, V>(l: List<K, V>)
    requires Valid(l)
    ensures Valid(DropOldest(l)) && |DropOldest(l).order| == if l.order == [] then 0 else |l.order| - 1
    ensures if l.order == [] then DropOldest(l) == l
            else l.order[0] in l.items && DropOldest(l).items == l.items - {l.order[0]}
  {
    if l.order != [] {
      DropIs(l, l.order[0]);
    }
  }

  /** The new entry is there; at most one other entry has gone, and only if the list was full. */
  lemma PutIs<K, V>(l: List<K, V>, size: nat, k: K, v: V)
    requires Valid(l) && 0 < size && |l.order| <= size
    ensures var p := Put(l, size, k, v);
            && Valid(p) && |p.order| <= size
            && k in p.items && p.items[k] == v
            && (forall x :: x in p.items && x != k ==> x in l.items && p.items[x] == l.items[x])
            && (k in l.items || |l.order| < size ==> p.items == l.items[k := v])
            && |p.order| == if k in l.items || |l.order| == size then |l.order| else |l.order| + 1
  {
    WithoutIs(l.order, k);
    var l' := List(Without(l.order, k) + [k], l.items[k := v]);
    assert Valid(l');
    if |l'.order| > size {
      DropOldestIs(l');
      assert l'.order[0] != k;
    }
  }

  /** Dropping a key that a list does not have changes nothing. */
  lemma NotThere<K, V>(l: List<K, V>, k: K)
    requires Valid(l)
    ensures k !in l.items ==> Drop(l, k) == l
  {
    assert k !in l.items ==> l.items - {k} == l.items;
  }

  lemma PutPresent<K, V>(l: List<K, V>, size: nat, k: K, v: V)
    requires Valid(l) && |l.order| <= size && k in l.items
    ensures Put(l, size, k, v) == List(Without(l.order, k) + [k], l.items[k := v])
  {
    WithoutIs(l.order, k);
  }

  lemma PutAbsent<K, V>(l: List<K, V>, size: nat, k: K, v: V)
    requires Valid(l) && 0 < size && |l.order| <= size && k !in l.items
    ensures var l' := List(l.order + [k], l.items[k := v]);
            && Put(l, size, k, v) == (if |l.order| < size then l' else Drop(l', l.order[0]))
            && (|l.order| == size ==> Put(l, size, k, v).items == (l.items - {l.order[0]})[k := v])
  {
    assert |l.order| == size ==> l.order[0] in l.items && l.order[0] != k;
  }

  // ----- Every sequence of operations -----

  function Apply<K, V>(l: List<K, V>, size: nat, op: Op<K, V>): List<K, V> {
    match op
    case Get(k) => if k in l.items then Put(l, size, k, l.items[k]) else l
    case Add(k, v) => Put(l, size, k, v)
    case Remove(k) => Drop(l, k)
  }

  function Run<K, V>(size: nat, ops: seq<Op<K, V>>): List<K, V> {
    if ops == [] then Empty() else Apply(Run(size, ops[..|ops| - 1]), size, ops[|ops| - 1])
  }

  lemma DropOldestByUse<K, V>(l: List<K, V>, ops: seq<Op<K, V>>)
    requires ByUse(l.order, ops)
    ensures ByUse(DropOldest(l).order, ops)
  {
    if l.order != [] {
      WithoutByUse(l.order, l.order[0], ops);
    }
  }

  /** Putting a key in a list is a use of the key. */
  lemma PutByUse<K, V>(l: List<K, V>, size: nat, v: V, ops: seq<Op<K, V>>, op: Op<K, V>)
    requires Valid(l) && ByUse(l.order, ops) && !op.Remove?
    ensures ByUse(Put(l, size, op.key, v).order, ops + [op])
  {
    hide ByUse, Valid;
    WithoutByUse(l.order, op.key, ops);
    assert op.key !in Without(l.order, op.key) by {
      OrderIsDistinct(l);
      WithoutIs(l.order, op.key);
    }
    UsedByUse(Without(l.order, op.key), ops, op);
    DropOldestByUse(List(Without(l.order, op.key) + [op.key], l.items[op.key := v]), ops + [op]);
  }

  lemma OrderIsDistinct<K, V>(l: List<K, V>)
    requires Valid(l)
    ensures Distinct(l.order)
  {
  }

  /** A key that leaves a list, or is not in it, leaves the others in their order. */
  lemma DropByUse<K, V>(l: List<K, V>, ops: seq<Op<K, V>>, op: Op<K, V>)
    requires Valid(l) && ByUse(l.order, ops)
    ensures ByUse(Drop(l, op.key).order, ops + [op])
  {
    hide ByUse;
    WithoutByUse(l.order, op.key, ops);
    WithoutIs(l.order, op.key);
    OthersByUse(Without(l.order, op.key), ops, op);
  }

  /** The list is valid and within its size, and each value is the one that was added last. */
  lemma {:induction false} RunKeeps<K, V>(size: nat, ops: seq<Op<K, V>>)
    requires 0 < size
    ensures Valid(Run(size, ops)) && |Run(size, ops).order| <= size
    ensures forall k :: k in Run(size, ops).items ==> LastAdded(ops, k) == Some(Run(size, ops).items[k])
  {
    hide Put, Drop, Valid;
    if ops == [] {
      EmptyIsValid<K, V>();
    } else {
      var before, op := ops[..|ops| - 1], ops[|ops| - 1];
      RunKeeps(size, before);
      var l := Run(size, before);
      match op
      case Get(k) =>
        if k in l.items {
          PutIs(l, size, k, l.items[k]);
        }
      case Add(k, v) => PutIs(l, size, k, v);
      case Remove(k) =>
        DropIs(l, k);
        DroppedItems(l, k);
    }
  }

  lemma EmptyIsValid<K, V>()
    ensures Valid<K, V>(Empty())
  {
  }

  lemma DroppedItems<K, V>(l: List<K, V>, k: K)
    ensures Drop(l, k).items == l.items - {k}
  {
  }

  /** A key stands before another one if and only if its last use was earlier. */
  lemma {:induction false} OrderIsByUse<K, V>(size: nat, ops: seq<Op<K, V>>)
    requires 0 < size
    ensures ByUse(Run(size, ops).order, ops)
    ensures var order := Run(size, ops).order;
            forall i, j :: 0 <= i < |order| && 0 <= j < |order| ==>
              (i < j <==> LastUse(ops, order[i]) < LastUse(ops, order[j]))
  {
    hide Put, Drop, Valid;
    if ops != [] {
      var before, op := ops[..|ops| - 1], ops[|ops| - 1];
      OrderIsByUse(size, before);
      RunKeeps(size, before);
      var l := Run(size, before);
      assert before + [op] == ops;
      if op.Remove? || (op.Get? && op.key !in l.items) {
        DropByUse(l, before, op);
        NotThere(l, op.key);
      } else {
        PutByUse(l, size, if op.Add? then op.value else l.items[op.key], before, op);
      }
    }
  }

  /**
   Adding a new key to a full list loses the entry whose last use is the earliest, and no other; otherwise nothing is
   lost.
   */
  lemma LosesLeastRecent<K, V>(size: nat, ops: seq<Op<K, V>>, k: K, v: V)
    requires 0 < size
    ensures var l, l' := Run(size, ops), Run(size, ops + [Add(k, v)]);
            if k !in l.items && |l.items| == size then
              exists e :: LeastRecent(l.items.Keys, e, ops) && l'.items == (l.items - {e})[k := v]
            else l'.items == l.items[k := v]
  {
    hide Put, Drop, ByUse, LeastRecent;
    var l := Run(size, ops);
    assert (ops + [Add(k, v)])[..|ops|] == ops;
    assert Run(size, ops + [Add(k, v)]) == Put(l, size, k, v);
    RunKeeps(size, ops);
    OrderIsByUse(size, ops);
    DistinctSize(l.order, l.items.Keys);
    if k in l.items {
      PutPresent(l, size, k, v);
    } else {
      PutAbsent(l, size, k, v);
      if |l.items| == size {
        FirstIsLeastRecent(l.order, l.items.Keys, ops);
      }
    }
  }

  class Cache<K(==), V> {
    const size: nat
    var order: seq<K>
    var items: map<K, V>

    constructor (size: nat)
      requires size > 0
      ensures this.size == size && State() == Empty()
    {
      this.size, order, items := size, [], map[];
    }

    ghost function State(): List<K, V>
      reads this
    {
      List(order, items)
    }

    method RemoveElement(k: K)
      requires k in items && k in order
      modifies this
      ensures State() == Drop(old(State()), k)
    {
      var i := IndexOf(order, k);
      order := order[..i] + order[i + 1..];
      items := items - {k};
    }

    method Add(k: K, v: V) returns (evicted: bool)
      requires Valid(State()) && size > 0 && |order| <= size
      modifies this
      ensures State() == Put(old(State()), size, k, v)
      ensures Valid(State()) && |order| <= size
      ensures evicted <==> k !in old(items) && |old(order)| == size
    {
      hide Put;
      PutIs(State(), size, k, v);
      if k in items {
        PutPresent(State(), size, k, v);
        var i := IndexOf(order, k);
        order := order[..i] + order[i + 1..] + [k];
        items := items[k := v];
        return false;
      }
      PutAbsent(State(), size, k, v);
      order := order + [k];
      items := items[k := v];
      evicted := |order| > size;
      if evicted {
        RemoveElement(order[0]);
      }
    }

    method Get(k: K) returns (v: Option<V>)
      requires Valid(State()) && |order| <= size
      modifies this
      ensures v == (if k in items then Some(items[k]) else None) && items == old(items)
      ensures State() == if k in old(items) then Put(old(State()), size, k, old(items)[k]) else old(State())
    {
      if k in items {
        WithoutIs(order, k);
        var i := IndexOf(order, k);
        order := order[..i] + order[i + 1..] + [k];
        assert items[k := items[k]] == items;
        return Some(items[k]);
      }
      return None;
    }

    method Remove(k: K) returns (found: bool)
      requires Valid(State())
      modifies this
      ensures found == (k in old(items)) && State() == Drop(old(State()), k)
    {
      if k in items {
        RemoveElement(k);
        return true;
      }
      assert items - {k} == items;
      return false;
    }

    method RemoveOldest() returns (k: Option<K>)
      requires Valid(State())
      modifies this
      ensures k == (if old(order) == [] then None else Some(old(order)[0])) && State() == DropOldest(old(State()))
    {
      if |order| > 0 {
        k := Some(order[0]);
        RemoveElement(order[0]);
      } else {
        k := None;
      }
    }
  }
}
