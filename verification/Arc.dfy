/**
 The adaptive replacement cache: `t1` holds entries that were used once, `t2` entries that were used
 more often; `b1` and `b2` keep the keys of entries that these have lost.
 */
module Arc {
  import opened Wrappers
  import opened CacheOps
  import opened Lru
  import opened Sequences

  datatype State<K(==), V> = State(p: nat, t1: List<K, V>, t2: List<K, V>, b1: List<K, V>, b2: List<K, V>)

  function Size<K, V>(s: State<K, V>): nat {
    |s.t1.order| + |s.t2.order|
  }

  /** What the cache holds. */
  function Live<K, V>(s: State<K, V>): map<K, V> {
    s.t1.items + s.t2.items
  }

  /** No key is in two lists, no list is longer than the cache, and neither is the preference for `t1`. */
  ghost predicate Inv<K, V>(size: nat, s: State<K, V>) {
    && Valid(s.t1) && Valid(s.t2) && Valid(s.b1) && Valid(s.b2) && s.p <= size
    && |s.t1.order| <= size && |s.t2.order| <= size && |s.b1.order| <= size && |s.b2.order| <= size
    && s.t1.items.Keys !! s.t2.items.Keys !! s.b1.items.Keys !! s.b2.items.Keys
  }

  // ----- Operations -----

  /** The oldest entry of `t1` or `t2` goes, and its key is kept. */
  function Replaced<K, V>(size: nat, nil: V, s: State<K, V>, inB2: bool): State<K, V> {
    var n := |s.t1.order|;
    if n > 0 && (n > s.p || (n == s.p && inB2)) then
      s.(t1 := DropOldest(s.t1), b1 := Put(s.b1, size, s.t1.order[0], nil))
    else if s.t2.order == [] then s
    else s.(t2 := DropOldest(s.t2), b2 := Put(s.b2, size, s.t2.order[0], nil))
  }

  function WithSpace<K, V>(size: nat, nil: V, s: State<K, V>, inB2: bool): State<K, V> {
    if Size(s) >= size then Replaced(size, nil, s, inB2) else s
  }

  /** How much the preference changes when a lost key comes back. */
  function Delta(own: nat, other: nat): nat
    requires own > 0
  {
    if other > own then other / own else 1
  }

  function Raised(size: nat, p: nat, delta: nat): nat {
    if p + delta >= size then size else p + delta
  }

  function Lowered(p: nat, delta: nat): nat {
    if delta >= p then 0 else p - delta
  }

  function Promote<K, V>(size: nat, s: State<K, V>, k: K, v: V): State<K, V> {
    s.(t1 := Drop(s.t1, k), t2 := Put(s.t2, size, k, v), b1 := Drop(s.b1, k), b2 := Drop(s.b2, k))
  }

  function Trimmed<K, V>(size: nat, s: State<K, V>): State<K, V> {
    s.(b1 := if |s.b1.order| > size - s.p then DropOldest(s.b1) else s.b1,
       b2 := if |s.b2.order| > s.p then DropOldest(s.b2) else s.b2)
  }

  function Added<K, V>(size: nat, nil: V, s: State<K, V>, k: K, v: V): State<K, V> {
    if k in Live(s) then Promote(size, s, k, v)
    else if k in s.b1.items && s.b1.order != [] then
      var p := Raised(size, s.p, Delta(|s.b1.order|, |s.b2.order|));
      Promote(size, WithSpace(size, nil, s.(p := p), false), k, v)
    else if k in s.b2.items && s.b2.order != [] then
      var p := Lowered(s.p, Delta(|s.b2.order|, |s.b1.order|));
      Promote(size, WithSpace(size, nil, s.(p := p), true), k, v)
    else
      var t := Trimmed(size, WithSpace(size, nil, s, false));
      t.(t1 := Put(t.t1, size, k, v))
  }

  function Looked<K, V>(size: nat, s: State<K, V>, k: K): State<K, V> {
    if k in Live(s) then Promote(size, s, k, Live(s)[k]) else s
  }

  function Removed<K, V>(s: State<K, V>, k: K): State<K, V> {
    State(s.p, Drop(s.t1, k), Drop(s.t2, k), Drop(s.b1, k), Drop(s.b2, k))
  }

  // ----- What they keep -----

  ghost predicate Within<K, V>(live': map<K, V>, live: map<K, V>) {
    forall x :: x in live' ==> x in live && live'[x] == live[x]
  }

  lemma PromoteKeeps<K, V>(size: nat, s: State<K, V>, k: K, v: V)
    requires 0 < size && Inv(size, s)
    ensures var t := Promote(size, s, k, v);
            && Inv(size, t) && t.p == s.p && Updated(Live(s), k, v, Live(t))
            && Size(t) <= Size(s) + (if k in Live(s) then 0 else 1)
            && (k !in Live(s) && |s.t2.order| < size ==> Size(t) == Size(s) + 1)
  {
    hide Put, Drop, Valid;
    DropIs(s.t1, k);
    DropIs(s.b1, k);
    DropIs(s.b2, k);
    PutIs(s.t2, size, k, v);
    DroppedItems(s.t1, k);
    DroppedItems(s.b1, k);
    DroppedItems(s.b2, k);
  }

  /** The one situation in which nothing goes: `t1` takes up the whole cache, and is preferred that much. */
  predicate Stuck<K, V>(size: nat, s: State<K, V>, inB2: bool) {
    s.t2.order == [] && |s.t1.order| == size == s.p && !inB2
  }

  lemma WithSpaceKeeps<K, V>(size: nat, nil: V, s: State<K, V>, inB2: bool, k: K)
    requires 0 < size && Inv(size, s) && k !in Live(s)
    ensures var t := WithSpace(size, nil, s, inB2);
            && Inv(size, t) && t.p == s.p && k !in Live(t) && Within(Live(t), Live(s))
            && (Size(s) < size ==> t == s)
            && (Size(s) >= size && Stuck(size, s, inB2) ==> t == s)
            && (Size(s) >= size && !Stuck(size, s, inB2) ==> Size(t) == Size(s) - 1)
            && (k !in s.b1.items ==> k !in t.b1.items) && (k !in s.b2.items ==> k !in t.b2.items)
  {
    hide Put, DropOldest, Valid;
    DropOldestIs(s.t1);
    DropOldestIs(s.t2);
    if s.t1.order != [] {
      PutIs(s.b1, size, s.t1.order[0], nil);
    }
    if s.t2.order != [] {
      PutIs(s.b2, size, s.t2.order[0], nil);
    }
  }

  lemma TrimmedKeeps<K, V>(size: nat, s: State<K, V>, k: K)
    requires Inv(size, s)
    ensures var t := Trimmed(size, s);
            && Inv(size, t) && t.t1 == s.t1 && t.t2 == s.t2 && t.p == s.p
            && (k !in s.b1.items ==> k !in t.b1.items) && (k !in s.b2.items ==> k !in t.b2.items)
  {
    hide DropOldest, Valid;
    DropOldestIs(s.b1);
    DropOldestIs(s.b2);
  }

  /** The one situation in which the cache grows beyond its size: a key that `t1` has lost comes back to a full `t1`. */
  predicate Overfills<K, V>(size: nat, s: State<K, V>, k: K) {
    && k in s.b1.items && s.b1.order != [] && s.t2.order == [] && |s.t1.order| == size
    && Raised(size, s.p, Delta(|s.b1.order|, |s.b2.order|)) == size
  }

  ghost predicate AddedOk<K, V>(size: nat, s: State<K, V>, k: K, v: V, t: State<K, V>) {
    && Inv(size, t) && Updated(Live(s), k, v, Live(t))
    && (Size(s) <= size + 1 ==> Size(t) <= size + 1)
    && (Size(s) <= size ==> (Size(t) <= size <==> !(k !in Live(s) && Overfills(size, s, k))))
  }

  lemma NotEmpty<K, V>(l: List<K, V>, k: K)
    requires Valid(l) && k in l.items
    ensures l.order != []
  {
  }

  lemma ReturnKeeps<K, V>(size: nat, nil: V, s: State<K, V>, p: nat, inB2: bool, k: K, v: V)
    requires 0 < size && Inv(size, s) && k !in Live(s) && p <= size
    ensures var t := Promote(size, WithSpace(size, nil, s.(p := p), inB2), k, v);
            && Inv(size, t) && Updated(Live(s), k, v, Live(t))
            && (Size(s) <= size + 1 ==> Size(t) <= size + 1)
            && (Size(s) <= size ==> (Size(t) <= size <==> !Stuck(size, s.(p := p), inB2)))
  {
    hide Put, Drop, Valid;
    WithSpaceKeeps(size, nil, s.(p := p), inB2, k);
    PromoteKeeps(size, WithSpace(size, nil, s.(p := p), inB2), k, v);
  }

  lemma NewKeeps<K, V>(size: nat, nil: V, s: State<K, V>, k: K, v: V)
    requires 0 < size && Inv(size, s) && k !in Live(s) && k !in s.b1.items && k !in s.b2.items
    ensures var r := Trimmed(size, WithSpace(size, nil, s, false));
            var t := r.(t1 := Put(r.t1, size, k, v));
            && Inv(size, t) && Updated(Live(s), k, v, Live(t))
            && (Size(s) <= size + 1 ==> Size(t) <= size + 1) && (Size(s) <= size ==> Size(t) <= size)
  {
    hide Put, Drop, Valid, Trimmed, WithSpace;
    WithSpaceKeeps(size, nil, s, false, k);
    var r := WithSpace(size, nil, s, false);
    TrimmedKeeps(size, r, k);
    PutIs(r.t1, size, k, v);
  }

  lemma AddedKeeps<K, V>(size: nat, nil: V, s: State<K, V>, k: K, v: V)
    requires 0 < size && Inv(size, s)
    ensures AddedOk(size, s, k, v, Added(size, nil, s, k, v))
  {
    hide Put, Drop, Trimmed, WithSpace, Promote, Valid;
    if k in Live(s) {
      PromoteKeeps(size, s, k, v);
    } else if k in s.b1.items {
      NotEmpty(s.b1, k);
      ReturnKeeps(size, nil, s, Raised(size, s.p, Delta(|s.b1.order|, |s.b2.order|)), false, k, v);
    } else if k in s.b2.items {
      NotEmpty(s.b2, k);
      ReturnKeeps(size, nil, s, Lowered(s.p, Delta(|s.b2.order|, |s.b1.order|)), true, k, v);
    } else {
      NewKeeps(size, nil, s, k, v);
    }
  }

  lemma LookedKeeps<K, V>(size: nat, s: State<K, V>, k: K)
    requires 0 < size && Inv(size, s)
    ensures var t := Looked(size, s, k); Inv(size, t) && Size(t) <= Size(s) && Within(Live(t), Live(s))
  {
    if k in Live(s) {
      PromoteKeeps(size, s, k, Live(s)[k]);
    }
  }

  lemma RemovedKeeps<K, V>(size: nat, s: State<K, V>, k: K)
    requires Inv(size, s)
    ensures var t := Removed(s, k); Inv(size, t) && Size(t) <= Size(s) && Live(t) == Live(s) - {k}
  {
    hide Valid, Without;
    DropIs(s.t1, k);
    DropIs(s.t2, k);
    DropIs(s.b1, k);
    DropIs(s.b2, k);
  }

  // ----- Every sequence of operations -----

  function Apply<K, V>(size: nat, nil: V, s: State<K, V>, op: Op<K, V>): State<K, V> {
    match op
    case Get(k) => Looked(size, s, k)
    case Add(k, v) => Added(size, nil, s, k, v)
    case Remove(k) => Removed(s, k)
  }

  function Run<K, V>(size: nat, nil: V, ops: seq<Op<K, V>>): State<K, V> {
    if ops == [] then State(0, Empty(), Empty(), Empty(), Empty())
        else Apply(size, nil, Run(size, nil, ops[..|ops| - 1]), ops[|ops| - 1])
  }

  lemma NothingOk<K, V>(size: nat)
    ensures Inv<K, V>(size, State(0, Empty(), Empty(), Empty(), Empty()))
  {
  }

  /**
   The lists stay disjoint, the preference stays within the size, whatever the cache holds is what was
   added last, and it never holds more than one entry too many.
   */
  lemma {:induction false} RunKeeps<K, V>(size: nat, nil: V, ops: seq<Op<K, V>>)
    requires 0 < size
    ensures Inv(size, Run(size, nil, ops)) && Size(Run(size, nil, ops)) <= size + 1
    ensures forall k :: k in Live(Run(size, nil, ops)) ==> LastAdded(ops, k) == Some(Live(Run(size, nil, ops))[k])
  {
    hide Looked, Added, Removed, Valid;
    NothingOk<K, V>(size);
    if ops != [] {
      var before, op := ops[..|ops| - 1], ops[|ops| - 1];
      RunKeeps(size, nil, before);
      var s := Run(size, nil, before);
      match op
      case Get(k) => LookedKeeps(size, s, k);
      case Add(k, v) => AddedKeeps(size, nil, s, k, v);
      case Remove(k) => RemovedKeeps(size, s, k);
    }
  }

  /** A step of a run that is not the one that overfills the cache. */
  ghost predicate Fits<K, V>(size: nat, s: State<K, V>, op: Op<K, V>) {
    op.Add? ==> op.key in Live(s) || !Overfills(size, s, op.key)
  }

  /** As long as no step overfills the cache, it is never larger than its size. */
  lemma {:induction false} SizeIsKept<K, V>(size: nat, nil: V, ops: seq<Op<K, V>>)
    requires 0 < size && forall i :: 0 <= i < |ops| ==> Fits(size, Run(size, nil, ops[..i]), ops[i])
    ensures Size(Run(size, nil, ops)) <= size
  {
    hide Looked, Added, Removed, Valid, Overfills;
    if ops != [] {
      var n := |ops| - 1;
      var before, op := ops[..n], ops[n];
      forall i | 0 <= i < n ensures Fits(size, Run(size, nil, before[..i]), before[i]) {
        assert before[..i] == ops[..i];
      }
      SizeIsKept(size, nil, before);
      RunKeeps(size, nil, before);
      var s := Run(size, nil, before);
      assert Fits(size, s, op);
      match op
      case Get(k) => LookedKeeps(size, s, k);
      case Add(k, v) => AddedKeeps(size, nil, s, k, v);
      case Remove(k) => RemovedKeeps(size, s, k);
    }
  }

  // ----- What is lost, and in which order -----

  /** The keys of `t1` and of `t2` are in the order of their last use. */
  ghost predicate InOrder<K, V>(s: State<K, V>, ops: seq<Op<K, V>>) {
    ByUse(s.t1.order, ops) && ByUse(s.t2.order, ops)
  }

  lemma PromoteInOrder<K, V>(size: nat, s: State<K, V>, v: V, ops: seq<Op<K, V>>, op: Op<K, V>)
    requires Inv(size, s) && InOrder(s, ops) && !op.Remove?
    ensures InOrder(Promote(size, s, op.key, v), ops + [op])
  {
    hide ByUse, Put, Drop, Valid;
    DropByUse(s.t1, ops, op);
    PutByUse(s.t2, size, v, ops, op);
  }

  lemma WithSpaceInOrder<K, V>(size: nat, nil: V, s: State<K, V>, inB2: bool, ops: seq<Op<K, V>>)
    requires InOrder(s, ops)
    ensures InOrder(WithSpace(size, nil, s, inB2), ops)
  {
    hide ByUse, Put, DropOldest;
    DropOldestByUse(s.t1, ops);
    DropOldestByUse(s.t2, ops);
  }

  lemma ReturnInOrder<K, V>(size: nat, nil: V, s: State<K, V>, p: nat, inB2: bool, ops: seq<Op<K, V>>, k: K, v: V)
    requires 0 < size && Inv(size, s) && InOrder(s, ops) && k !in Live(s) && p <= size
    ensures InOrder(Promote(size, WithSpace(size, nil, s.(p := p), inB2), k, v), ops + [Add(k, v)])
  {
    hide ByUse, Put, Drop, Valid, WithSpace, Promote;
    WithSpaceKeeps(size, nil, s.(p := p), inB2, k);
    WithSpaceInOrder(size, nil, s.(p := p), inB2, ops);
    PromoteInOrder(size, WithSpace(size, nil, s.(p := p), inB2), v, ops, Add(k, v));
  }

  lemma NewInOrder<K, V>(size: nat, nil: V, s: State<K, V>, ops: seq<Op<K, V>>, k: K, v: V)
    requires 0 < size && Inv(size, s) && InOrder(s, ops) && k !in Live(s)
    ensures var r := Trimmed(size, WithSpace(size, nil, s, false));
            InOrder(r.(t1 := Put(r.t1, size, k, v)), ops + [Add(k, v)])
  {
    hide ByUse, Put, Drop, Valid, WithSpace;
    WithSpaceKeeps(size, nil, s, false, k);
    WithSpaceInOrder(size, nil, s, false, ops);
    var r := WithSpace(size, nil, s, false);
    PutByUse(r.t1, size, v, ops, Add(k, v));
    DropByUse(r.t2, ops, Add(k, v));
    NotThere(r.t2, k);
  }

  lemma AddedInOrder<K, V>(size: nat, nil: V, s: State<K, V>, ops: seq<Op<K, V>>, k: K, v: V)
    requires 0 < size && Inv(size, s) && InOrder(s, ops)
    ensures InOrder(Added(size, nil, s, k, v), ops + [Add(k, v)])
  {
    hide InOrder, Put, Drop, Trimmed, WithSpace, Promote, Valid;
    if k in Live(s) {
      PromoteInOrder(size, s, v, ops, Add(k, v));
    } else if k in s.b1.items {
      NotEmpty(s.b1, k);
      ReturnInOrder(size, nil, s, Raised(size, s.p, Delta(|s.b1.order|, |s.b2.order|)), false, ops, k, v);
    } else if k in s.b2.items {
      NotEmpty(s.b2, k);
      ReturnInOrder(size, nil, s, Lowered(s.p, Delta(|s.b2.order|, |s.b1.order|)), true, ops, k, v);
    } else {
      NewInOrder(size, nil, s, ops, k, v);
    }
  }

  lemma LookedInOrder<K, V>(size: nat, s: State<K, V>, ops: seq<Op<K, V>>, k: K)
    requires Inv(size, s) && InOrder(s, ops)
    ensures InOrder(Looked(size, s, k), ops + [Get(k)])
  {
    hide InOrder, Promote;
    if k in Live(s) {
      PromoteInOrder(size, s, Live(s)[k], ops, Get(k));
    } else {
      OthersInOrder(size, s, ops, Get(k));
    }
  }

  lemma OthersInOrder<K, V>(size: nat, s: State<K, V>, ops: seq<Op<K, V>>, op: Op<K, V>)
    requires Inv(size, s) && InOrder(s, ops)
    ensures InOrder(Removed(s, op.key), ops + [op])
    ensures op.key !in Live(s) ==> InOrder(s, ops + [op])
  {
    hide ByUse, Drop, Valid;
    DropByUse(s.t1, ops, op);
    DropByUse(s.t2, ops, op);
    NotThere(s.t1, op.key);
    NotThere(s.t2, op.key);
  }

  /** In `t1` and in `t2` a key stands before another one exactly if its last use was earlier. */
  lemma {:induction false} ListsAreByUse<K, V>(size: nat, nil: V, ops: seq<Op<K, V>>)
    requires 0 < size
    ensures InOrder(Run(size, nil, ops), ops)
  {
    hide Looked, Added, Removed;
    if ops != [] {
      hide InOrder;
      var before, op := ops[..|ops| - 1], ops[|ops| - 1];
      ListsAreByUse(size, nil, before);
      RunKeeps(size, nil, before);
      var s := Run(size, nil, before);
      assert before + [op] == ops;
      match op
      case Get(k) => LookedInOrder(size, s, before, k);
      case Add(k, v) => AddedInOrder(size, nil, s, before, k, v);
      case Remove(k) => OthersInOrder(size, s, before, op);
    }
  }

  /** Whether `t1` has to give an entry up, at preference `p`. */
  predicate FromT1<K, V>(s: State<K, V>, p: nat, inB2: bool) {
    s.t1.order != [] && (|s.t1.order| > p || (|s.t1.order| == p && inB2))
  }

  lemma WithSpaceLoses<K, V>(size: nat, nil: V, s: State<K, V>, inB2: bool, x: K)
    requires 0 < size && Inv(size, s) && x in Live(s)
    ensures x !in Live(WithSpace(size, nil, s, inB2)) <==>
            && Size(s) >= size
            && if FromT1(s, s.p, inB2) then x == s.t1.order[0] else s.t2.order != [] && x == s.t2.order[0]
    ensures x !in Live(WithSpace(size, nil, s, inB2)) ==>
              if x in s.t1.items then x in WithSpace(size, nil, s, inB2).b1.items
              else x in WithSpace(size, nil, s, inB2).b2.items
  {
    hide Put, DropOldest, Valid;
    DropOldestIs(s.t1);
    DropOldestIs(s.t2);
    if s.t1.order != [] {
      PutIs(s.b1, size, s.t1.order[0], nil);
    }
    if s.t2.order != [] {
      PutIs(s.b2, size, s.t2.order[0], nil);
    }
  }

  /** The entry that a full cache gives up for a key that it does not hold, once the preference has moved to `p`. */
  ghost predicate GivesUp<K, V>(size: nat, s: State<K, V>, p: nat, k: K, x: K) {
    && Size(s) >= size
    && if FromT1(s, p, k in s.b2.items) then x == s.t1.order[0]
       else if s.t2.order != [] then x == s.t2.order[0]
       else s.t1.order != [] && k !in s.b1.items && x == s.t1.order[0]
  }

  lemma ReturnLoses<K, V>(size: nat, nil: V, s: State<K, V>, p: nat, inB2: bool, k: K, v: V, x: K)
    requires 0 < size && Inv(size, s) && k !in Live(s) && p <= size && Size(s) <= size && x in Live(s)
    requires if inB2 then k in s.b2.items else k in s.b1.items
    ensures var t := Promote(size, WithSpace(size, nil, s.(p := p), inB2), k, v);
            t.p == p && (x !in Live(t) <==> GivesUp(size, s, p, k, x))
  {
    hide Put, Drop, Valid, WithSpace;
    var r := WithSpace(size, nil, s.(p := p), inB2);
    WithSpaceLoses(size, nil, s.(p := p), inB2, x);
    WithSpaceKeeps(size, nil, s.(p := p), inB2, k);
    DroppedItems(r.t1, k);
    PutIs(r.t2, size, k, v);
  }

  lemma NewLoses<K, V>(size: nat, nil: V, s: State<K, V>, k: K, v: V, x: K)
    requires 0 < size && Inv(size, s) && k !in Live(s) && k !in s.b1.items && k !in s.b2.items
    requires Size(s) <= size && x in Live(s)
    ensures var r := Trimmed(size, WithSpace(size, nil, s, false));
            var t := r.(t1 := Put(r.t1, size, k, v));
            t.p == s.p && (x !in Live(t) <==> GivesUp(size, s, s.p, k, x))
  {
    hide Put, Drop, Valid, WithSpace;
    var r := WithSpace(size, nil, s, false);
    WithSpaceLoses(size, nil, s, false, x);
    WithSpaceKeeps(size, nil, s, false, k);
    PutIs(r.t1, size, k, v);
    PutAbsent(r.t1, size, k, v);
    DropOldestIs(s.t1);
  }

  lemma PromoteLoses<K, V>(size: nat, s: State<K, V>, k: K, v: V)
    requires 0 < size && Inv(size, s) && Size(s) <= size && k in Live(s)
    ensures forall x :: x in Live(s) ==> x in Live(Promote(size, s, k, v))
  {
    hide Put, Drop, Valid;
    PutIs(s.t2, size, k, v);
    DroppedItems(s.t1, k);
    if k in s.t1.items {
      NotEmpty(s.t1, k);
    }
  }

  /**
   Adding a key loses nothing if the cache holds the key or has space, and otherwise exactly the entry that the new
   preference points at.
   */
  lemma AddedLoses<K, V>(size: nat, nil: V, s: State<K, V>, k: K, v: V, x: K)
    requires 0 < size && Inv(size, s) && Size(s) <= size && x in Live(s)
    ensures var t := Added(size, nil, s, k, v);
            x !in Live(t) <==> k !in Live(s) && GivesUp(size, s, t.p, k, x)
  {
    hide Put, Drop, Trimmed, WithSpace, Promote, Valid, GivesUp;
    if k in Live(s) {
      PromoteLoses(size, s, k, v);
    } else if k in s.b1.items {
      NotEmpty(s.b1, k);
      ReturnLoses(size, nil, s, Raised(size, s.p, Delta(|s.b1.order|, |s.b2.order|)), false, k, v, x);
    } else if k in s.b2.items {
      NotEmpty(s.b2, k);
      ReturnLoses(size, nil, s, Lowered(s.p, Delta(|s.b2.order|, |s.b1.order|)), true, k, v, x);
    } else {
      NewLoses(size, nil, s, k, v, x);
    }
  }

  /** Over every run: what a cache gives up is the entry of its list whose last use is the earliest. */
  lemma LosesLeastRecent<K, V>(size: nat, nil: V, ops: seq<Op<K, V>>, k: K, v: V, x: K)
    requires 0 < size && Size(Run(size, nil, ops)) <= size
    requires x in Live(Run(size, nil, ops)) && x !in Live(Run(size, nil, ops + [Add(k, v)]))
    ensures var s, p := Run(size, nil, ops), Run(size, nil, ops + [Add(k, v)]).p;
            && k !in Live(s) && Size(s) == size
            && if FromT1(s, p, k in s.b2.items) || s.t2.order == [] then LeastRecent(s.t1.items.Keys, x, ops)
               else LeastRecent(s.t2.items.Keys, x, ops)
  {
    hide Added;
    var s := Run(size, nil, ops);
    assert (ops + [Add(k, v)])[..|ops|] == ops;
    RunKeeps(size, nil, ops);
    ListsAreByUse(size, nil, ops);
    AddedLoses(size, nil, s, k, v, x);
    if s.t1.order != [] {
      FirstIsLeastRecent(s.t1.order, s.t1.items.Keys, ops);
    }
    if s.t2.order != [] {
      FirstIsLeastRecent(s.t2.order, s.t2.items.Keys, ops);
    }
  }

  /** A new key goes to `t1`; a key that is used again, or comes back after its eviction, to `t2`. */
  lemma UsedAgainIsFrequent<K, V>(size: nat, nil: V, s: State<K, V>, k: K, v: V)
    requires 0 < size && Inv(size, s)
    ensures var t := Added(size, nil, s, k, v);
            if k in Live(s) || k in s.b1.items || k in s.b2.items then k in t.t2.items && t.t2.items[k] == v
            else k in t.t1.items && t.t1.items[k] == v
    ensures k in Live(s) ==> k in Looked(size, s, k).t2.items
  {
    hide Put, Drop, Trimmed, Valid;
    if k in Live(s) {
      PutIs(s.t2, size, k, v);
      PutIs(s.t2, size, k, Live(s)[k]);
    } else if k in s.b1.items {
      NotEmpty(s.b1, k);
      ReturnGoesToT2(size, nil, s, Raised(size, s.p, Delta(|s.b1.order|, |s.b2.order|)), false, k, v);
    } else if k in s.b2.items {
      NotEmpty(s.b2, k);
      ReturnGoesToT2(size, nil, s, Lowered(s.p, Delta(|s.b2.order|, |s.b1.order|)), true, k, v);
    } else {
      WithSpaceKeeps(size, nil, s, false, k);
      var r := WithSpace(size, nil, s, false);
      TrimmedKeeps(size, r, k);
      PutIs(Trimmed(size, r).t1, size, k, v);
    }
  }

  lemma ReturnGoesToT2<K, V>(size: nat, nil: V, s: State<K, V>, p: nat, inB2: bool, k: K, v: V)
    requires 0 < size && Inv(size, s) && k !in Live(s) && p <= size
    ensures var t := Promote(size, WithSpace(size, nil, s.(p := p), inB2), k, v); k in t.t2.items && t.t2.items[k] == v
  {
    hide Put, Drop, Valid, WithSpace;
    WithSpaceKeeps(size, nil, s.(p := p), inB2, k);
    PutIs(WithSpace(size, nil, s.(p := p), inB2).t2, size, k, v);
  }

  /** `d` times `own` is as much of the larger of two numbers as fits. */
  ghost predicate Ratio(d: nat, own: nat, other: nat) {
    var larger := if other > own then other else own;
    d * own <= larger < (d + 1) * own
  }

  lemma DeltaIsRatio(own: nat, other: nat)
    requires own > 0
    ensures Delta(own, other) > 0 && Ratio(Delta(own, other), own, other)
  {
    if other > own {
      var d := other / own;
      assert d * own + other % own == other;
      assert (d + 1) * own == d * own + own;
    }
  }

  /**
   A key that `t1` has lost moves the preference towards `t1`, one that `t2` has lost away from it, by the ratio of the
   two lists of lost keys; nothing else moves it.
   */
  lemma PreferenceMoves<K, V>(size: nat, nil: V, s: State<K, V>, k: K, v: V)
    requires 0 < size && Inv(size, s)
    ensures var p, p', n1, n2 := s.p, Added(size, nil, s, k, v).p, |s.b1.order|, |s.b2.order|;
            if k in Live(s) || (k !in s.b1.items && k !in s.b2.items) then p' == p
            else if k in s.b1.items then
              (p < size ==> p < p') && (p' < size ==> p <= p' && Ratio(p' - p, n1, n2)) && p' <= size
            else
              (0 < p ==> p' < p) && (0 < p' ==> p' <= p && Ratio(p - p', n2, n1))
  {
    hide Put, Drop, Trimmed, WithSpace, Promote, Valid, Ratio, Delta;
    if k in Live(s) {
      PromoteKeeps(size, s, k, v);
    } else if k in s.b1.items {
      NotEmpty(s.b1, k);
      DeltaIsRatio(|s.b1.order|, |s.b2.order|);
      PreferenceOfReturn(size, nil, s, Raised(size, s.p, Delta(|s.b1.order|, |s.b2.order|)), false, k, v);
    } else if k in s.b2.items {
      NotEmpty(s.b2, k);
      DeltaIsRatio(|s.b2.order|, |s.b1.order|);
      PreferenceOfReturn(size, nil, s, Lowered(s.p, Delta(|s.b2.order|, |s.b1.order|)), true, k, v);
    } else {
      WithSpaceKeeps(size, nil, s, false, k);
      TrimmedKeeps(size, WithSpace(size, nil, s, false), k);
    }
  }

  lemma PreferenceOfReturn<K, V>(size: nat, nil: V, s: State<K, V>, p: nat, inB2: bool, k: K, v: V)
    requires 0 < size && Inv(size, s) && k !in Live(s) && p <= size
    ensures Promote(size, WithSpace(size, nil, s.(p := p), inB2), k, v).p == p
  {
  }

  lemma PutFirst<K, V>(size: nat, k: K, v: V)
    requires size > 0
    ensures Put(Empty(), size, k, v) == List([k], map[k := v])
  {
  }

  lemma DropOnly<K, V>(k: K, v: V)
    ensures DropOldest(List([k], map[k := v])) == Empty()
  {
    assert map[k := v] - {k} == map[];
  }

  /** A cache for one entry ends up with two. */
  lemma OneTooMany<K, V>(nil: V, a: K, b: K, v: V)
    requires a != b
    ensures Size(Run(1, nil, [Add(a, v), Add(b, v), Add(a, v)])) == 2
  {
    hide Put, DropOldest, Drop;
    var s0 := State(0, Empty(), Empty(), Empty(), Empty());
    var s1 := s0.(t1 := List([a], map[a := v]));
    var s2 := s0.(t1 := List([b], map[b := v]), b1 := List([a], map[a := nil]));
    PutFirst<K, V>(1, a, v);
    PutFirst<K, V>(1, b, v);
    PutFirst<K, V>(1, a, nil);
    DropOnly<K, V>(a, v);
    assert Added(1, nil, s0, a, v) == s1;
    assert Added(1, nil, s1, b, v) == s2;
    assert [Add(a, v)][..0] == [];
    assert [Add(a, v), Add(b, v)][..1] == [Add(a, v)];
    assert [Add(a, v), Add(b, v), Add(a, v)][..2] == [Add(a, v), Add(b, v)];
    assert Run(1, nil, []) == s0;
    assert Run(1, nil, [Add(a, v)]) == Apply(1, nil, s0, Add(a, v)) == s1;
    assert Run(1, nil, [Add(a, v), Add(b, v)]) == Apply(1, nil, s1, Add(b, v)) == s2;
    DropIs(s2.t1, a);
    assert Size(Added(1, nil, s2, a, v)) == 2;
  }

  // ----- The cache -----

  class ArcCache<K(==), V> {
    const size: nat
    const nil: V
    var p: nat
    const t1: Cache<K, V>
    const t2: Cache<K, V>
    const b1: Cache<K, V>
    const b2: Cache<K, V>

    constructor (size: nat, nil: V)
      requires size > 0
      ensures this.size == size && this.nil == nil && Valid() && fresh(t1) && fresh(t2) && fresh(b1) && fresh(b2)
      ensures Now() == State(0, Empty(), Empty(), Empty(), Empty())
    {
      this.size, this.nil, p := size, nil, 0;
      b1 := new Cache(size);
      b2 := new Cache(size);
      t1 := new Cache(size);
      t2 := new Cache(size);
    }

    ghost function Now(): State<K, V>
      reads this, t1, t2, b1, b2
    {
      State(p, t1.State(), t2.State(), b1.State(), b2.State())
    }

    /** The four lists are four objects. */
    ghost predicate Apart()
      reads this
    {
      && size > 0 && t1 != t2 && t1 != b1 && t1 != b2 && t2 != b1 && t2 != b2 && b1 != b2
      && t1.size == size && t2.size == size && b1.size == size && b2.size == size
    }

    ghost predicate Valid()
      reads this, t1, t2, b1, b2
    {
      Apart() && Inv(size, Now())
    }

    method Get(key: K) returns (value: Option<V>)
      requires Valid()
      modifies t1, t2
      ensures Valid() && Now() == Looked(size, old(Now()), key)
      ensures value == if key in old(Live(Now())) then Some(old(Live(Now()))[key]) else None
    {
      hide Put, Drop, Lru.Valid;
      LookedKeeps(size, Now(), key);
      NotThere(t1.State(), key);
      NotThere(b1.State(), key);
      NotThere(b2.State(), key);
      if key in t1.items {
        value := Some(t1.items[key]);
        var _ := t1.Remove(key);
        var _ := t2.Add(key, value.value);
        return;
      }
      value := t2.Get(key);
    }

    method Replace(b2ContainsKey: bool)
      requires Valid()
      modifies t1, t2, b1, b2
      ensures Now() == Replaced(size, nil, old(Now()), b2ContainsKey)
    {
      hide Put;
      var t1Len := |t1.order|;
      if t1Len > 0 && (t1Len > p || (t1Len == p && b2ContainsKey)) {
        var k := t1.RemoveOldest();
        if k.Some? {
          var _ := b1.Add(k.value, nil);
        }
      } else {
        var k := t2.RemoveOldest();
        if k.Some? {
          var _ := b2.Add(k.value, nil);
        }
      }
    }

    /** A key that one of the lists has lost comes back, and the preference has been changed. */
    method Return(key: K, value: V, inB2: bool)
      requires Valid() && key !in Live(Now()) && (if inB2 then key in b2.items else key in b1.items)
      modifies t1, t2, b1, b2
      ensures Now() == Promote(size, WithSpace(size, nil, old(Now()), inB2), key, value)
    {
      hide Put, Drop, Lru.Valid;
      WithSpaceKeeps(size, nil, Now(), inB2, key);
      if |t1.order| + |t2.order| >= size {
        Replace(inB2);
      }
      NotThere(t1.State(), key);
      NotThere(b1.State(), key);
      NotThere(b2.State(), key);
      if inB2 {
        var _ := b2.Remove(key);
      } else {
        var _ := b1.Remove(key);
      }
      var _ := t2.Add(key, value);
    }

    method AddNew(key: K, value: V)
      requires Valid() && key !in Live(Now()) && key !in b1.items && key !in b2.items
      modifies t1, t2, b1, b2
      ensures var t := Trimmed(size, WithSpace(size, nil, old(Now()), false));
              Now() == t.(t1 := Put(t.t1, size, key, value))
    {
      hide Put, Drop, Lru.Valid;
      WithSpaceKeeps(size, nil, Now(), false, key);
      if |t1.order| + |t2.order| >= size {
        Replace(false);
      }
      if |b1.order| > size - p {
        var _ := b1.RemoveOldest();
      }
      if |b2.order| > p {
        var _ := b2.RemoveOldest();
      }
      var _ := t1.Add(key, value);
    }

    method Add(key: K, value: V)
      requires Valid()
      modifies this, t1, t2, b1, b2
      ensures Valid() && Now() == Added(size, nil, old(Now()), key, value)
    {
      hide Put, Drop, Lru.Valid, Trimmed, WithSpace, Promote;
      AddedKeeps(size, nil, Now(), key, value);
      NotThere(t1.State(), key);
      NotThere(b1.State(), key);
      NotThere(b2.State(), key);
      if key in t1.items {
        PromoteLive(size, Now(), key, value);
        var _ := t1.Remove(key);
        var _ := t2.Add(key, value);
        return;
      }
      if key in t2.items {
        PromoteLive(size, Now(), key, value);
        var _ := t2.Add(key, value);
        return;
      }
      if key in b1.items {
        NotEmpty(b1.State(), key);
        var delta := 1;
        var b1Len := |b1.order|;
        var b2Len := |b2.order|;
        if b2Len > b1Len {
          delta := b2Len / b1Len;
        }
        p := if p + delta >= size then size else p + delta;
        Return(key, value, false);
        return;
      }
      if key in b2.items {
        NotEmpty(b2.State(), key);
        var delta := 1;
        var b1Len := |b1.order|;
        var b2Len := |b2.order|;
        if b1Len > b2Len {
          delta := b1Len / b2Len;
        }
        p := if delta >= p then 0 else p - delta;
        Return(key, value, true);
        return;
      }
      AddNew(key, value);
    }

    method Remove(key: K)
      requires Valid()
      modifies t1, t2, b1, b2
      ensures Valid() && Now() == Removed(old(Now()), key)
    {
      hide Drop, Lru.Valid;
      RemovedKeeps(size, Now(), key);
      NotThere(t1.State(), key);
      NotThere(t2.State(), key);
      NotThere(b1.State(), key);
      NotThere(b2.State(), key);
      var found := t1.Remove(key);
      if found {
        return;
      }
      found := t2.Remove(key);
      if found {
        return;
      }
      found := b1.Remove(key);
      if found {
        return;
      }
      found := b2.Remove(key);
    }
  }

  lemma PromoteLive<K, V>(size: nat, s: State<K, V>, k: K, v: V)
    requires Inv(size, s) && k in Live(s)
    ensures Promote(size, s, k, v) == s.(t1 := Drop(s.t1, k), t2 := Put(s.t2, size, k, v))
  {
    NotThere(s.b1, k);
    NotThere(s.b2, k);
  }
}
