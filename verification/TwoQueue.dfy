/**
 The 2Q cache: entries that were used once, entries that were used more often, and the keys of
 entries of the first kind that have been evicted.
 */
module TwoQueue {
  import opened Wrappers
  import opened CacheOps
  import opened Lru
  import opened Sequences

  datatype Params<V> = Params(size: nat, recentSize: nat, evictSize: nat, nil: V)

  datatype State<K(==), V> = State(recent: List<K, V>, frequent: List<K, V>, evicted: List<K, V>)

  ghost predicate ParamsOk<V>(c: Params<V>) {
    0 < c.size && c.recentSize <= c.size && 0 < c.evictSize
  }

  function Size<K, V>(s: State<K, V>): nat {
    |s.recent.order| + |s.frequent.order|
  }

  /** What the cache holds. */
  function Live<K, V>(s: State<K, V>): map<K, V> {
    s.recent.items + s.frequent.items
  }

  /** No key is in two lists. */
  ghost predicate Inv<K, V>(c: Params<V>, s: State<K, V>) {
    && Valid(s.recent) && Valid(s.frequent) && Valid(s.evicted)
    && |s.recent.order| <= c.size && |s.frequent.order| <= c.size && |s.evicted.order| <= c.evictSize
    && s.recent.items.Keys !! s.frequent.items.Keys !! s.evicted.items.Keys
  }

  // ----- Operations -----

  function WithSpace<K, V>(c: Params<V>, s: State<K, V>, fromEvicted: bool): State<K, V> {
    var n := |s.recent.order|;
    if Size(s) < c.size then s
    else if n > 0 && (n > c.recentSize || (n == c.recentSize && !fromEvicted)) then
      s.(recent := DropOldest(s.recent), evicted := Put(s.evicted, c.evictSize, s.recent.order[0], c.nil))
    else s.(frequent := DropOldest(s.frequent))
  }

  function Promote<K, V>(c: Params<V>, s: State<K, V>, k: K, v: V): State<K, V> {
    s.(recent := Drop(s.recent, k), evicted := Drop(s.evicted, k), frequent := Put(s.frequent, c.size, k, v))
  }

  function Added<K, V>(c: Params<V>, s: State<K, V>, k: K, v: V): State<K, V> {
    if k in s.frequent.items || k in s.recent.items then Promote(c, s, k, v)
    else if k in s.evicted.items then Promote(c, WithSpace(c, s, true), k, v)
    else
      var t := WithSpace(c, s, false);
      t.(recent := Put(t.recent, c.size, k, v))
  }

  function Looked<K, V>(c: Params<V>, s: State<K, V>, k: K): State<K, V> {
    if k in Live(s) then Promote(c, s, k, Live(s)[k]) else s
  }

  function Removed<K, V>(s: State<K, V>, k: K): State<K, V> {
    State(Drop(s.recent, k), Drop(s.frequent, k), Drop(s.evicted, k))
  }

  // ----- What they keep -----

  lemma PromoteKeeps<K, V>(c: Params<V>, s: State<K, V>, k: K, v: V)
    requires ParamsOk(c) && Inv(c, s)
    ensures var t := Promote(c, s, k, v);
            && Inv(c, t) && Updated(Live(s), k, v, Live(t))
            && Size(t) <= Size(s) + (if k in Live(s) then 0 else 1)
            && (k !in Live(s) && |s.frequent.order| < c.size ==> Size(t) == Size(s) + 1)
  {
    DropIs(s.recent, k);
    DropIs(s.evicted, k);
    PutIs(s.frequent, c.size, k, v);
  }

  /** The one situation in which no space can be made: the whole cache is recent, and is meant to be. */
  predicate NoSpace<K, V>(c: Params<V>, s: State<K, V>, fromEvicted: bool) {
    c.recentSize == c.size && fromEvicted && |s.recent.order| == c.size && s.frequent.order == []
  }

  lemma WithSpaceKeeps<K, V>(c: Params<V>, s: State<K, V>, fromEvicted: bool, k: K)
    requires ParamsOk(c) && Inv(c, s) && k !in Live(s)
    ensures var t := WithSpace(c, s, fromEvicted);
            && Inv(c, t) && k !in Live(t)
            && (forall x :: x in Live(t) ==> x in Live(s) && Live(t)[x] == Live(s)[x])
            && Size(t) <= Size(s) && (Size(s) <= c.size ==> (Size(t) < c.size <==> !NoSpace(c, s, fromEvicted)))
            && (Size(s) > c.size ==> Size(t) < Size(s)) && |t.frequent.order| <= |s.frequent.order|
            && (k !in s.evicted.items ==> k !in t.evicted.items)
  {
    hide Put, DropOldest, Valid;
    DropOldestIs(s.recent);
    DropOldestIs(s.frequent);
    if s.recent.order != [] {
      PutIs(s.evicted, c.evictSize, s.recent.order[0], c.nil);
    }
  }

  lemma AddedKeeps<K, V>(c: Params<V>, s: State<K, V>, k: K, v: V)
    requires ParamsOk(c) && Inv(c, s)
    ensures var t := Added(c, s, k, v);
            && Inv(c, t) && Updated(Live(s), k, v, Live(t))
            && (Size(s) <= c.size ==> (Size(t) <= c.size <==> !(k in s.evicted.items && NoSpace(c, s, true))))
            && (Size(s) <= c.size + 1 ==> Size(t) <= c.size + 1)
  {
    hide Put, Drop, DropOldest, Valid;
    if k in Live(s) {
      PromoteKeeps(c, s, k, v);
    } else if k in s.evicted.items {
      WithSpaceKeeps(c, s, true, k);
      var t := WithSpace(c, s, true);
      PromoteKeeps(c, t, k, v);
    } else {
      WithSpaceKeeps(c, s, false, k);
      var t := WithSpace(c, s, false);
      PutIs(t.recent, c.size, k, v);
    }
  }

  lemma LookedKeeps<K, V>(c: Params<V>, s: State<K, V>, k: K)
    requires ParamsOk(c) && Inv(c, s)
    ensures var t := Looked(c, s, k);
            Inv(c, t) && Size(t) <= Size(s) && forall x :: x in Live(t) ==> x in Live(s) && Live(t)[x] == Live(s)[x]
  {
    hide Put, Drop, Valid;
    if k in Live(s) {
      PromoteKeeps(c, s, k, Live(s)[k]);
    }
  }

  /** Looking a key up loses nothing. */
  lemma LookLosesNothing<K, V>(c: Params<V>, s: State<K, V>, k: K)
    requires ParamsOk(c) && Inv(c, s) && Size(s) <= c.size
    ensures Live(Looked(c, s, k)) == Live(s)
  {
    hide Put, Valid;
    if k in Live(s) {
      PutIs(s.frequent, c.size, k, Live(s)[k]);
      assert k in s.recent.items ==> s.recent.order != [] by {
        HasOrder(s.recent, k);
      }
    }
  }

  lemma HasOrder<K, V>(l: List<K, V>, k: K)
    requires Valid(l)
    ensures k in l.items ==> l.order != []
  {
  }

  lemma RemovedKeeps<K, V>(c: Params<V>, s: State<K, V>, k: K)
    requires ParamsOk(c) && Inv(c, s)
    ensures var t := Removed(s, k); Inv(c, t) && Size(t) <= Size(s) && Live(t) == Live(s) - {k}
  {
    hide Valid, Without;
    DropIs(s.recent, k);
    DropIs(s.frequent, k);
    DropIs(s.evicted, k);
  }

  // ----- Every sequence of operations -----

  function Apply<K, V>(c: Params<V>, s: State<K, V>, op: Op<K, V>): State<K, V> {
    match op
    case Get(k) => Looked(c, s, k)
    case Add(k, v) => Added(c, s, k, v)
    case Remove(k) => Removed(s, k)
  }

  function Run<K, V>(c: Params<V>, ops: seq<Op<K, V>>): State<K, V> {
    if ops == [] then State(Empty(), Empty(), Empty()) else Apply(c, Run(c, ops[..|ops| - 1]), ops[|ops| - 1])
  }

  /** The lists stay disjoint, and whatever the cache holds is what was added last. */
  lemma {:induction false} HitIsLastAdded<K, V>(c: Params<V>, ops: seq<Op<K, V>>)
    requires ParamsOk(c)
    ensures Inv(c, Run(c, ops))
    ensures forall k :: k in Live(Run(c, ops)) ==> LastAdded(ops, k) == Some(Live(Run(c, ops))[k])
  {
    if ops != [] {
      var before, op := ops[..|ops| - 1], ops[|ops| - 1];
      HitIsLastAdded(c, before);
      var s := Run(c, before);
      match op
      case Get(k) => LookedKeeps(c, s, k);
      case Add(k, v) => AddedKeeps(c, s, k, v);
      case Remove(k) => RemovedKeeps(c, s, k);
    }
  }

  /** The cache never holds more than its size, if not all of it is meant for recent entries. */
  lemma {:induction false} SizeIsKept<K, V>(c: Params<V>, ops: seq<Op<K, V>>)
    requires ParamsOk(c) && c.recentSize < c.size
    ensures Size(Run(c, ops)) <= c.size
  {
    if ops != [] {
      var before, op := ops[..|ops| - 1], ops[|ops| - 1];
      SizeIsKept(c, before);
      HitIsLastAdded(c, before);
      var s := Run(c, before);
      match op
      case Get(k) => LookedKeeps(c, s, k);
      case Add(k, v) => AddedKeeps(c, s, k, v);
      case Remove(k) => RemovedKeeps(c, s, k);
    }
  }

  /** Whatever the parameters are, the cache never holds more than one entry too many. */
  lemma {:induction false} AtMostOneTooMany<K, V>(c: Params<V>, ops: seq<Op<K, V>>)
    requires ParamsOk(c)
    ensures Size(Run(c, ops)) <= c.size + 1
  {
    if ops != [] {
      var before, op := ops[..|ops| - 1], ops[|ops| - 1];
      AtMostOneTooMany(c, before);
      HitIsLastAdded(c, before);
      var s := Run(c, before);
      match op
      case Get(k) => LookedKeeps(c, s, k);
      case Add(k, v) => AddedKeeps(c, s, k, v);
      case Remove(k) => RemovedKeeps(c, s, k);
    }
  }

  // ----- What is lost, and in which order -----

  /** The keys of both lists are in the order of their last use. */
  ghost predicate InOrder<K, V>(s: State<K, V>, ops: seq<Op<K, V>>) {
    ByUse(s.recent.order, ops) && ByUse(s.frequent.order, ops)
  }

  lemma PromoteInOrder<K, V>(c: Params<V>, s: State<K, V>, v: V, ops: seq<Op<K, V>>, op: Op<K, V>)
    requires Inv(c, s) && InOrder(s, ops) && !op.Remove?
    ensures InOrder(Promote(c, s, op.key, v), ops + [op])
  {
    hide ByUse, Put, Drop, Valid;
    DropByUse(s.recent, ops, op);
    PutByUse(s.frequent, c.size, v, ops, op);
  }

  lemma WithSpaceInOrder<K, V>(c: Params<V>, s: State<K, V>, fromEvicted: bool, ops: seq<Op<K, V>>)
    requires InOrder(s, ops)
    ensures InOrder(WithSpace(c, s, fromEvicted), ops)
  {
    hide ByUse, Put, DropOldest;
    DropOldestByUse(s.recent, ops);
    DropOldestByUse(s.frequent, ops);
  }

  lemma AddedInOrder<K, V>(c: Params<V>, s: State<K, V>, ops: seq<Op<K, V>>, k: K, v: V)
    requires ParamsOk(c) && Inv(c, s) && InOrder(s, ops)
    ensures InOrder(Added(c, s, k, v), ops + [Add(k, v)])
  {
    hide InOrder, Put, Drop, WithSpace, Promote, Valid;
    if k in Live(s) {
      PromoteInOrder(c, s, v, ops, Add(k, v));
    } else {
      var fromEvicted := k in s.evicted.items;
      var t := WithSpace(c, s, fromEvicted);
      WithSpaceInOrder(c, s, fromEvicted, ops);
      WithSpaceKeeps(c, s, fromEvicted, k);
      if fromEvicted {
        PromoteInOrder(c, t, v, ops, Add(k, v));
      } else {
        NewInOrder(c, t, ops, k, v);
      }
    }
  }

  lemma NewInOrder<K, V>(c: Params<V>, s: State<K, V>, ops: seq<Op<K, V>>, k: K, v: V)
    requires Inv(c, s) && InOrder(s, ops) && k !in s.frequent.items
    ensures InOrder(s.(recent := Put(s.recent, c.size, k, v)), ops + [Add(k, v)])
  {
    hide ByUse, Put, Drop, Valid;
    PutByUse(s.recent, c.size, v, ops, Add(k, v));
    DropByUse(s.frequent, ops, Add(k, v));
    NotThere(s.frequent, k);
  }

  lemma OthersInOrder<K, V>(c: Params<V>, s: State<K, V>, ops: seq<Op<K, V>>, op: Op<K, V>)
    requires Inv(c, s) && InOrder(s, ops)
    ensures InOrder(Removed(s, op.key), ops + [op])
    ensures op.key !in Live(s) ==> InOrder(s, ops + [op])
  {
    hide ByUse, Drop, Valid;
    DropByUse(s.recent, ops, op);
    DropByUse(s.frequent, ops, op);
    NotThere(s.recent, op.key);
    NotThere(s.frequent, op.key);
  }

  /** In both lists a key stands before another one exactly if its last use was earlier. */
  lemma {:induction false} ListsAreByUse<K, V>(c: Params<V>, ops: seq<Op<K, V>>)
    requires ParamsOk(c)
    ensures InOrder(Run(c, ops), ops)
  {
    hide Looked, Added, Removed;
    if ops != [] {
      hide InOrder;
      var before, op := ops[..|ops| - 1], ops[|ops| - 1];
      ListsAreByUse(c, before);
      HitIsLastAdded(c, before);
      var s := Run(c, before);
      assert before + [op] == ops;
      match op
      case Get(k) => LookedInOrder(c, s, before, k);
      case Add(k, v) => AddedInOrder(c, s, before, k, v);
      case Remove(k) => OthersInOrder(c, s, before, op);
    }
  }

  lemma LookedInOrder<K, V>(c: Params<V>, s: State<K, V>, ops: seq<Op<K, V>>, k: K)
    requires Inv(c, s) && InOrder(s, ops)
    ensures InOrder(Looked(c, s, k), ops + [Get(k)])
  {
    hide InOrder, Promote;
    if k in Live(s) {
      PromoteInOrder(c, s, Live(s)[k], ops, Get(k));
    } else {
      OthersInOrder(c, s, ops, Get(k));
    }
  }

  /** Whether the recent entries have to give one up. */
  predicate FromRecent<K, V>(c: Params<V>, s: State<K, V>, fromEvicted: bool) {
    s.recent.order != []
        && (|s.recent.order| > c.recentSize || (|s.recent.order| == c.recentSize && !fromEvicted))
  }

  /** The entry that a full cache gives up. */
  ghost predicate GivesUp<K, V>(c: Params<V>, s: State<K, V>, fromEvicted: bool, x: K) {
    && Size(s) >= c.size
    && if FromRecent(c, s, fromEvicted) then x == s.recent.order[0]
       else s.frequent.order != [] && x == s.frequent.order[0]
  }

  lemma WithSpaceLoses<K, V>(c: Params<V>, s: State<K, V>, fromEvicted: bool, x: K)
    requires ParamsOk(c) && Inv(c, s) && x in Live(s)
    ensures x !in Live(WithSpace(c, s, fromEvicted)) <==> GivesUp(c, s, fromEvicted, x)
    ensures x in s.recent.items && GivesUp(c, s, fromEvicted, x) ==> x in WithSpace(c, s, fromEvicted).evicted.items
  {
    hide Put, DropOldest, Valid;
    DropOldestIs(s.recent);
    DropOldestIs(s.frequent);
    if s.recent.order != [] {
      PutIs(s.evicted, c.evictSize, s.recent.order[0], c.nil);
    }
  }

  /**
   Adding a key loses nothing if the cache holds the key or has space, and otherwise exactly the entry that the longer
   of the two parts gives up. The key of a recent entry that is lost is remembered.
   */
  lemma AddedLoses<K, V>(c: Params<V>, s: State<K, V>, k: K, v: V, x: K)
    requires ParamsOk(c) && Inv(c, s) && Size(s) <= c.size && x in Live(s)
    ensures x !in Live(Added(c, s, k, v)) <==> k !in Live(s) && GivesUp(c, s, k in s.evicted.items, x)
    ensures x !in Live(Added(c, s, k, v)) && x in s.recent.items ==> x in Added(c, s, k, v).evicted.items
  {
    hide Put, Drop, Valid, WithSpace, GivesUp;
    if k in Live(s) {
      LookLosesNothing(c, s, k);
      PromotedKeys(c, s, k, v, Live(s)[k]);
    } else {
      var fromEvicted := k in s.evicted.items;
      var t := WithSpace(c, s, fromEvicted);
      WithSpaceLoses(c, s, fromEvicted, x);
      WithSpaceKeeps(c, s, fromEvicted, k);
      DroppedItems(t.recent, k);
      DroppedItems(t.evicted, k);
      PutIs(t.frequent, c.size, k, v);
      PutIs(t.recent, c.size, k, v);
    }
  }

  lemma PromotedKeys<K, V>(c: Params<V>, s: State<K, V>, k: K, v: V, v': V)
    ensures Live(Promote(c, s, k, v)).Keys == Live(Promote(c, s, k, v')).Keys
  {
  }

  /** A new key becomes a recent one; a key that is used again, or comes back after its eviction, a frequent one. */
  lemma UsedAgainIsFrequent<K, V>(c: Params<V>, s: State<K, V>, k: K, v: V)
    requires ParamsOk(c) && Inv(c, s)
    ensures var t := Added(c, s, k, v);
            if k in Live(s) || k in s.evicted.items then k in t.frequent.items && t.frequent.items[k] == v
            else k in t.recent.items && t.recent.items[k] == v
    ensures k in Live(s) ==> k in Looked(c, s, k).frequent.items
  {
    hide Put, Drop, Valid, WithSpace;
    PutIs(s.frequent, c.size, k, v);
    if k in Live(s) {
      PutIs(s.frequent, c.size, k, Live(s)[k]);
    } else {
      WithSpaceKeeps(c, s, k in s.evicted.items, k);
      var t := WithSpace(c, s, k in s.evicted.items);
      PutIs(t.frequent, c.size, k, v);
      PutIs(t.recent, c.size, k, v);
    }
  }

  /** Over every run: what a cache gives up is the entry of its list whose last use is the earliest. */
  lemma LosesLeastRecent<K, V>(c: Params<V>, ops: seq<Op<K, V>>, k: K, v: V, x: K)
    requires ParamsOk(c) && Size(Run(c, ops)) <= c.size
    requires x in Live(Run(c, ops)) && x !in Live(Run(c, ops + [Add(k, v)]))
    ensures var s := Run(c, ops);
            && k !in Live(s) && Size(s) == c.size
            && if FromRecent(c, s, k in s.evicted.items) then LeastRecent(s.recent.items.Keys, x, ops)
               else LeastRecent(s.frequent.items.Keys, x, ops)
  {
    hide Added;
    var s := Run(c, ops);
    assert (ops + [Add(k, v)])[..|ops|] == ops;
    HitIsLastAdded(c, ops);
    ListsAreByUse(c, ops);
    AddedLoses(c, s, k, v, x);
    if s.recent.order != [] {
      FirstIsLeastRecent(s.recent.order, s.recent.items.Keys, ops);
    }
    if s.frequent.order != [] {
      FirstIsLeastRecent(s.frequent.order, s.frequent.items.Keys, ops);
    }
  }

  // ----- When all of the cache is meant for recent entries -----

  function Adds<K(==), V>(keys: seq<K>, v: V): (ops: seq<Op<K, V>>)
    ensures |ops| == |keys| && forall i :: 0 <= i < |keys| ==> ops[i] == Add(keys[i], v)
  {
    seq(|keys|, i requires 0 <= i < |keys| => Add(keys[i], v))
  }

  lemma AddedFirst<K, V>(c: Params<V>, s: State<K, V>, k: K, v: V)
    requires ParamsOk(c) && Valid(s.recent) && |s.recent.order| < c.size && s.frequent == Empty()
             && s.evicted == Empty()
    requires k !in s.recent.items
    ensures Added(c, s, k, v) == s.(recent := List(s.recent.order + [k], s.recent.items[k := v]))
  {
    hide Put;
    PutAbsent(s.recent, c.size, k, v);
  }

  lemma {:induction false} FirstAdds<K, V>(c: Params<V>, keys: seq<K>, v: V)
    requires ParamsOk(c) && Distinct(keys) && |keys| <= c.size
    ensures var s := Run(c, Adds(keys, v));
            s.recent.order == keys && (forall k :: k in s.recent.items <==> k in keys) && s.frequent == Empty()
                && s.evicted == Empty()
  {
    hide Added;
    if keys != [] {
      var n := |keys| - 1;
      var s := Run(c, Adds(keys[..n], v));
      assert Adds(keys, v)[..n] == Adds(keys[..n], v);
      FirstAdds(c, keys[..n], v);
      HitIsLastAdded(c, Adds(keys[..n], v));
      assert keys[n] !in keys[..n];
      assert keys[..n] + [keys[n]] == keys;
      AddedFirst(c, s, keys[n], v);
    }
  }

  lemma FullStep<K, V>(c: Params<V>, s: State<K, V>, k: K, v: V)
    requires ParamsOk(c) && Inv(c, s) && c.recentSize == c.size == |s.recent.order| && s.frequent == Empty()
             && s.evicted == Empty()
    requires k !in s.recent.items
    ensures var t := Added(c, s, k, v);
            |t.recent.order| == c.size && t.frequent.order == [] && s.recent.order[0] in t.evicted.items
  {
    DropOldestIs(s.recent);
    PutIs(s.evicted, c.evictSize, s.recent.order[0], c.nil);
    PutIs(DropOldest(s.recent), c.size, k, v);
  }

  /** With one key more than there is space for, adding the first key again makes the cache too large. */
  lemma Overflows<K, V>(c: Params<V>, keys: seq<K>, v: V)
    requires ParamsOk(c) && c.recentSize == c.size && Distinct(keys) && |keys| == c.size + 1
    ensures Size(Run(c, Adds(keys, v) + [Add(keys[0], v)])) > c.size
  {
    hide Added, Valid;
    var n := c.size;
    var ops := Adds(keys, v);
    var s, t := Run(c, Adds(keys[..n], v)), Run(c, ops);
    assert ops[..n] == Adds(keys[..n], v);
    FirstAdds(c, keys[..n], v);
    HitIsLastAdded(c, ops[..n]);
    HitIsLastAdded(c, ops);
    assert t == Added(c, s, keys[n], v);
    assert keys[n] !in keys[..n];
    FullStep(c, s, keys[n], v);
    AddedKeeps(c, t, keys[0], v);
    assert (ops + [Add(keys[0], v)])[..n + 1] == ops;
  }

  // ----- The cache -----

  class TwoQueueCache<K(==), V> {
    const params: Params<V>
    const recent: Cache<K, V>
    const frequent: Cache<K, V>
    const recentEvict: Cache<K, V>

    constructor (params: Params<V>)
      requires ParamsOk(params)
      ensures this.params == params && Valid() && fresh(recent) && fresh(frequent) && fresh(recentEvict)
      ensures Now() == State(Empty(), Empty(), Empty())
    {
      this.params := params;
      recent := new Cache(params.size);
      frequent := new Cache(params.size);
      recentEvict := new Cache(params.evictSize);
    }

    ghost function Now(): State<K, V>
      reads recent, frequent, recentEvict
    {
      State(recent.State(), frequent.State(), recentEvict.State())
    }

    ghost predicate Valid()
      reads recent, frequent, recentEvict
    {
      && ParamsOk(params) && recent != frequent && recent != recentEvict && frequent != recentEvict
      && recent.size == params.size && frequent.size == params.size && recentEvict.size == params.evictSize
      && Inv(params, Now())
    }

    method Get(key: K) returns (value: Option<V>)
      requires Valid()
      modifies recent, frequent, recentEvict
      ensures Valid() && Now() == Looked(params, old(Now()), key)
      ensures value == if key in old(Live(Now())) then Some(old(Live(Now()))[key]) else None
    {
      hide Put, Drop;
      ghost var s := Now();
      LookedKeeps(params, s, key);
      NotInAny(s, key);
      value := frequent.Get(key);
      if value.Some? {
        return;
      }
      if key in recent.items {
        value := Some(recent.items[key]);
        var _ := recent.Remove(key);
        var _ := frequent.Add(key, value.value);
      }
    }

    method Add(key: K, value: V)
      requires Valid()
      modifies recent, frequent, recentEvict
      ensures Valid() && Now() == Added(params, old(Now()), key, value)
    {
      hide Put, Drop, DropOldest;
      ghost var s := Now();
      AddedKeeps(params, s, key, value);
      NotInAny(s, key);
      if key in frequent.items {
        var _ := frequent.Add(key, value);
        return;
      }
      if key in recent.items {
        var _ := recent.Remove(key);
        var _ := frequent.Add(key, value);
        return;
      }
      if key in recentEvict.items {
        WithSpaceKeeps(params, s, true, key);
        EnsureSpace(true);
        NotInAny(Now(), key);
        var _ := recentEvict.Remove(key);
        var _ := frequent.Add(key, value);
        return;
      }
      WithSpaceKeeps(params, s, false, key);
      EnsureSpace(false);
      var _ := recent.Add(key, value);
    }

    method EnsureSpace(fromEvicted: bool)
      requires Valid()
      modifies recent, frequent, recentEvict
      ensures Now() == WithSpace(params, old(Now()), fromEvicted)
    {
      var recentLen := |recent.order|;
      var freqLen := |frequent.order|;
      if recentLen + freqLen < params.size {
        return;
      }
      if recentLen > 0 && (recentLen > params.recentSize || (recentLen == params.recentSize && !fromEvicted)) {
        var k := recent.RemoveOldest();
        var _ := recentEvict.Add(k.value, params.nil);
        return;
      }
      var _ := frequent.RemoveOldest();
    }

    method Remove(key: K)
      requires Valid()
      modifies recent, frequent, recentEvict
      ensures Valid() && Now() == Removed(old(Now()), key)
    {
      hide Drop;
      RemovedKeeps(params, Now(), key);
      NotInAny(Now(), key);
      var found := frequent.Remove(key);
      if found {
        return;
      }
      found := recent.Remove(key);
      if found {
        return;
      }
      found := recentEvict.Remove(key);
    }
  }

  /** The sizes of the parts are fractions of the size; only a recent ratio of one takes all of it. */
  method New2QParams<K(==), V>(size: int, recentRatio: real, ghostRatio: real, nil: V)
      returns (r: Option<TwoQueueCache<K, V>>)
    ensures r.Some? <==> size > 0 && 0.0 <= recentRatio <= 1.0 && 0.0 <= ghostRatio <= 1.0
                         && Part(size, ghostRatio) >= 1.0
    ensures r.Some? ==>
              && r.value.Valid() && r.value.Now() == State(Empty(), Empty(), Empty()) && r.value.params.size == size
              && (r.value.params.recentSize < size <==> recentRatio < 1.0)
  {
    if size <= 0 || recentRatio < 0.0 || recentRatio > 1.0 || ghostRatio < 0.0 || ghostRatio > 1.0 {
      return None;
    }
    hide Part;
    var recentSize := Part(size, recentRatio).Floor;
    var evictSize := Part(size, ghostRatio).Floor;
    if evictSize <= 0 {
      return None;
    }
    Fraction(size, recentRatio);
    Fraction(size, ghostRatio);
    var cache := new TwoQueueCache<K, V>(Params(size, recentSize, evictSize, nil));
    return Some(cache);
  }

  function Part(size: nat, ratio: real): real {
    size as real * ratio
  }

  lemma Fraction(size: nat, ratio: real)
    requires size > 0 && 0.0 <= ratio <= 1.0
    ensures 0 <= Part(size, ratio).Floor <= size && (Part(size, ratio).Floor < size <==> ratio < 1.0)
  {
    hide Part;
    PartIs(size, ratio);
  }

  lemma PartIs(size: nat, ratio: real)
    requires size > 0 && 0.0 <= ratio <= 1.0
    ensures 0.0 <= Part(size, ratio) <= size as real && (Part(size, ratio) < size as real <==> ratio < 1.0)
  {
    Scale(size as real, ratio);
  }

  lemma Scale(x: real, ratio: real)
    requires x > 0.0 && 0.0 <= ratio <= 1.0
    ensures 0.0 <= x * ratio <= x && (ratio < 1.0 <==> x * ratio < x)
  {
    assert x - x * ratio == x * (1.0 - ratio);
  }

  /** Dropping a key that a list does not have changes nothing. */
  lemma NotInAny<K, V>(s: State<K, V>, k: K)
    requires Valid(s.recent) && Valid(s.frequent) && Valid(s.evicted)
    ensures k !in s.recent.items ==> Drop(s.recent, k) == s.recent
    ensures k !in s.frequent.items ==> Drop(s.frequent, k) == s.frequent
    ensures k !in s.evicted.items ==> Drop(s.evicted, k) == s.evicted
  {
    assert k !in s.recent.items ==> s.recent.items - {k} == s.recent.items;
    assert k !in s.frequent.items ==> s.frequent.items - {k} == s.frequent.items;
    assert k !in s.evicted.items ==> s.evicted.items - {k} == s.evicted.items;
  }
}
