/** The operations on a cache, and what they promise about the entries it holds. */
module CacheOps {
  import opened Sequences
  import opened Wrappers

  datatype Op<K(==), V> = Get(key: K) | Add(key: K, value: V) | Remove(key: K)

  /** `live'` holds `v` for `k`, and otherwise only what `live` holds. */
  ghost predicate Updated<K, V>(live: map<K, V>, k: K, v: V, live': map<K, V>) {
    k in live' && live'[k] == v && forall x :: x in live' && x != k ==> x in live && live'[x] == live[x]
  }

  /** The value that was added last under a key, if the key has not been removed since. */
  function LastAdded<K(==), V>(ops: seq<Op<K, V>>, k: K): Option<V> {
    if ops == [] then None
    else
      var op := ops[|ops| - 1];
      if op.key != k || op.Get? then LastAdded(ops[..|ops| - 1], k)
      else if op.Add? then Some(op.value)
      else None
  }

  /** When a key was last added or looked up: the number of that operation, or zero. */
  function LastUse<K(==), V>(ops: seq<Op<K, V>>, k: K): (n: nat)
    ensures n <= |ops|
  {
    if ops == [] then 0
    else if ops[|ops| - 1].key == k && !ops[|ops| - 1].Remove? then |ops|
    else LastUse(ops[..|ops| - 1], k)
  }

  /** The keys are in the order in which they were last used. */
  ghost predicate ByUse<K, V>(order: seq<K>, ops: seq<Op<K, V>>) {
    forall i, j :: 0 <= i < j < |order| ==> LastUse(ops, order[i]) < LastUse(ops, order[j])
  }

  lemma LaterUse<K, V>(ops: seq<Op<K, V>>, op: Op<K, V>, k: K)
    ensures LastUse(ops + [op], k) == if op.key == k && !op.Remove? then |ops| + 1 else LastUse(ops, k)
  {
    assert (ops + [op])[..|ops|] == ops;
  }

  lemma WithoutByUse<K, V>(order: seq<K>, k: K, ops: seq<Op<K, V>>)
    requires ByUse(order, ops)
    ensures ByUse(Without(order, k), ops)
  {
    if k in order {
      var n := IndexOf(order, k);
      var t := order[..n] + order[n + 1..];
      assert forall j :: 0 <= j < |t| ==> t[j] == order[if j < n then j else j + 1];
    }
  }

  /** An operation on another key, or one that uses no key, changes nothing about the order. */
  lemma OthersByUse<K, V>(order: seq<K>, ops: seq<Op<K, V>>, op: Op<K, V>)
    requires ByUse(order, ops) && (op.key !in order || op.Remove?)
    ensures ByUse(order, ops + [op])
  {
    forall k | k in order ensures LastUse(ops + [op], k) == LastUse(ops, k) {
      LaterUse(ops, op, k);
    }
  }

  /** A key that is used comes last. */
  lemma UsedByUse<K, V>(order: seq<K>, ops: seq<Op<K, V>>, op: Op<K, V>)
    requires ByUse(order, ops) && op.key !in order && !op.Remove?
    ensures ByUse(order + [op.key], ops + [op])
  {
    OthersByUse(order, ops, op);
    LaterUse(ops, op, op.key);
    var t := order + [op.key];
    forall i, j | 0 <= i < j < |t| ensures LastUse(ops + [op], t[i]) < LastUse(ops + [op], t[j]) {
      LaterUse(ops, op, t[i]);
    }
  }

  /** Of some keys, the one whose last use is the earliest. */
  ghost predicate LeastRecent<K, V>(keys: set<K>, k: K, ops: seq<Op<K, V>>) {
    k in keys && forall x :: x in keys && x != k ==> LastUse(ops, k) < LastUse(ops, x)
  }

  lemma FirstIsLeastRecent<K, V>(order: seq<K>, keys: set<K>, ops: seq<Op<K, V>>)
    requires ByUse(order, ops) && order != [] && forall k :: k in keys <==> k in order
    ensures LeastRecent(keys, order[0], ops)
  {
  }
}
