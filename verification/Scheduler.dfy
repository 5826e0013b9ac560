/** Choosing the path for the next packet: the lowest round-trip time, whatever the order of the paths. */
module Scheduler {
  import opened Sequences
  import opened Wrappers

  const INITIAL_PATH: nat := 0

  /** A round-trip time of zero means that the path has not been measured. */
  datatype Path = Path(sendingAllowed: bool, potentiallyFailed: bool, smoothedRtt: nat)

  type Paths = map<nat, Path>

  /** An order in which a loop may go through the paths. */
  ghost predicate Lists(order: seq<nat>, paths: Paths) {
    Distinct(order) && forall id :: id in order <==> id in paths
  }

  function Quota(quotas: map<nat, nat>, id: nat): nat {
    if id in quotas then quotas[id] else 0
  }

  predicate Eligible(paths: Paths, retransmission: bool, id: nat) {
    && id in paths && id != INITIAL_PATH
    && (retransmission || paths[id].sendingAllowed) && !paths[id].potentiallyFailed
  }

  predicate Measured(paths: Paths, retransmission: bool, id: nat) {
    Eligible(paths, retransmission, id) && paths[id].smoothedRtt != 0
  }

  /** Among the given paths, the fastest measured one; if none is measured, one that has been used least. */
  ghost predicate Best(paths: Paths, quotas: map<nat, nat>, retransmission: bool, among: seq<nat>,
                       choice: Option<nat>) {
    match choice
    case None => forall id :: id in among ==> !Eligible(paths, retransmission, id)
    case Some(best) =>
      && best in among && Eligible(paths, retransmission, best)
      && (forall id :: id in among && Measured(paths, retransmission, id)
                       ==> 0 < paths[best].smoothedRtt <= paths[id].smoothedRtt)
      && (paths[best].smoothedRtt == 0 ==>
            forall id :: id in among && Eligible(paths, retransmission, id)
                         ==> Quota(quotas, best) <= Quota(quotas, id))
  }

  /** A path that has been used less than the one where a duplicate comes from. */
  predicate LessUsed(paths: Paths, quotas: map<nat, nat>, from: nat, id: nat) {
    id in paths && id != INITIAL_PATH && id != from && Quota(quotas, id) < Quota(quotas, from)
  }

  ghost predicate SameQuotas(quotas: map<nat, nat>, quotas': map<nat, nat>) {
    forall id :: Quota(quotas, id) == Quota(quotas', id)
  }

  /** What a path that comes up does to the choice so far. */
  lemma BestStep(paths: Paths, quotas: map<nat, nat>, retransmission: bool, among: seq<nat>, choice: Option<nat>,
                 id: nat)
    requires Best(paths, quotas, retransmission, among, choice)
    ensures !Eligible(paths, retransmission, id) ==> Best(paths, quotas, retransmission, among + [id], choice)
    ensures Eligible(paths, retransmission, id) ==>
              var better :=
                choice.None?
                || (if paths[id].smoothedRtt == 0 then
                      paths[choice.value].smoothedRtt == 0 && Quota(quotas, id) <= Quota(quotas, choice.value)
                    else paths[choice.value].smoothedRtt == 0
                         || paths[id].smoothedRtt < paths[choice.value].smoothedRtt);
              Best(paths, quotas, retransmission, among + [id], if better then Some(id) else choice)
  {
  }

  class Choice {
    var quotas: map<nat, nat>

    constructor ()
      ensures quotas == map[]
    {
      quotas := map[];
    }

    /** The loop over the paths. */
    method Fastest(paths: Paths, retransmission: bool, order: seq<nat>) returns (choice: Option<nat>)
      requires Lists(order, paths)
      modifies this
      ensures SameQuotas(old(quotas), quotas) && Best(paths, quotas, retransmission, order, choice)
    {
      choice := None;
      var lowerRtt := 0;
      var selectedId := 255;
      var i := 0;
      while i < |order|
        invariant 0 <= i <= |order| && SameQuotas(old(quotas), quotas)
        invariant Best(paths, quotas, retransmission, order[..i], choice)
        invariant lowerRtt == if choice.Some? then paths[choice.value].smoothedRtt else 0
        invariant choice.Some? ==> selectedId == choice.value
      {
        var pathId := order[i];
        var path := paths[pathId];
        BestStep(paths, quotas, retransmission, order[..i], choice, pathId);
        assert order[..i + 1] == order[..i] + [pathId];
        i := i + 1;
        if !retransmission && !path.sendingAllowed {
          continue;
        }
        if path.potentiallyFailed {
          continue;
        }
        if pathId == INITIAL_PATH {
          continue;
        }
        var currentRtt := path.smoothedRtt;
        if lowerRtt != 0 && currentRtt == 0 {
          continue;
        }
        if currentRtt == 0 {
          var currentQuota := 0;
          if pathId in quotas {
            currentQuota := quotas[pathId];
          } else {
            quotas := quotas[pathId := 0];
          }
          var lowerQuota := if selectedId in quotas then quotas[selectedId] else 0;
          if choice.Some? && currentQuota > lowerQuota {
            continue;
          }
        }
        if currentRtt != 0 && lowerRtt != 0 && choice.Some? && currentRtt >= lowerRtt {
          continue;
        }
        lowerRtt := currentRtt;
        choice := Some(pathId);
        selectedId := pathId;
      }
      assert order[..i] == order;
    }

    /** A path other than the one a duplicate comes from, that has been used less. */
    method Alternative(paths: Paths, from: nat, order: seq<nat>) returns (choice: Option<nat>)
      requires Lists(order, paths)
      ensures choice.Some? ==> LessUsed(paths, quotas, from, choice.value)
      ensures choice.None? ==> forall id :: !LessUsed(paths, quotas, from, id)
    {
      var currentQuota := if from in quotas then quotas[from] else 0;
      var i := 0;
      while i < |order|
        invariant 0 <= i <= |order| && forall id :: id in order[..i] ==> !LessUsed(paths, quotas, from, id)
      {
        var pathId := order[i];
        if pathId != INITIAL_PATH && pathId != from {
          if (if pathId in quotas then quotas[pathId] else 0) < currentQuota {
            return Some(pathId);
          }
        }
        i := i + 1;
      }
      assert order[..i] == order;
      return None;
    }

    method SelectPathLowLatency(paths: Paths, retransmission: bool, streamRetransmission: bool, from: nat,
                                order: seq<nat>, order': seq<nat>)
      returns (choice: Option<nat>)
      requires Lists(order, paths) && Lists(order', paths)
      requires (|paths| <= 1 ==> INITIAL_PATH in paths) && (retransmission && streamRetransmission ==> from in paths)
      modifies this
      ensures SameQuotas(old(quotas), quotas)
      ensures |paths| <= 1 ==>
                choice == if retransmission || paths[INITIAL_PATH].sendingAllowed then Some(INITIAL_PATH) else None
      ensures |paths| > 1 ==>
                if retransmission && streamRetransmission && paths[from].smoothedRtt == 0
                   && exists id :: LessUsed(paths, old(quotas), from, id) then
                  choice.Some? && LessUsed(paths, old(quotas), from, choice.value)
                else Best(paths, quotas, retransmission, order', choice)
    {
      if |paths| <= 1 {
        if !retransmission && !paths[INITIAL_PATH].sendingAllowed {
          return None;
        }
        return Some(INITIAL_PATH);
      }
      if retransmission && streamRetransmission && paths[from].smoothedRtt == 0 {
        choice := Alternative(paths, from, order);
        if choice.Some? {
          return;
        }
      }
      choice := Fastest(paths, retransmission, order');
    }
  }

  /** The choice does not depend on the order, except among paths that are equally good. */
  lemma OrderDoesNotMatter(paths: Paths, quotas: map<nat, nat>, retransmission: bool, order: seq<nat>, order': seq<nat>,
                           a: Option<nat>, b: Option<nat>)
    requires Lists(order, paths) && Lists(order', paths)
    requires Best(paths, quotas, retransmission, order, a) && Best(paths, quotas, retransmission, order', b)
    ensures a.Some? <==> b.Some?
    ensures a.Some? ==>
              && paths[a.value].smoothedRtt == paths[b.value].smoothedRtt
              && (paths[a.value].smoothedRtt == 0 ==> Quota(quotas, a.value) == Quota(quotas, b.value))
  {
    if a.Some? && b.Some? {
      assert Eligible(paths, retransmission, a.value) && Eligible(paths, retransmission, b.value);
      assert a.value in order' && b.value in order;
    }
  }
}
