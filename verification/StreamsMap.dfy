/**
 The streams of a connection: opening them on either side, removing them, and visiting them in turn.
 Streams are known by their numbers; one side opens the odd ones, the other side the even ones.
 */
module StreamsMap {
  import Bits
  import opened Sequences
  import opened Wrappers

  datatype Perspective = Client | Server

  predicate Own(pers: Perspective, id: nat) {
    id % 2 == if pers.Client? then 1 else 0
  }

  // ----- Counting -----

  /** How many of the streams have the given parity. */
  function Count(ids: seq<nat>, parity: nat): nat {
    if ids == [] then 0 else Count(ids[..|ids| - 1], parity) + if ids[|ids| - 1] % 2 == parity then 1 else 0
  }

  lemma CountAppend(ids: seq<nat>, id: nat, parity: nat)
    ensures Count(ids + [id], parity) == Count(ids, parity) + if id % 2 == parity then 1 else 0
  {
    assert (ids + [id])[..|ids|] == ids;
  }

  lemma {:induction false} CountCut(ids: seq<nat>, i: nat, parity: nat)
    requires i < |ids|
    ensures Count(ids, parity) == Count(ids[..i] + ids[i + 1..], parity) + if ids[i] % 2 == parity then 1 else 0
  {
    var n := |ids| - 1;
    if i == n {
      assert ids[..i] + ids[i + 1..] == ids[..n];
    } else {
      CountCut(ids[..n], i, parity);
      assert ids[..n][..i] + ids[..n][i + 1..] == (ids[..i] + ids[i + 1..])[..n - 1];
    }
  }

  // ----- The invariant -----

  datatype State = State(
    open: seq<nat>,
    removed: set<nat>,
    next: nat,
    highest: nat,
    outgoing: nat,
    incoming: nat)

  /** The streams that have been opened so far, on both sides. */
  predicate WasOpened(pers: Perspective, s: State, id: nat) {
    id > 0 && if Own(pers, id) then id < s.next else id <= s.highest
  }

  /**
   The open streams and the removed ones are exactly those that have been opened, and none is both. The
   counters are the numbers of open streams of each parity.
   */
  ghost predicate Inv(pers: Perspective, s: State) {
    && Distinct(s.open) && Own(pers, s.next) && s.next > 0 && (s.highest == 0 || !Own(pers, s.highest))
    && (forall id :: id in s.open || id in s.removed <==> WasOpened(pers, s, id))
    && (forall id :: id in s.open ==> id !in s.removed)
    && s.outgoing == Count(s.open, 0) && s.incoming == Count(s.open, 1)
  }

  function Counted(s: State, id: nat): State {
    if id % 2 == 0 then s.(outgoing := s.outgoing + 1) else s.(incoming := s.incoming + 1)
  }

  function OpenedOwn(s: State): State {
    Counted(s, s.next).(open := s.open + [s.next], next := s.next + 2)
  }

  function OpenedPeer(s: State, id: nat): State {
    Counted(s, id).(open := s.open + [id], highest := id)
  }

  /** The stream that the peer opens next. */
  function NextPeer(pers: Perspective, s: State): nat {
    if s.highest == 0 && pers.Server? then 1 else s.highest + 2
  }

  function Removed(s: State, id: nat): State {
    var t := s.(open := Without(s.open, id), removed := s.removed + {id});
    if id % 2 == 0 then t.(outgoing := if s.outgoing > 0 then s.outgoing - 1 else 0)
    else t.(incoming := if s.incoming > 0 then s.incoming - 1 else 0)
  }

  lemma OpenOwnKeeps(pers: Perspective, s: State)
    requires Inv(pers, s)
    ensures Inv(pers, OpenedOwn(s)) && s.next !in s.open && s.next !in s.removed
  {
    var t := OpenedOwn(s);
    CountAppend(s.open, s.next, 0);
    CountAppend(s.open, s.next, 1);
    assert !WasOpened(pers, s, s.next);
    forall id ensures id in t.open || id in t.removed <==> WasOpened(pers, t, id) {
      assert id in s.open || id in s.removed <==> WasOpened(pers, s, id);
    }
  }

  lemma PeerIsNext(pers: Perspective, s: State)
    requires s.highest == 0 || !Own(pers, s.highest)
    ensures var k := NextPeer(pers, s); k > s.highest && !Own(pers, k)
  {
  }

  lemma PeerIsNew(pers: Perspective, s: State, x: nat)
    requires s.highest == 0 || !Own(pers, s.highest)
    ensures var k := NextPeer(pers, s); WasOpened(pers, OpenedPeer(s, k), x) <==> WasOpened(pers, s, x) || x == k
  {
    PeerIsNext(pers, s);
  }

  lemma OpenPeerKeeps(pers: Perspective, s: State)
    requires Inv(pers, s)
    ensures var id := NextPeer(pers, s);
            Inv(pers, OpenedPeer(s, id)) && id !in s.open && id !in s.removed && id > s.highest && !Own(pers, id)
  {
    hide NextPeer;
    var k := NextPeer(pers, s);
    var t := OpenedPeer(s, k);
    PeerIsNext(pers, s);
    CountAppend(s.open, k, 0);
    CountAppend(s.open, k, 1);
    assert !WasOpened(pers, s, k);
    forall id ensures id in t.open || id in t.removed <==> WasOpened(pers, t, id) {
      assert id in s.open || id in s.removed <==> WasOpened(pers, s, id);
      PeerIsNew(pers, s, id);
    }
  }

  lemma RemoveKeeps(pers: Perspective, s: State, id: nat)
    requires Inv(pers, s) && id in s.open
    ensures Inv(pers, Removed(s, id))
    ensures if id % 2 == 0 then s.outgoing > 0 else s.incoming > 0
  {
    hide Count, Distinct;
    var t := Removed(s, id);
    var i := IndexOf(s.open, id);
    CountCut(s.open, i, 0);
    CountCut(s.open, i, 1);
    WithoutIs(s.open, id);
    forall x ensures x in t.open || x in t.removed <==> WasOpened(pers, t, x) {
      assert x in s.open || x in s.removed <==> WasOpened(pers, s, x);
    }
  }

  // ----- Every run -----

  function Fresh(pers: Perspective): State {
    State([], {}, if pers.Client? then 1 else 2, 0, 0, 0)
  }

  ghost predicate Step(pers: Perspective, s: State, t: State) {
    || t == OpenedOwn(s)
    || t == OpenedPeer(s, NextPeer(pers, s))
    || exists id :: id in s.open && t == Removed(s, id)
  }

  ghost predicate IsRun(pers: Perspective, ss: seq<State>) {
    ss != [] && ss[0] == Fresh(pers) && forall i :: 0 <= i < |ss| - 1 ==> Step(pers, ss[i], ss[i + 1])
  }

  lemma {:induction false} RunKeepsInv(pers: Perspective, ss: seq<State>, i: nat)
    requires IsRun(pers, ss) && i < |ss|
    ensures Inv(pers, ss[i])
  {
    if i > 0 {
      RunKeepsInv(pers, ss, i - 1);
      assert Step(pers, ss[i - 1], ss[i]);
      hide Inv, Removed, OpenedOwn, OpenedPeer;
      StepKeepsInv(pers, ss[i - 1], ss[i]);
    }
  }

  lemma StepKeepsInv(pers: Perspective, s: State, t: State)
    requires Inv(pers, s) && Step(pers, s, t)
    ensures Inv(pers, t) && s.removed <= t.removed
  {
    hide Inv;
    OpenOwnKeeps(pers, s);
    OpenPeerKeeps(pers, s);
    if id :| id in s.open && t == Removed(s, id) {
      RemoveKeeps(pers, s, id);
    }
  }

  lemma RemovedIsClosed(pers: Perspective, s: State, id: nat)
    requires Inv(pers, s)
    ensures id in s.removed ==> id !in s.open
  {
  }

  /** A number that has been removed is never open again. */
  lemma {:induction false} NeverReopened(pers: Perspective, ss: seq<State>, i: nat, j: nat, id: nat)
    requires IsRun(pers, ss) && i <= j < |ss| && id in ss[i].removed
    ensures id in ss[j].removed && id !in ss[j].open
    decreases j
  {
    hide Inv, Step;
    RunKeepsInv(pers, ss, j);
    RemovedIsClosed(pers, ss[j], id);
    if i < j {
      NeverReopened(pers, ss, i, j - 1, id);
      RunKeepsInv(pers, ss, j - 1);
      assert Step(pers, ss[j - 1], ss[j]);
      StepKeepsInv(pers, ss[j - 1], ss[j]);
    }
  }

  // ----- Visiting -----

  /** What the callback says about a stream. */
  datatype Reply = Continue | Stop | Error

  function Rotated(ids: seq<nat>, start: nat): (r: seq<nat>)
    ensures |r| == |ids| && forall i :: 0 <= i < |ids| ==> r[i] == ids[(i + start) % |ids|]
  {
    seq(|ids|, i requires 0 <= i < |ids| => ids[(i + start) % |ids|])
  }

  /** The streams that are visited in turn; the first class has no mark. */
  predicate Belongs(marks: set<nat>, marked: bool, id: nat) {
    id != 1 && id != 3 && (id in marks <==> marked)
  }

  function Filter(ids: seq<nat>, marks: set<nat>, marked: bool): (r: seq<nat>)
    ensures forall id :: id in r <==> id in ids && Belongs(marks, marked, id)
  {
    if ids == [] then []
    else Filter(ids[..|ids| - 1], marks, marked) + if Belongs(marks, marked, ids[|ids| - 1]) then [ids[|ids| - 1]]
        else []
  }

  /** The crypto stream and the header stream. */
  function Prior(open: seq<nat>): (r: seq<nat>)
    ensures Distinct(r) && forall id :: id in r <==> id in open && (id == 1 || id == 3)
  {
    (if 1 in open then [1] else []) + if 3 in open then [3] else []
  }

  /** The streams are visited in order, up to the first one at which the callback does not want to go on. */
  function Walk(ids: seq<nat>, fn: nat -> Reply): seq<nat> {
    if ids == [] then [] else if fn(ids[0]).Continue? then [ids[0]] + Walk(ids[1..], fn) else [ids[0]]
  }

  predicate Ended(visited: seq<nat>, fn: nat -> Reply) {
    visited != [] && !fn(visited[|visited| - 1]).Continue?
  }

  predicate Erred(visited: seq<nat>, fn: nat -> Reply) {
    visited != [] && fn(visited[|visited| - 1]).Error?
  }

  function Turn(open: seq<nat>, start: nat, marks: set<nat>, marked: bool): seq<nat> {
    Filter(Rotated(open, start), marks, marked)
  }

  /** The prior streams, then the ones without a mark if sending is allowed, then the ones with a mark. */
  function Pass(open: seq<nat>, marks: set<nat>, allowed: bool, startFirst: nat, startSecond: nat,
                fn: nat -> Reply): seq<nat> {
    var prior := Walk(Prior(open), fn);
    if Ended(prior, fn) then prior
    else
      var first := if allowed then Walk(Turn(open, startFirst, marks, false), fn) else [];
      if Erred(first, fn) then prior + first
      else prior + first + Walk(Turn(open, startSecond, marks, true), fn)
  }

  lemma ModIs(i: nat, start: nat, n: nat)
    requires i < n
    ensures var r := start % n; (i + start) % n == if i + r < n then i + r else i + r - n
  {
    var r, q := start % n, start / n;
    if i + r < n {
      Bits.RemainderIs(i + start, n, q, i + r);
    } else {
      assert n * (q + 1) == n * q + n;
      Bits.RemainderIs(i + start, n, q + 1, i + r - n);
    }
  }

  /** Starting anywhere, each stream comes up exactly once. */
  lemma RotatedIs(ids: seq<nat>, start: nat)
    requires ids != []
    ensures var r := start % |ids|; Rotated(ids, start) == ids[r..] + ids[..r]
  {
    var r := start % |ids|;
    forall i | 0 <= i < |ids| ensures Rotated(ids, start)[i] == (ids[r..] + ids[..r])[i] {
      ModIs(i, start, |ids|);
    }
  }

  lemma RotatedDistinct(ids: seq<nat>, start: nat)
    requires Distinct(ids)
    ensures Distinct(Rotated(ids, start)) && forall id :: id in Rotated(ids, start) <==> id in ids
  {
    if ids != [] {
      RotatedIs(ids, start);
      var r := start % |ids|;
      assert ids == ids[..r] + ids[r..];
    }
  }

  lemma {:induction false} FilterDistinct(ids: seq<nat>, marks: set<nat>, marked: bool)
    requires Distinct(ids)
    ensures Distinct(Filter(ids, marks, marked))
  {
    if ids != [] {
      var n := |ids| - 1;
      FilterDistinct(ids[..n], marks, marked);
      assert ids[n] !in ids[..n];
    }
  }

  lemma TurnIs(open: seq<nat>, start: nat, marks: set<nat>, marked: bool)
    requires Distinct(open)
    ensures Distinct(Turn(open, start, marks, marked))
    ensures forall id :: id in Turn(open, start, marks, marked) <==> id in open && Belongs(marks, marked, id)
  {
    RotatedDistinct(open, start);
    FilterDistinct(Rotated(open, start), marks, marked);
  }

  lemma {:induction false} WalkIs(ids: seq<nat>, fn: nat -> Reply)
    ensures Walk(ids, fn) <= ids && (forall i :: 0 <= i < |Walk(ids, fn)| - 1 ==> fn(Walk(ids, fn)[i]).Continue?)
    ensures !Ended(Walk(ids, fn), fn) ==> Walk(ids, fn) == ids
  {
    if ids != [] && fn(ids[0]).Continue? {
      WalkIs(ids[1..], fn);
    }
  }

  lemma WalkOnce(ids: seq<nat>, fn: nat -> Reply)
    requires Distinct(ids)
    ensures Distinct(Walk(ids, fn)) && forall id :: id in Walk(ids, fn) ==> id in ids
  {
    WalkIs(ids, fn);
  }

  lemma JoinDistinct(a: seq<nat>, b: seq<nat>)
    requires Distinct(a) && Distinct(b) && forall id :: id in a ==> id !in b
    ensures Distinct(a + b)
  {
    forall i, j | 0 <= i < j < |a + b| ensures (a + b)[i] != (a + b)[j] {
      if i < |a| <= j {
        assert a[i] in a && b[j - |a|] in b;
      }
    }
  }

  /** A pass visits no stream twice, and only open ones. */
  lemma PassVisitsOnce(open: seq<nat>, marks: set<nat>, allowed: bool, startFirst: nat, startSecond: nat,
                       fn: nat -> Reply)
    requires Distinct(open)
    ensures var v := Pass(open, marks, allowed, startFirst, startSecond, fn);
            Distinct(v) && forall id :: id in v ==> id in open
  {
    hide Walk, Ended, Erred, Turn, Distinct;
    var p, f, s := Prior(open), Turn(open, startFirst, marks, false), Turn(open, startSecond, marks, true);
    TurnIs(open, startFirst, marks, false);
    TurnIs(open, startSecond, marks, true);
    WalkOnce(p, fn);
    WalkOnce(f, fn);
    WalkOnce(s, fn);
    JoinDistinct(Walk(p, fn), Walk(f, fn));
    JoinDistinct(Walk(p, fn), Walk(s, fn));
    JoinDistinct(Walk(p, fn) + Walk(f, fn), Walk(s, fn));
    assert Walk(p, fn) + [] == Walk(p, fn);
  }

  /** If sending is allowed and the callback never stops it, a pass visits every open stream. */
  lemma PassVisitsAll(open: seq<nat>, marks: set<nat>, startFirst: nat, startSecond: nat, fn: nat -> Reply, id: nat)
    requires Distinct(open) && id in open && forall k :: k in open ==> fn(k).Continue?
    ensures id in Pass(open, marks, true, startFirst, startSecond, fn)
  {
    hide Walk, Turn, Distinct;
    var p, f, s := Prior(open), Turn(open, startFirst, marks, false), Turn(open, startSecond, marks, true);
    TurnIs(open, startFirst, marks, false);
    TurnIs(open, startSecond, marks, true);
    NeverEnds(p, fn);
    NeverEnds(f, fn);
    NeverEnds(s, fn);
    assert id in p || id in f || id in s;
  }

  lemma NeverEnds(ids: seq<nat>, fn: nat -> Reply)
    requires forall k :: k in ids ==> fn(k).Continue?
    ensures Walk(ids, fn) == ids && !Ended(ids, fn) && !Erred(ids, fn)
  {
    WalkIs(ids, fn);
    if Walk(ids, fn) != [] {
      assert Walk(ids, fn)[|Walk(ids, fn)| - 1] in ids;
    }
  }

  lemma {:induction false} FilterAppend(a: seq<nat>, b: seq<nat>, marks: set<nat>, marked: bool)
    ensures Filter(a + b, marks, marked) == Filter(a, marks, marked) + Filter(b, marks, marked)
  {
    if b == [] {
      assert a + b == a;
    } else {
      assert (a + b)[..|a + b| - 1] == a + b[..|b| - 1];
      FilterAppend(a, b[..|b| - 1], marks, marked);
    }
  }

  lemma {:induction false} WalkAppend(a: seq<nat>, b: seq<nat>, fn: nat -> Reply)
    requires forall i :: 0 <= i < |a| ==> fn(a[i]).Continue?
    ensures Walk(a + b, fn) == a + Walk(b, fn)
  {
    if a == [] {
      assert a + b == b;
    } else {
      assert (a + b)[1..] == a[1..] + b;
      WalkAppend(a[1..], b, fn);
      assert [a[0]] + (a[1..] + Walk(b, fn)) == a + Walk(b, fn);
    }
  }

  /** A round-robin index after a number of visits. */
  function Moved(index: nat, visits: nat, n: nat): nat {
    if visits == 0 || n == 0 then index else (Moved(index, visits - 1, n) + 1) % n
  }

  /** How many visits were no errors. */
  function Visits(visited: seq<nat>, fn: nat -> Reply): nat {
    if Erred(visited, fn) then |visited| - 1 else |visited|
  }

  /** The two round-robin indices after a pass. */
  function NextIndices(open: seq<nat>, marks: set<nat>, allowed: bool, startFirst: nat, startSecond: nat,
                       fn: nat -> Reply): (nat, nat) {
    if Ended(Walk(Prior(open), fn), fn) then (startFirst, startSecond)
    else
      var first := if allowed then Walk(Turn(open, startFirst, marks, false), fn) else [];
      var second := if Erred(first, fn) then [] else Walk(Turn(open, startSecond, marks, true), fn);
      (Moved(startFirst, Visits(first, fn), |open|), Moved(startSecond, Visits(second, fn), |open|))
  }

  // ----- Pass after pass -----

  /** What one pass depends on besides the streams. */
  datatype PassInput = PassInput(allowed: bool, fn: nat -> Reply)

  /** The indices after some passes. */
  function Indices(open: seq<nat>, marks: set<nat>, passes: seq<PassInput>, startFirst: nat,
                   startSecond: nat): (nat, nat) {
    if passes == [] then (startFirst, startSecond)
    else
      var last := passes[|passes| - 1];
      var (first, second) := Indices(open, marks, passes[..|passes| - 1], startFirst, startSecond);
      NextIndices(open, marks, last.allowed, first, second, last.fn)
  }

  /** The streams that pass `i` visits. */
  function PassAt(open: seq<nat>, marks: set<nat>, passes: seq<PassInput>, startFirst: nat, startSecond: nat,
                  i: nat): seq<nat>
    requires i < |passes|
  {
    var (first, second) := Indices(open, marks, passes[..i], startFirst, startSecond);
    Pass(open, marks, passes[i].allowed, first, second, passes[i].fn)
  }

  /** How many streams of a class are among the visited ones, not counting one that failed. */
  function Served(visited: seq<nat>, fn: nat -> Reply, marks: set<nat>, marked: bool): nat {
    |Filter(if Erred(visited, fn) then visited[..|visited| - 1] else visited, marks, marked)|
  }

  function TotalServed(open: seq<nat>, marks: set<nat>, marked: bool, passes: seq<PassInput>, startFirst: nat,
                       startSecond: nat): nat
  {
    if passes == [] then 0
    else
      var n := |passes| - 1;
      TotalServed(open, marks, marked, passes[..n], startFirst, startSecond)
      + Served(PassAt(open, marks, passes, startFirst, startSecond, n), passes[n].fn, marks, marked)
  }

  lemma SameRemainder(a: nat, b: nat, q: nat, n: nat)
    requires 0 < n && q < n && a % n == b % n
    ensures (q + a) % n == (q + b) % n
  {
    ModIs(q, a, n);
    ModIs(q, b, n);
  }

  lemma OneMore(a: nat, b: nat, n: nat)
    requires 0 < n && a % n == b % n
    ensures ((a + 1) % n) % n == (b + 1) % n
  {
    if n == 1 {
    } else {
      SameRemainder(a, b, 1, n);
    }
  }

  lemma {:induction false} MovedIs(index: nat, visits: nat, n: nat)
    requires 0 < n
    ensures Moved(index, visits, n) % n == (index + visits) % n
  {
    if visits > 0 {
      MovedIs(index, visits - 1, n);
      OneMore(Moved(index, visits - 1, n), index + visits - 1, n);
    }
  }

  lemma {:induction false} FilterAll(ids: seq<nat>, marks: set<nat>, marked: bool, marked': bool)
    requires forall id :: id in ids ==> Belongs(marks, marked, id)
    ensures Filter(ids, marks, marked') == if marked == marked' then ids else []
  {
    if ids != [] {
      var n := |ids| - 1;
      FilterAll(ids[..n], marks, marked, marked');
      assert ids[n] in ids && ids == ids[..n] + [ids[n]];
    }
  }

  lemma {:induction false} FilterNone(ids: seq<nat>, marks: set<nat>, marked: bool)
    requires forall id :: id in ids ==> !Belongs(marks, marked, id)
    ensures Filter(ids, marks, marked) == []
  {
    if ids != [] {
      var n := |ids| - 1;
      FilterNone(ids[..n], marks, marked);
      assert ids[n] in ids;
    }
  }

  lemma {:induction false} FilterShort(ids: seq<nat>, marks: set<nat>, marked: bool)
    ensures |Filter(ids, marks, marked)| <= |ids|
  {
    if ids != [] {
      FilterShort(ids[..|ids| - 1], marks, marked);
    }
  }

  /** A stream at position `q` is among the first `q + 1` of its class. */
  lemma EarlyEnough(ids: seq<nat>, marks: set<nat>, marked: bool, q: nat, v: seq<nat>)
    requires q < |ids| && Belongs(marks, marked, ids[q]) && v <= Filter(ids, marks, marked) && q < |v|
    ensures ids[q] in v
  {
    hide Filter;
    var a, b := ids[..q + 1], ids[q + 1..];
    assert ids == a + b;
    FilterAppend(a, b, marks, marked);
    FilterShort(a, marks, marked);
    FilterLast(a, marks, marked);
    var f := Filter(a, marks, marked);
    assert Filter(ids, marks, marked)[|f| - 1] == f[|f| - 1] == ids[q];
    assert v[|f| - 1] == ids[q];
  }

  lemma FilterLast(ids: seq<nat>, marks: set<nat>, marked: bool)
    requires ids != [] && Belongs(marks, marked, ids[|ids| - 1])
    ensures var f := Filter(ids, marks, marked); f != [] && f[|f| - 1] == ids[|ids| - 1]
  {
  }

  /** The streams of a class that a pass visits. */
  function ClassWalk(open: seq<nat>, marks: set<nat>, marked: bool, p: PassInput, startFirst: nat,
                     startSecond: nat): seq<nat>
  {
    var first := if p.allowed then Walk(Turn(open, startFirst, marks, false), p.fn) else [];
    if Ended(Walk(Prior(open), p.fn), p.fn) then []
    else if !marked then first
    else if Erred(first, p.fn) then []
    else Walk(Turn(open, startSecond, marks, true), p.fn)
  }

  lemma ClassWalkIs(open: seq<nat>, marks: set<nat>, marked: bool, p: PassInput, startFirst: nat, startSecond: nat)
    ensures var w := ClassWalk(open, marks, marked, p, startFirst, startSecond);
            && w <= Turn(open, if marked then startSecond else startFirst, marks, marked)
            && (forall id :: id in w ==> Belongs(marks, marked, id))
            && var (first, second) := NextIndices(open, marks, p.allowed, startFirst, startSecond, p.fn);
               (if marked then second else first)
               == Moved(if marked then startSecond else startFirst, Visits(w, p.fn), |open|)
  {
    hide Walk, Ended, Erred;
    WalkIs(Turn(open, startFirst, marks, false), p.fn);
    WalkIs(Turn(open, startSecond, marks, true), p.fn);
    NoError(p.fn);
  }

  lemma {:induction false} WalkMembers(ids: seq<nat>, fn: nat -> Reply)
    ensures forall id :: id in Walk(ids, fn) ==> id in ids
  {
    WalkIs(ids, fn);
  }

  /** The visits that move the index of a class are the streams of the class that the pass serves. */
  lemma ServedIs(open: seq<nat>, marks: set<nat>, marked: bool, p: PassInput, startFirst: nat, startSecond: nat)
    ensures var v := Pass(open, marks, p.allowed, startFirst, startSecond, p.fn);
            var w := ClassWalk(open, marks, marked, p, startFirst, startSecond);
            && (forall id :: id in w ==> id in v)
            && Served(v, p.fn, marks, marked) == Visits(w, p.fn)
  {
    hide Walk, Filter, Turn, Ended, Served, Prior;
    var prior := Walk(Prior(open), p.fn);
    var first := if p.allowed then Walk(Turn(open, startFirst, marks, false), p.fn) else [];
    var second := Walk(Turn(open, startSecond, marks, true), p.fn);
    PriorServesNone(open, p.fn, marks, marked);
    WalkMembers(Turn(open, startFirst, marks, false), p.fn);
    WalkMembers(Turn(open, startSecond, marks, true), p.fn);
    TurnBelongs(open, startFirst, marks, false);
    TurnBelongs(open, startSecond, marks, true);
    LastDecides(prior, [], p.fn);
    NoError(p.fn);
    if !Ended(prior, p.fn) {
      ServedInParts(prior, first, p.fn, marks, marked, false);
      if !Erred(first, p.fn) {
        ServedInParts(prior + first, second, p.fn, marks, marked, true);
        LastDecides(prior, first, p.fn);
      }
    }
  }

  lemma PriorServesNone(open: seq<nat>, fn: nat -> Reply, marks: set<nat>, marked: bool)
    ensures Served(Walk(Prior(open), fn), fn, marks, marked) == 0
  {
    hide Filter, Prior;
    var prior := Walk(Prior(open), fn);
    WalkMembers(Prior(open), fn);
    FilterNone(prior, marks, marked);
    if prior != [] {
      var rest := prior[..|prior| - 1];
      assert forall id :: id in rest ==> id in prior;
      FilterNone(rest, marks, marked);
    }
  }

  lemma TurnBelongs(open: seq<nat>, start: nat, marks: set<nat>, marked: bool)
    ensures forall id :: id in Turn(open, start, marks, marked) ==> Belongs(marks, marked, id)
  {
  }

  /** Behind streams that have not failed, the streams of a class count for their class. */
  lemma ServedInParts(before: seq<nat>, w: seq<nat>, fn: nat -> Reply, marks: set<nat>, marked: bool, class': bool)
    requires !Erred(before, fn) && forall id :: id in w ==> Belongs(marks, class', id)
    ensures Served(before + w, fn, marks, marked)
            == Served(before, fn, marks, marked) + if marked == class' then Visits(w, fn) else 0
  {
    hide Filter;
    LastDecides(before, w, fn);
    if Erred(w, fn) {
      var n := |w| - 1;
      assert (before + w)[..|before + w| - 1] == before + w[..n];
      FilterAppend(before, w[..n], marks, marked);
      FilterAll(w[..n], marks, class', marked);
    } else {
      FilterAppend(before, w, marks, marked);
      FilterAll(w, marks, class', marked);
    }
  }

  ghost predicate IsVisited(open: seq<nat>, marks: set<nat>, passes: seq<PassInput>, startFirst: nat, startSecond: nat,
                            id: nat) {
    exists i :: 0 <= i < |passes| && id in PassAt(open, marks, passes, startFirst, startSecond, i)
  }

  lemma VisitedStays(open: seq<nat>, marks: set<nat>, passes: seq<PassInput>, startFirst: nat, startSecond: nat,
                     id: nat, n: nat)
    requires n <= |passes| && IsVisited(open, marks, passes[..n], startFirst, startSecond, id)
    ensures IsVisited(open, marks, passes, startFirst, startSecond, id)
  {
    var i :| 0 <= i < n && id in PassAt(open, marks, passes[..n], startFirst, startSecond, i);
    assert passes[..n][..i] == passes[..i];
    assert id in PassAt(open, marks, passes, startFirst, startSecond, i);
  }

  /** A stream that is `d` positions behind the start gets its turn before more than `d` streams have been served. */
  lemma {:induction false} TurnComes(open: seq<nat>, marks: set<nat>, marked: bool, passes: seq<PassInput>,
                                     startFirst: nat, startSecond: nat, d: nat)
    requires d < |open|
    requires var start := if marked then startSecond else startFirst;
             Belongs(marks, marked, open[(d + start) % |open|])
    ensures var start := if marked then startSecond else startFirst;
            var total := TotalServed(open, marks, marked, passes, startFirst, startSecond);
            var now := Indices(open, marks, passes, startFirst, startSecond);
            && (if marked then now.1 else now.0) % |open| == (start + total) % |open|
            && (total > d ==> IsVisited(open, marks, passes, startFirst, startSecond, open[(d + start) % |open|]))
  {
    hide Walk, Filter, Turn, NextIndices, Pass, Served, Moved;
    if passes != [] {
      var n := |passes| - 1;
      var start := if marked then startSecond else startFirst;
      var x := open[(d + start) % |open|];
      TurnComes(open, marks, marked, passes[..n], startFirst, startSecond, d);
      var before := TotalServed(open, marks, marked, passes[..n], startFirst, startSecond);
      var (first, second) := Indices(open, marks, passes[..n], startFirst, startSecond);
      var index := if marked then second else first;
      var w := ClassWalk(open, marks, marked, passes[n], first, second);
      ClassWalkIs(open, marks, marked, passes[n], first, second);
      ServedIs(open, marks, marked, passes[n], first, second);
      IndexMoves(start, index, before, Visits(w, passes[n].fn), |open|);
      if before > d {
        VisitedStays(open, marks, passes, startFirst, startSecond, x, n);
      } else if before + Visits(w, passes[n].fn) > d {
        InTurn(open, marks, marked, start, index, before, d, w);
        assert x in PassAt(open, marks, passes, startFirst, startSecond, n);
      }
    }
  }

  lemma IndexMoves(start: nat, index: nat, before: nat, visits: nat, n: nat)
    requires 0 < n && index % n == (start + before) % n
    ensures Moved(index, visits, n) % n == (start + (before + visits)) % n
  {
    MovedIs(index, visits, n);
    Shifted(index, start + before, visits, n);
  }

  lemma {:induction false} Shifted(a: nat, b: nat, k: nat, n: nat)
    requires 0 < n && a % n == b % n
    ensures (a + k) % n == (b + k) % n
  {
    if k > 0 {
      Shifted(a, b, k - 1, n);
      OneMore(a + k - 1, b + k - 1, n);
      OneMore(a + k - 1, a + k - 1, n);
    }
  }

  lemma InTurn(open: seq<nat>, marks: set<nat>, marked: bool, start: nat, index: nat, before: nat, d: nat, w: seq<nat>)
    requires before <= d < |open| && index % |open| == (start + before) % |open| && d - before < |w|
    requires w <= Turn(open, index, marks, marked) && Belongs(marks, marked, open[(d + start) % |open|])
    ensures open[(d + start) % |open|] in w
  {
    var q := d - before;
    SameRemainder(index, start + before, q, |open|);
    assert q + (start + before) == d + start;
    assert Rotated(open, index)[q] == open[(d + start) % |open|];
    EarlyEnough(Rotated(open, index), marks, marked, q, w);
  }

  /**
   No stream waits for ever: while the open streams stay the same, each stream of a class has been visited by the time
   that the passes have served as many streams of its class as there are open streams.
   */
  lemma NoStarvation(open: seq<nat>, marks: set<nat>, marked: bool, passes: seq<PassInput>, startFirst: nat,
                     startSecond: nat, id: nat)
    requires id in open && Belongs(marks, marked, id)
    requires TotalServed(open, marks, marked, passes, startFirst, startSecond) >= |open|
    ensures IsVisited(open, marks, passes, startFirst, startSecond, id)
  {
    hide IsVisited, TotalServed;
    var start := if marked then startSecond else startFirst;
    var n := |open|;
    var p :| 0 <= p < n && open[p] == id;
    var r := start % n;
    var d := if p >= r then p - r else p + n - r;
    ModIs(d, start, n);
    TurnComes(open, marks, marked, passes, startFirst, startSecond, d);
  }

  // ----- The map -----

  /** The state when the peer has opened all its streams up to a number. */
  function OpenedPeers(pers: Perspective, s: State, to: nat): State
    decreases if to > s.highest then to - s.highest else 0
  {
    var id := NextPeer(pers, s);
    if id > to then s else OpenedPeers(pers, OpenedPeer(s, id), to)
  }

  lemma {:induction false} OneMorePeer(pers: Perspective, s: State, to: nat)
    requires var t := OpenedPeers(pers, s, to); t.highest == to
    ensures var t := OpenedPeers(pers, s, to); var id := NextPeer(pers, t);
            OpenedPeers(pers, s, id) == OpenedPeer(t, id)
    decreases if to > s.highest then to - s.highest else 0
  {
    var k := NextPeer(pers, s);
    var t := OpenedPeers(pers, s, to);
    if k <= to {
      OneMorePeer(pers, OpenedPeer(s, k), to);
    }
  }

  datatype Opened =
    | Stream          // the stream is open
    | Gone            // the stream is closed, or not open yet
    | Invalid         // the stream is not the peer's to open
    | TooMany

  /** The round-robin index after a stream has been cut out of the list. */
  function IndexAfter(open: seq<nat>, id: nat, index: nat): nat
    requires id in open
  {
    if IndexOf(open, id) < index then index - 1 else index
  }

  /**
   The adjusted index still points at the same stream, and the one that is left alone does exactly if it is in front of
   the cut.
   */
  lemma IndexFollows(open: seq<nat>, id: nat, index: nat)
    requires Distinct(open) && id in open && index < |open| && open[index] != id
    ensures var rest := Without(open, id);
            && IndexAfter(open, id, index) < |rest| && rest[IndexAfter(open, id, index)] == open[index]
            && (index < |rest| && rest[index] == open[index] <==> index < IndexOf(open, id))
  {
    hide IndexOf;
    var i, rest := IndexOf(open, id), Without(open, id);
    assert rest == open[..i] + open[i + 1..];
    if index < i {
      assert rest[index] == open[index];
    } else {
      assert rest[index - 1] == open[index];
      assert index < |rest| ==> rest[index] == open[index + 1];
    }
  }

  class Streams {
    const perspective: Perspective
    const maxIncoming: nat
    const maxOutgoing: nat
    var streams: set<nat>
    var openStreams: seq<nat>
    var marks: map<nat, bool>
    var nextStream: nat
    var highestByPeer: nat
    var numOutgoing: nat
    var numIncoming: nat
    var roundRobinIndex: nat
    var unreliableRobinIndex: nat
    ghost var removed: set<nat>

    constructor (perspective: Perspective, maxIncoming: nat, maxOutgoing: nat)
      ensures this.perspective == perspective && this.maxIncoming == maxIncoming && this.maxOutgoing == maxOutgoing
      ensures Valid() && openStreams == [] && removed == {} && marks == map[]
    {
      this.perspective, this.maxIncoming, this.maxOutgoing := perspective, maxIncoming, maxOutgoing;
      streams, openStreams, marks, removed := {}, [], map[], {};
      nextStream := if perspective.Client? then 1 else 2;
      highestByPeer, numOutgoing, numIncoming, roundRobinIndex, unreliableRobinIndex := 0, 0, 0, 0, 0;
    }

    ghost function Now(): State
      reads this
    {
      State(openStreams, removed, nextStream, highestByPeer, numOutgoing, numIncoming)
    }

    ghost predicate Valid()
      reads this
    {
      Inv(perspective, Now()) && forall id :: id in openStreams <==> id in streams
    }

    /** List a stream; `marker` says whether it is unreliable, if that is known. */
    method PutStream(id: nat, marker: Option<bool>) returns (ok: bool)
      modifies this`streams, this`openStreams, this`marks
      ensures ok == (id !in old(streams))
      ensures ok ==> streams == old(streams) + {id} && openStreams == old(openStreams) + [id]
      ensures ok ==> marks == if marker.Some? then old(marks)[id := marker.value] else old(marks)
    {
      if id in streams {
        return false;
      }
      streams := streams + {id};
      openStreams := openStreams + [id];
      if marker.Some? {
        marks := marks[id := marker.value];
      }
      return true;
    }

    method OpenRemoteStream(id: nat, marker: Option<bool>) returns (ok: bool)
      requires Valid() && id == NextPeer(perspective, Now())
      modifies this
      ensures Valid() && ok == (old(numIncoming) < maxIncoming)
      ensures Now() == if ok then OpenedPeer(old(Now()), id) else old(Now())
      ensures marks == if ok && marker.Some? then old(marks)[id := marker.value] else old(marks)
    {
      if numIncoming >= maxIncoming {
        return false;
      }
      OpenPeerKeeps(perspective, Now());
      hide Inv;
      if perspective.Server? {
        numIncoming := numIncoming + 1;
      } else {
        numOutgoing := numOutgoing + 1;
      }
      if id > highestByPeer {
        highestByPeer := id;
      }
      ok := PutStream(id, marker);
    }

    /** Open a stream of our own. */
    method OpenStreamImpl(unreliable: bool) returns (id: Option<nat>)
      requires Valid()
      modifies this
      ensures Valid() && id == if old(numOutgoing) < maxOutgoing then Some(old(nextStream)) else None
      ensures Now() == if id.Some? then OpenedOwn(old(Now())) else old(Now())
      ensures id.Some? ==> marks == old(marks)[id.value := unreliable]
    {
      if numOutgoing >= maxOutgoing {
        return None;
      }
      OpenOwnKeeps(perspective, Now());
      ParityOfOwn(perspective, Now());
      hide Inv;
      id := Some(nextStream);
      if perspective.Server? {
        numOutgoing := numOutgoing + 1;
      } else {
        numIncoming := numIncoming + 1;
      }
      nextStream := nextStream + 2;
      var _ := PutStream(id.value, Some(unreliable));
    }

    /** What is known about a stream without opening anything; nothing if the peer is about to open it. */
    method Classify(id: nat) returns (r: Option<Opened>)
      requires Valid()
      ensures r == if id in streams then Some(Stream)
                   else if Own(perspective, id) then Some(if id <= nextStream then Gone else Invalid)
                   else if id <= highestByPeer then Some(Gone)
                   else None
    {
      if id in streams {
        return Some(Stream);
      }
      if perspective.Server? {
        if id % 2 == 0 {
          return Some(if id <= nextStream then Gone else Invalid);
        }
      } else if id % 2 == 1 {
        return Some(if id <= nextStream then Gone else Invalid);
      }
      if id <= highestByPeer {
        return Some(Gone);
      }
      return None;
    }

    /** All streams of the peer up to the one asked for are opened, as far as the limit allows. */
    method GetOrOpenStream(id: nat) returns (r: Opened)
      requires Valid()
      modifies this
      ensures Valid() && removed == old(removed) && marks == old(marks)
      ensures Now() == OpenedPeers(perspective, old(Now()), highestByPeer) && highestByPeer >= old(highestByPeer)
      ensures r.Stream? <==> id in streams
      ensures id in old(streams) || Own(perspective, id) || id <= old(highestByPeer) ==> Now() == old(Now())
      ensures id !in old(streams) && Own(perspective, id) ==> r == if id <= nextStream then Gone else Invalid
      ensures id !in old(streams) && !Own(perspective, id) ==>
                r == if id <= old(highestByPeer) then Gone else if highestByPeer == id then Stream else TooMany
      ensures r.TooMany? ==> numIncoming >= maxIncoming
    {
      hide Inv;
      var known := Classify(id);
      if known.Some? {
        return known.value;
      }
      var sid := highestByPeer + 2;
      if sid == 2 && perspective.Server? {
        sid := 1;
      }
      ghost var s := Now();
      PeerParity(perspective, s, id);
      Missing(perspective, s, id);
      while sid <= id
        invariant Valid() && sid == NextPeer(perspective, Now()) && removed == old(removed) && marks == old(marks)
        invariant s.highest <= highestByPeer <= id && sid % 2 == id % 2 && sid <= id + 2
        invariant Now() == OpenedPeers(perspective, s, highestByPeer)
        invariant highestByPeer + 2 == sid || (highestByPeer == 0 && sid == 1)
      {
        OneMorePeer(perspective, s, highestByPeer);
        var ok := OpenRemoteStream(sid, None);
        if !ok {
          Missing(perspective, Now(), id);
          return TooMany;
        }
        sid := sid + 2;
      }
      Present(perspective, Now(), id);
      return Stream;
    }

    /** At most one stream of the peer is opened: the one that comes next. */
    method GetOrOpenStreamType(id: nat, marker: bool) returns (r: Opened)
      requires Valid()
      modifies this
      ensures Valid() && removed == old(removed)
      ensures r.Stream? <==> id in streams
      ensures id in old(streams) || Own(perspective, id) || id <= old(highestByPeer) || old(numIncoming) >= maxIncoming
              ==> Now() == old(Now())
      ensures id !in old(streams) && !Own(perspective, id) && id > old(highestByPeer) ==>
                var next := NextPeer(perspective, old(Now()));
                if old(numIncoming) >= maxIncoming then r == TooMany
                else Now() == OpenedPeer(old(Now()), next) && marks == old(marks)[next := marker]
                     && r == if id == next then Stream else Gone
    {
      hide Inv;
      var known := Classify(id);
      if known.Some? {
        return known.value;
      }
      var sid := highestByPeer + 2;
      if sid == 2 && perspective.Server? {
        sid := 1;
      }
      Missing(perspective, Now(), id);
      var ok := OpenRemoteStream(sid, Some(marker));
      if !ok {
        return TooMany;
      }
      return if id in streams then Stream else Gone;
    }

    /** Cut a stream out of the list, and let the round-robin index point at the same stream as before. */
    method Unlist(id: nat)
      requires Distinct(openStreams) && id in openStreams
      modifies this`openStreams, this`roundRobinIndex
      ensures openStreams == Without(old(openStreams), id)
      ensures roundRobinIndex == IndexAfter(old(openStreams), id, old(roundRobinIndex))
      ensures old(roundRobinIndex) < |old(openStreams)| && old(openStreams[roundRobinIndex]) != id ==>
                roundRobinIndex < |openStreams| && openStreams[roundRobinIndex] == old(openStreams[roundRobinIndex])
    {
      if roundRobinIndex < |openStreams| && openStreams[roundRobinIndex] != id {
        IndexFollows(openStreams, id, roundRobinIndex);
      }
      var i := 0;
      while openStreams[i] != id
        invariant i < |openStreams| && id !in openStreams[..i]
        decreases |openStreams| - i
      {
        assert id in openStreams[i + 1..];
        i := i + 1;
      }
      OnlyIndex(openStreams, id, i);
      openStreams := openStreams[..i] + openStreams[i + 1..];
      if i < roundRobinIndex {
        roundRobinIndex := roundRobinIndex - 1;
      }
    }

    /** Stop listing a stream; its number does not come back. */
    method RemoveStream(id: nat) returns (ok: bool)
      requires Valid()
      modifies this
      ensures Valid() && ok == (id in old(streams)) && marks == old(marks)
      ensures Now() == if ok then Removed(old(Now()), id) else old(Now())
      ensures ok ==> id in old(openStreams) && roundRobinIndex == IndexAfter(old(openStreams), id, old(roundRobinIndex))
      ensures unreliableRobinIndex == old(unreliableRobinIndex)
    {
      if id !in streams {
        return false;
      }
      RemoveKeeps(perspective, Now(), id);
      NoDuplicates(perspective, Now());
      hide Inv, Distinct;
      StillListed(openStreams, streams, id);
      if id % 2 == 0 {
        numOutgoing := numOutgoing - 1;
      } else {
        numIncoming := numIncoming - 1;
      }
      Unlist(id);
      streams := streams - {id};
      removed := removed + {id};
      return true;
    }

    /** Visit the streams of one class, starting from an index; `moved` is the index afterwards. */
    method VisitClass(start: nat, index: nat, marked: bool, fn: nat -> Reply) returns (visited: seq<nat>, moved: nat)
      requires |streams| == |openStreams|
      ensures visited == Walk(Turn(openStreams, start, marks.Keys, marked), fn)
      ensures moved == Moved(index, Visits(visited, fn), |openStreams|)
    {
      hide Walk, Filter, Moved, Belongs;
      visited, moved := [], index;
      var numStreams := |streams|;
      ghost var order := Rotated(openStreams, start);
      NoneVisited(marks.Keys, marked);
      NoError(fn);
      var i := 0;
      while i < numStreams
        invariant 0 <= i <= numStreams == |openStreams| && visited == Filter(order[..i], marks.Keys, marked)
        invariant (forall j :: 0 <= j < |visited| ==> fn(visited[j]).Continue?)
                  && moved == Moved(index, |visited|, numStreams)
      {
        var id := openStreams[(i + start) % numStreams];
        FilterStep(order, i, marks.Keys, marked);
        MovedNext(index, |visited|, numStreams);
        IsBelonging(marks.Keys, marked, id);
        if id != 1 && id != 3 && (id in marks) == marked {
          visited := visited + [id];
          var reply := fn(id);
          if !reply.Continue? {
            StopsHere(order, i, marks.Keys, marked, fn);
            if !reply.Error? {
              moved := (moved + 1) % numStreams;
            }
            return;
          }
          moved := (moved + 1) % numStreams;
        }
        i := i + 1;
      }
      assert order[..i] == order;
      WalkAppend(visited, [], fn);
      NoWalk(fn);
      assert visited + [] == visited;
    }

    /** Visit the crypto stream and the header stream. */
    method VisitPrior(fn: nat -> Reply) returns (visited: seq<nat>)
      requires Valid()
      ensures visited == Walk(Prior(openStreams), fn)
    {
      hide Inv;
      WalkPrior(openStreams, fn);
      visited := [];
      if 1 in streams {
        visited := visited + [1];
        if !fn(1).Continue? {
          return;
        }
      }
      if 3 in streams {
        visited := visited + [3];
      }
    }

    /** One pass over the streams. A stop in the first class does not keep the second one from being visited. */
    method RoundRobinIterate(fn: nat -> Reply, sendingAllowed: bool) returns (visited: seq<nat>, ok: bool)
      requires Valid()
      modifies this`roundRobinIndex, this`unreliableRobinIndex
      ensures visited == Pass(openStreams, marks.Keys, sendingAllowed, old(unreliableRobinIndex), old(roundRobinIndex),
                              fn)
      ensures (unreliableRobinIndex, roundRobinIndex)
           == NextIndices(openStreams, marks.Keys, sendingAllowed, old(unreliableRobinIndex), old(roundRobinIndex), fn)
      ensures ok == !Erred(visited, fn)
    {
      NoDuplicates(perspective, Now());
      DistinctSize(openStreams, streams);
      hide Inv, Turn, Walk, Distinct, Erred, Ended, Moved, Visits;
      var start, startUnreliable := roundRobinIndex, unreliableRobinIndex;
      visited := VisitPrior(fn);
      LastDecides(visited, [], fn);
      NoError(fn);
      if Ended(visited, fn) {
        return visited, !Erred(visited, fn);
      }
      if sendingAllowed {
        var first, moved := VisitClass(startUnreliable, unreliableRobinIndex, false, fn);
        LastDecides(visited, first, fn);
        unreliableRobinIndex := moved;
        visited := visited + first;
        if Erred(first, fn) {
          return visited, false;
        }
      } else {
        assert visited + [] == visited;
      }
      var second, moved := VisitClass(start, roundRobinIndex, true, fn);
      LastDecides(visited, second, fn);
      roundRobinIndex := moved;
      visited := visited + second;
      ok := !Erred(second, fn);
    }
  }

  lemma LastDecides(a: seq<nat>, b: seq<nat>, fn: nat -> Reply)
    ensures Erred(a + b, fn) == (Erred(b, fn) || (b == [] && Erred(a, fn))) && (Erred(a, fn) ==> Ended(a, fn))
    ensures b == [] ==> a + b == a
  {
    assert b != [] ==> (a + b)[|a + b| - 1] == b[|b| - 1];
  }

  lemma NoError(fn: nat -> Reply)
    ensures !Erred([], fn) && Visits([], fn) == 0 && forall x, n :: Moved(x, 0, n) == x
  {
  }

  lemma WalkPrior(open: seq<nat>, fn: nat -> Reply)
    ensures Walk(Prior(open), fn) == (if 1 in open then [1] else []) + if 3 in open
            && (1 in open ==> fn(1).Continue?) then [3] else []
  {
    assert [1, 3][1..] == [3] && [1] + [3] == [1, 3];
    assert [1][1..] == [] && [3][1..] == [];
  }

  lemma MovedNext(index: nat, visits: nat, n: nat)
    requires 0 < n
    ensures Moved(index, visits + 1, n) == (Moved(index, visits, n) + 1) % n
  {
  }

  lemma IsBelonging(marks: set<nat>, marked: bool, id: nat)
    ensures Belongs(marks, marked, id) <==> id != 1 && id != 3 && (id in marks <==> marked)
  {
  }

  lemma NoneVisited(marks: set<nat>, marked: bool)
    ensures Filter([], marks, marked) == []
  {
  }

  lemma NoWalk(fn: nat -> Reply)
    ensures Walk([], fn) == []
  {
  }

  lemma FilterStep(order: seq<nat>, i: nat, marks: set<nat>, marked: bool)
    requires i < |order|
    ensures Filter(order[..i + 1], marks, marked)
            == Filter(order[..i], marks, marked) + if Belongs(marks, marked, order[i]) then [order[i]] else []
  {
    assert order[..i + 1][..i] == order[..i];
  }

  lemma StopsHere(order: seq<nat>, i: nat, marks: set<nat>, marked: bool, fn: nat -> Reply)
    requires i < |order| && Belongs(marks, marked, order[i]) && !fn(order[i]).Continue?
    requires forall j :: 0 <= j < |Filter(order[..i], marks, marked)|
                         ==> fn(Filter(order[..i], marks, marked)[j]).Continue?
    ensures Walk(Filter(order, marks, marked), fn) == Filter(order[..i], marks, marked) + [order[i]]
  {
    hide Filter;
    var a, b := Filter(order[..i], marks, marked), Filter(order[i + 1..], marks, marked);
    assert order == order[..i + 1] + order[i + 1..];
    FilterAppend(order[..i + 1], order[i + 1..], marks, marked);
    FilterStep(order, i, marks, marked);
    assert Filter(order, marks, marked) == a + ([order[i]] + b);
    WalkAppend(a, [order[i]] + b, fn);
    assert ([order[i]] + b)[0] == order[i];
  }

  lemma NoDuplicates(pers: Perspective, s: State)
    requires Inv(pers, s)
    ensures Distinct(s.open)
  {
  }

  lemma OnlyIndex(ids: seq<nat>, id: nat, i: nat)
    requires Distinct(ids) && i < |ids| && ids[i] == id
    ensures IndexOf(ids, id) == i
  {
  }

  lemma StillListed(ids: seq<nat>, all: set<nat>, id: nat)
    requires Distinct(ids) && forall k :: k in ids <==> k in all
    ensures forall k :: k in Without(ids, id) <==> k in all - {id}
  {
    WithoutIs(ids, id);
  }

  lemma ParityOfOwn(pers: Perspective, s: State)
    requires Inv(pers, s)
    ensures s.next % 2 == if pers.Client? then 1 else 0
  {
  }

  /** The peer's streams have one parity. */
  lemma PeerParity(pers: Perspective, s: State, id: nat)
    requires Inv(pers, s) && !Own(pers, id)
    ensures NextPeer(pers, s) % 2 == id % 2
  {
  }

  lemma Missing(pers: Perspective, s: State, id: nat)
    requires Inv(pers, s) && !Own(pers, id) && id > s.highest
    ensures id !in s.open && id !in s.removed
  {
  }

  lemma Present(pers: Perspective, s: State, id: nat)
    requires Inv(pers, s) && !Own(pers, id) && 0 < id <= s.highest && id !in s.removed
    ensures id in s.open
  {
  }
}
