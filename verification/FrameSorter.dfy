/**
 The receive buffer of a stream. Frames arrive in any order, overlapping and more than once.
 The buffer keeps a sorted list of the gaps that are still missing and a map from offsets to
 queued frames.

 Entries of the map may be stale: a frame that swallows a whole covered region deletes only the
 first entry of that region. The invariant is therefore not that entries are disjoint, but that
 every covered region can be walked entry by entry from its start to the next gap.
 */
module FrameSorter {
  import opened Wire
  import opened Wrappers

  const MAX_GAPS: nat := 2500

  datatype Interval = Interval(start: nat, end: nat)

  datatype PushError =
    | NoError
    | EmptyStreamData
    | DuplicateStreamData
    | NoGapFound
    | NoEndGapFound
    | TooManyGaps

  datatype SorterState = SorterState(queued: map<nat, StreamFrame>, gaps: seq<Interval>, readPosition: nat)

  // ----- Gaps -----

  /** Gaps are non-empty, ascending, separated from each other, and lie above `lo`. */
  ghost predicate Ordered(lo: int, g: seq<Interval>)
    decreases |g|
  {
    g == [] || (lo < g[0].start < g[0].end && Ordered(g[0].end, g[1..]))
  }

  /** Where the region behind the last gap of `g` starts. */
  ghost function Behind(p: int, g: seq<Interval>): int {
    if g == [] then p else g[|g| - 1].end
  }

  /** Byte `x` lies in one of the gaps. */
  ghost predicate InGap(g: seq<Interval>, x: nat)
    decreases |g|
  {
    g != [] && (g[0].start <= x < g[0].end || InGap(g[1..], x))
  }

  ghost predicate GapsOk(g: seq<Interval>) {
    Ordered(-1, g) && Behind(-1, g) == MAX_BYTE_COUNT
  }

  /** Byte `x` has not been received yet. */
  ghost predicate Missing(g: seq<Interval>, x: nat) {
    x >= MAX_BYTE_COUNT || InGap(g, x)
  }

  ghost predicate Covered(g: seq<Interval>, lo: nat, hi: nat) {
    forall x :: lo <= x < hi ==> !Missing(g, x)
  }

  lemma {:induction false} OrderedParts(lo: int, a: seq<Interval>, b: seq<Interval>)
    ensures Ordered(lo, a + b) <==> Ordered(lo, a) && Ordered(Behind(lo, a), b)
    decreases |a|
  {
    if a == [] {
      assert a + b == b;
    } else {
      assert (a + b)[1..] == a[1..] + b;
      OrderedParts(a[0].end, a[1..], b);
    }
  }

  lemma {:induction false} InGapParts(a: seq<Interval>, b: seq<Interval>, x: nat)
    ensures InGap(a + b, x) <==> InGap(a, x) || InGap(b, x)
    decreases |a|
  {
    if a == [] {
      assert a + b == b;
    } else {
      assert (a + b)[1..] == a[1..] + b;
      InGapParts(a[1..], b, x);
    }
  }

  lemma {:induction false} InGapBounds(lo: int, g: seq<Interval>, x: nat)
    requires Ordered(lo, g)
    ensures lo <= Behind(lo, g)
    ensures InGap(g, x) ==> lo < x < Behind(lo, g)
    decreases |g|
  {
    if g != [] {
      InGapBounds(g[0].end, g[1..], x);
    }
  }

  lemma OrderedLower(lo: int, lo': int, g: seq<Interval>)
    requires Ordered(lo, g) && lo' <= lo
    ensures Ordered(lo', g)
  {
  }

  /** Gap `i` and its neighbours. */
  lemma GapAt(g: seq<Interval>, i: nat)
    requires GapsOk(g) && i < |g|
    ensures g[i].start < g[i].end <= MAX_BYTE_COUNT
    ensures g[i].end < MAX_BYTE_COUNT <==> i + 1 < |g|
    ensures i + 1 < |g| ==> g[i].end < g[i + 1].start
    ensures i > 0 ==> g[i - 1].end < g[i].start
  {
    assert g == g[..i] + g[i..];
    OrderedParts(-1, g[..i], g[i..]);
    if i + 1 < |g| {
      assert g[i..][1..][0] == g[i + 1];
      InGapBounds(g[i + 1].end, g[i..][1..][1..], 0);
    }
  }

  lemma Splice<T>(a: seq<T>, x: T, y: T, b: seq<T>)
    ensures var s := a + ([x] + b);
            s[|a|] == x && s[..|a|] == a && s[|a| + 1..] == b && s[|a| := y] == a + ([y] + b)
  {
  }

  lemma Regroup<T>(a: seq<T>, b: seq<T>, c: seq<T>)
    ensures (a + b) + c == a + (b + c)
  {
  }

  /** Three consecutive parts of the gap list; the middle one is not empty. */
  datatype Parts = Parts(before: seq<Interval>, mid: seq<Interval>, rest: seq<Interval>) {
    ghost function All(): seq<Interval> {
      before + (mid + rest)
    }

    /** These are the parts of `g`; the middle one runs from the gap that holds `lo` to the gap that holds `hi - 1`. */
    ghost predicate Around(g: seq<Interval>, lo: nat, hi: nat) {
      && g == All()
      && mid != []
      && mid[0].start <= lo < mid[0].end
      && mid[|mid| - 1].start < hi <= mid[|mid| - 1].end
      && lo < hi < MAX_BYTE_COUNT
    }

    /** What is left of the middle part's first and last gap when the bytes from `lo` to `hi` are taken out. */
    ghost function Left(lo: nat): seq<Interval>
      requires mid != []
    {
      if mid[0].start < lo then [Interval(mid[0].start, lo)] else []
    }

    ghost function Right(hi: nat): seq<Interval>
      requires mid != []
    {
      if hi < mid[|mid| - 1].end then [Interval(hi, mid[|mid| - 1].end)] else []
    }

    /** Only the first and the last gap of the middle part are left, or the first alone if the last is `detached`. */
    ghost function Passed(detached: bool): seq<Interval>
      requires mid != []
    {
      before + ([mid[0]] + ((if |mid| == 1 || detached then [] else [mid[|mid| - 1]]) + rest))
    }

    ghost function Carved(lo: nat, hi: nat): seq<Interval>
      requires mid != []
    {
      before + (Left(lo) + (Right(hi) + rest))
    }

    // The four ways in which the first and the last gap of the middle part are cut.

    ghost predicate ShrinkPoint(start: nat, end: nat) {
      && mid != []
      && mid[0].start <= start < mid[0].end
      && start < end <= mid[|mid| - 1].end
      && (|mid| > 1 ==> mid[0].end < end)
    }

    lemma ShrinkFront(g: seq<Interval>, start: nat, end: nat)
      requires ShrinkPoint(start, end) && g == Passed(|mid| > 1 && end == mid[|mid| - 1].end)
      requires start == mid[0].start
      ensures var i, last := |before|, mid[|mid| - 1];
              && g[i] == mid[0]
              && var h := if end >= mid[0].end then g[..i] + g[i + 1..] else g;
                 && (end < last.end ==> h[i] == last && h[i := Interval(end, last.end)] == Carved(start, end))
                 && (end == last.end ==> h == Carved(start, end))
    {
      var last := mid[|mid| - 1];
      Splice(before, mid[0], Interval(end, last.end), (if |mid| == 1 || end == last.end then [] else [last]) + rest);
      Splice(before, last, Interval(end, last.end), rest);
      assert [] + rest == rest && [] + (Right(end) + rest) == Right(end) + rest;
    }

    lemma ShrinkBack(g: seq<Interval>, start: nat, end: nat)
      requires ShrinkPoint(start, end) && g == Passed(|mid| > 1 && end == mid[|mid| - 1].end)
      requires start != mid[0].start && end == mid[|mid| - 1].end
      ensures g[|before|] == mid[0] && g[|before| := mid[0].(end := start)] == Carved(start, end)
    {
      Splice(before, mid[0], Interval(mid[0].start, start), [] + rest);
    }

    lemma ShrinkMiddle(g: seq<Interval>, start: nat, end: nat)
      requires ShrinkPoint(start, end) && g == Passed(|mid| > 1 && end == mid[|mid| - 1].end)
      requires start != mid[0].start && end < mid[|mid| - 1].end && |mid| == 1
      ensures var i := |before|;
              && g[i] == mid[0]
              && var h := g[..i + 1] + [Interval(end, g[i].end)] + g[i + 1..];
                 h[i] == mid[0] && h[i := mid[0].(end := start)] == Carved(start, end)
    {
      Splice(before, mid[0], Interval(mid[0].start, start), Right(end) + rest);
      Splice(before, mid[0], mid[0], [] + rest);
      assert g[..|before| + 1] == before + [mid[0]];
      assert [] + rest == rest;
      Regroup(before + [mid[0]], Right(end), rest);
      Regroup(before, [mid[0]], Right(end) + rest);
    }

    lemma ShrinkBoth(g: seq<Interval>, start: nat, end: nat)
      requires ShrinkPoint(start, end) && g == Passed(|mid| > 1 && end == mid[|mid| - 1].end)
      requires start != mid[0].start && end < mid[|mid| - 1].end && |mid| > 1
      ensures var i, last := |before|, mid[|mid| - 1];
              && g[i] == mid[0]
              && var h := g[i := mid[0].(end := start)];
                 h[i + 1] == last && h[i + 1 := last.(start := end)] == Carved(start, end)
    {
      var last, first := mid[|mid| - 1], before + [Interval(mid[0].start, start)];
      Splice(before, mid[0], Interval(mid[0].start, start), [last] + rest);
      Regroup(before, [Interval(mid[0].start, start)], [last] + rest);
      Splice(first, last, Interval(end, last.end), rest);
      Regroup(before, [Interval(mid[0].start, start)], [Interval(end, last.end)] + rest);
    }

    lemma OrderedEach(g: seq<Interval>)
      requires GapsOk(g) && g == All()
      ensures Ordered(-1, before)
      ensures Ordered(Behind(-1, before), mid)
      ensures mid != [] ==> Ordered(mid[|mid| - 1].end, rest)
    {
      OrderedParts(-1, before, mid + rest);
      OrderedParts(Behind(-1, before), mid, rest);
    }

    lemma CarvedOk(g: seq<Interval>, lo: nat, hi: nat)
      requires GapsOk(g) && Around(g, lo, hi)
      ensures GapsOk(Carved(lo, hi))
    {
      OrderedEach(g);
      var b := Behind(-1, before);
      OrderedParts(-1, before, Left(lo) + (Right(hi) + rest));
      OrderedParts(b, Left(lo), Right(hi) + rest);
      OrderedParts(Behind(b, Left(lo)), Right(hi), rest);
    }

    /** Inside the middle part, only the two ends stay missing. */
    lemma CarvedMiddle(g: seq<Interval>, lo: nat, hi: nat, x: nat)
      requires GapsOk(g) && Around(g, lo, hi)
      ensures InGap(mid, x) && !(lo <= x < hi)
              <==> mid[0].start <= x < lo || hi <= x < mid[|mid| - 1].end
    {
      OrderedEach(g);
      if |mid| > 1 {
        var inner, last := mid[1..|mid| - 1], mid[|mid| - 1];
        assert mid[1..] == inner + [last];
        InGapParts(inner, [last], x);
        OrderedParts(mid[0].end, inner, [last]);
        InGapBounds(mid[0].end, inner, x);
      }
    }

    lemma CarvedMissing(g: seq<Interval>, lo: nat, hi: nat, x: nat)
      requires GapsOk(g) && Around(g, lo, hi)
      ensures Missing(Carved(lo, hi), x) <==> Missing(g, x) && !(lo <= x < hi)
    {
      OrderedEach(g);
      InGapBounds(-1, before, x);
      InGapBounds(mid[|mid| - 1].end, rest, x);
      InGapBounds(Behind(-1, before), mid, x);
      CarvedMiddle(g, lo, hi, x);
      InGapParts(before, mid + rest, x);
      InGapParts(mid, rest, x);
      InGapParts(before, Left(lo) + (Right(hi) + rest), x);
      InGapParts(Left(lo), Right(hi) + rest, x);
      InGapParts(Right(hi), rest, x);
    }
  }

  // ----- Queued frames -----

  /** Following offset plus length through the queue leads from `p` exactly to `e`. */
  ghost predicate Walk(q: map<nat, StreamFrame>, p: nat, e: nat)
    decreases e - p
  {
    p <= e && (p < e ==> p in q && |q[p].data| > 0 && Walk(q, p + |q[p].data|, e))
  }

  /** The region that starts at `p` leads to the first gap, and the region behind each gap to the next. */
  ghost predicate WalkAll(q: map<nat, StreamFrame>, p: int, g: seq<Interval>)
    decreases |g|
  {
    g == [] || (0 <= p && Walk(q, p, g[0].start) && WalkAll(q, g[0].end, g[1..]))
  }

  ghost predicate EntriesOk(q: map<nat, StreamFrame>, g: seq<Interval>) {
    forall k :: k in q ==> q[k].offset == k && (q[k].data != [] || q[k].fin) && Covered(g, k, q[k].End())
  }

  ghost predicate Valid(s: SorterState) {
    && GapsOk(s.gaps)
    && EntriesOk(s.queued, s.gaps)
    && WalkAll(s.queued, s.readPosition, s.gaps)
  }

  /** A buffer that has received nothing. */
  function EmptySorter(): (s: SorterState)
    ensures Valid(s)
  {
    SorterState(map[], [Interval(0, MAX_BYTE_COUNT)], 0)
  }

  type ValidSorter = s: SorterState | Valid(s) ghost witness EmptySorter()

  lemma {:induction false} WalkAgrees(q: map<nat, StreamFrame>, q': map<nat, StreamFrame>, p: nat, e: nat)
    requires Walk(q, p, e)
    requires forall k :: p <= k < e && k in q ==> k in q' && q'[k] == q[k]
    ensures Walk(q', p, e)
    decreases e - p
  {
    if p < e {
      WalkAgrees(q, q', p + |q[p].data|, e);
    }
  }

  lemma {:induction false} WalkAppend(q: map<nat, StreamFrame>, p: nat, m: nat, e: nat)
    requires Walk(q, p, m) && Walk(q, m, e)
    ensures Walk(q, p, e)
    decreases m - p
  {
    if p < m {
      WalkAppend(q, p + |q[p].data|, m, e);
    }
  }

  lemma {:induction false} WalkAllAgrees(q: map<nat, StreamFrame>, q': map<nat, StreamFrame>, p: int, g: seq<Interval>,
                                         hi: int)
    requires WalkAll(q, p, g)
    requires Ordered(p - 1, g) && Behind(p, g) <= hi
    requires forall k :: p <= k < hi && k in q ==> k in q' && q'[k] == q[k]
    ensures WalkAll(q', p, g)
    decreases |g|
  {
    if g != [] {
      InGapBounds(g[0].end, g[1..], 0);
      WalkAgrees(q, q', p, g[0].start);
      WalkAllAgrees(q, q', g[0].end, g[1..], hi);
    }
  }

  lemma {:induction false} WalkAllParts(q: map<nat, StreamFrame>, p: int, a: seq<Interval>, b: seq<Interval>)
    ensures WalkAll(q, p, a + b) <==> WalkAll(q, p, a) && WalkAll(q, Behind(p, a), b)
    decreases |a|
  {
    if a == [] {
      assert a + b == b;
    } else {
      assert (a + b)[1..] == a[1..] + b;
      WalkAllParts(q, a[0].end, a[1..], b);
    }
  }

  /** Reading starts at or below the first gap. */
  lemma ReadBelowFirstGap(s: ValidSorter)
    ensures |s.gaps| > 0 && s.readPosition <= s.gaps[0].start
    ensures Ordered(s.readPosition - 1, s.gaps)
  {
  }

  // ----- What storing a clipped frame does to the buffer -----

  ghost predicate StorePoint(s: ValidSorter, g: Parts, c: StreamFrame, dropped: set<nat>) {
    && g.Around(s.gaps, c.offset, c.End())
    && forall k :: k in dropped ==> c.offset < k < c.End()
  }

  /** The queue and the gaps after frame `c` has been stored and the entries `dropped` deleted. */
  ghost function Store(s: SorterState, g: Parts, c: StreamFrame, dropped: set<nat>): SorterState
    requires g.mid != []
  {
    SorterState((s.queued - dropped)[c.offset := c], g.Carved(c.offset, c.End()), s.readPosition)
  }

  lemma StoreKeepsEntries(s: ValidSorter, g: Parts, c: StreamFrame, dropped: set<nat>)
    requires StorePoint(s, g, c, dropped)
    ensures var t := Store(s, g, c, dropped); EntriesOk(t.queued, t.gaps)
  {
    var t := Store(s, g, c, dropped);
    forall k | k in t.queued
      ensures t.queued[k].offset == k && (t.queued[k].data != [] || t.queued[k].fin)
              && Covered(t.gaps, k, t.queued[k].End())
    {
      forall x | k <= x < t.queued[k].End()
        ensures !Missing(t.gaps, x)
      {
        g.CarvedMissing(s.gaps, c.offset, c.End(), x);
      }
    }
  }

  /** Regions that the stored frame does not reach are walked as before. */
  lemma StoreLeavesTheRest(s: ValidSorter, g: Parts, c: StreamFrame, dropped: set<nat>)
    requires StorePoint(s, g, c, dropped)
    ensures var q := Store(s, g, c, dropped).queued;
            var r := Behind(s.readPosition, g.before);
            && WalkAll(q, s.readPosition, g.before)
            && 0 <= r && Walk(q, r, g.mid[0].start)
            && WalkAll(q, g.mid[|g.mid| - 1].end, g.rest)
  {
    var q := Store(s, g, c, dropped).queued;
    var p: int := s.readPosition;
    var r, e := Behind(p, g.before), g.mid[|g.mid| - 1].end;
    g.OrderedEach(s.gaps);
    WalkAllParts(s.queued, p, g.before, g.mid + g.rest);
    WalkAllParts(s.queued, r, g.mid, g.rest);
    assert Ordered(p - 1, g.before) by {
      ReadBelowFirstGap(s);
    }
    WalkAllAgrees(s.queued, q, p, g.before, r);
    WalkAgrees(s.queued, q, r, g.mid[0].start);
    WalkAllAgrees(s.queued, q, e, g.rest, Behind(e, g.rest));
  }

  /** The regions that border on the stored frame are joined through it. */
  lemma StoreJoinsRegions(q: map<nat, StreamFrame>, g: Parts, c: StreamFrame, r: nat)
    requires GapsOk(g.All()) && g.Around(g.All(), c.offset, c.End())
    requires c.offset in q && q[c.offset] == c
    requires Walk(q, r, c.offset)
    requires WalkAll(q, g.mid[|g.mid| - 1].end, g.rest)
    ensures WalkAll(q, r, g.Right(c.End()) + g.rest)
  {
    assert Walk(q, c.offset, c.End());
    WalkAppend(q, r, c.offset, c.End());
    if c.End() < g.mid[|g.mid| - 1].end {
      assert (g.Right(c.End()) + g.rest)[1..] == g.rest;
    } else {
      assert g.rest != [];
      WalkAppend(q, r, c.End(), g.rest[0].start);
      assert g.Right(c.End()) + g.rest == g.rest;
    }
  }

  lemma StoreKeepsWalks(s: ValidSorter, g: Parts, c: StreamFrame, dropped: set<nat>)
    requires StorePoint(s, g, c, dropped)
    ensures var t := Store(s, g, c, dropped); WalkAll(t.queued, t.readPosition, t.gaps)
  {
    var q := Store(s, g, c, dropped).queued;
    var r := Behind(s.readPosition, g.before);
    var left, tail := g.Left(c.offset), g.Right(c.End()) + g.rest;
    StoreLeavesTheRest(s, g, c, dropped);
    if left == [] {
      StoreJoinsRegions(q, g, c, r);
      assert left + tail == tail;
    } else {
      StoreJoinsRegions(q, g, c, c.offset);
      assert (left + tail)[1..] == tail;
    }
    WalkAllParts(q, s.readPosition, g.before, left + tail);
  }

  lemma StoreKeepsValid(s: ValidSorter, g: Parts, c: StreamFrame, dropped: set<nat>)
    requires StorePoint(s, g, c, dropped)
    ensures Valid(Store(s, g, c, dropped))
  {
    g.CarvedOk(s.gaps, c.offset, c.End());
    StoreKeepsEntries(s, g, c, dropped);
    StoreKeepsWalks(s, g, c, dropped);
  }

  // ----- What a caller of Push is promised -----

  /** `lo` is the first byte of `f` that is missing. */
  ghost predicate FirstMissing(g: seq<Interval>, f: StreamFrame, lo: nat) {
    f.offset <= lo < f.End() && Missing(g, lo) && Covered(g, f.offset, lo)
  }

  /** `hi` is just behind the last byte of `f` that is missing. */
  ghost predicate LastMissing(g: seq<Interval>, f: StreamFrame, hi: nat) {
    f.offset < hi <= f.End() && Missing(g, hi - 1) && Covered(g, hi, f.End())
  }

  /** The bytes of `f`, and no others, stop being missing. */
  ghost predicate Received(g: seq<Interval>, f: StreamFrame, g': seq<Interval>) {
    GapsOk(g') && forall x: nat :: Missing(g', x) <==> Missing(g, x) && !(f.offset <= x < f.End())
  }

  /** `c` has been added, and only entries that start inside `c` have gone. */
  ghost predicate Added(q: map<nat, StreamFrame>, c: StreamFrame, q': map<nat, StreamFrame>) {
    && c.offset in q' && q'[c.offset] == c
    && (forall k :: k in q' && k != c.offset ==> k in q && q'[k] == q[k])
    && (forall k :: k in q && k !in q' ==> c.offset < k < c.End())
  }

  /** The missing part of `f`, from its first to its last missing byte, has been queued. */
  ghost predicate Stored(s: SorterState, f: StreamFrame, t: SorterState) {
    && Received(s.gaps, f, t.gaps)
    && exists lo: nat, hi: nat ::
         FirstMissing(s.gaps, f, lo) && LastMissing(s.gaps, f, hi) && lo < hi
             && Added(s.queued, f.Clip(lo, hi), t.queued)
  }

  ghost predicate PushPost(s: SorterState, f: StreamFrame, t: SorterState, err: PushError) {
    && t.readPosition == s.readPosition
    && match err
       case NoError =>
         if f.data == [] then
           f.fin && t == s.(queued := s.queued[f.offset := f])
         else
           f.End() < MAX_BYTE_COUNT && Stored(s, f, t) && |t.gaps| <= MAX_GAPS
       case EmptyStreamData => f.data == [] && !f.fin && t == s
       case DuplicateStreamData => f.data != [] && Covered(s.gaps, f.offset, f.End()) && t == s
       case TooManyGaps =>
         && f.data != [] && f.End() < MAX_BYTE_COUNT
         && !Covered(s.gaps, f.offset, f.End())
         && Received(s.gaps, f, t.gaps) && |t.gaps| > MAX_GAPS
         && (forall k :: k in t.queued ==> k in s.queued && t.queued[k] == s.queued[k])
       case _ => f.data != [] && f.End() >= MAX_BYTE_COUNT
  }

  // ----- An empty frame that only marks the end of the stream -----

  /** One of the frames on the way from `p` to `e` starts at `x`. */
  ghost predicate OnWalk(q: map<nat, StreamFrame>, p: nat, e: nat, x: nat)
    requires Walk(q, p, e)
    decreases e - p
  {
    p < e && (p == x || OnWalk(q, p + |q[p].data|, e, x))
  }

  /** One of the frames in the regions between the gaps starts at `x`. */
  ghost predicate OnWalks(q: map<nat, StreamFrame>, p: int, g: seq<Interval>, x: nat)
    requires WalkAll(q, p, g)
    decreases |g|
  {
    g != [] && (OnWalk(q, p, g[0].start, x) || OnWalks(q, g[0].end, g[1..], x))
  }

  /** An empty frame takes the place of data that is needed. */
  ghost predicate Displaces(s: SorterState, f: StreamFrame) {
    f.data == [] && Valid(s) && OnWalks(s.queued, s.readPosition, s.gaps, f.offset)
  }

  lemma {:induction false} WalkPastEmptyIff(q: map<nat, StreamFrame>, f: StreamFrame, p: nat, e: nat)
    requires Walk(q, p, e) && f.data == []
    ensures Walk(q[f.offset := f], p, e) <==> !OnWalk(q, p, e, f.offset)
    ensures OnWalk(q, p, e, f.offset) ==> f.offset in q && q[f.offset].data != []
    decreases e - p
  {
    if p < e {
      WalkPastEmptyIff(q, f, p + |q[p].data|, e);
    }
  }

  lemma {:induction false} WalkAllPastEmptyIff(q: map<nat, StreamFrame>, f: StreamFrame, p: int, g: seq<Interval>)
    requires WalkAll(q, p, g) && f.data == []
    ensures WalkAll(q[f.offset := f], p, g) <==> !OnWalks(q, p, g, f.offset)
    ensures OnWalks(q, p, g, f.offset) ==> f.offset in q && q[f.offset].data != []
    decreases |g|
  {
    if g != [] {
      WalkPastEmptyIff(q, f, p, g[0].start);
      WalkAllPastEmptyIff(q, f, g[0].end, g[1..]);
    }
  }

  /** An empty frame with an end mark keeps the invariant if and only if it does not displace data. */
  lemma PushFinValidIff(s: ValidSorter, f: StreamFrame)
    requires f.data == [] && f.fin
    ensures Valid(s.(queued := s.queued[f.offset := f])) <==> !Displaces(s, f)
    ensures Displaces(s, f) ==> f.offset in s.queued && s.queued[f.offset].data != []
  {
    WalkAllPastEmptyIff(s.queued, f, s.readPosition, s.gaps);
  }

  /**
   Three bytes have arrived; an end mark at their offset takes their place. They are lost although they count as
   received.
   */
  lemma FinLosesData()
    ensures var s := SorterState(map[0 := StreamFrame(5, 0, [7, 8, 9], false, true, false)],
                                 [Interval(3, MAX_BYTE_COUNT)], 0);
            var f := StreamFrame(5, 0, [], true, true, false);
            var t := SorterState(map[0 := f], s.gaps, 0);
            Valid(s) && Displaces(s, f) && PushPost(s, f, t, NoError) && !Valid(t) && Covered(t.gaps, 0, 3)
  {
    var s := SorterState(map[0 := StreamFrame(5, 0, [7, 8, 9], false, true, false)], [Interval(3, MAX_BYTE_COUNT)], 0);
    var f := StreamFrame(5, 0, [], true, true, false);
    assert s.gaps[1..] == [] && Ordered(MAX_BYTE_COUNT, []) && Ordered(-1, s.gaps);
    forall x: nat | x < 3
      ensures !Missing(s.gaps, x)
    {
      assert !InGap(s.gaps[1..], x);
    }
    assert Walk(s.queued, 3, 3) && Walk(s.queued, 0, 3) && WalkAll(s.queued, MAX_BYTE_COUNT, []);
    assert EntriesOk(s.queued, s.gaps) && Valid(s);
    PushFinValidIff(s, f);
    assert s.queued[0 := f] == map[0 := f];
  }

  /** Nothing between gap `i - 1` and gap `i` is missing. */
  lemma BetweenGaps(g: seq<Interval>, i: nat, x: nat)
    requires GapsOk(g) && i < |g|
    requires (if i == 0 then 0 else g[i - 1].end) <= x < g[i].start
    ensures !Missing(g, x)
  {
    GapAt(g, i);
    assert g == g[..i] + g[i..];
    OrderedParts(-1, g[..i], g[i..]);
    InGapParts(g[..i], g[i..], x);
    InGapBounds(-1, g[..i], x);
    InGapBounds(g[i].start - 1, g[i..], x);
  }

  lemma CoveredBetween(g: seq<Interval>, i: nat, lo: nat, hi: nat)
    requires GapsOk(g) && i < |g|
    requires (if i == 0 then 0 else g[i - 1].end) <= lo
    requires hi <= g[i].start
    ensures Covered(g, lo, hi)
  {
    forall x | lo <= x < hi
      ensures !Missing(g, x)
    {
      BetweenGaps(g, i, x);
    }
  }

  lemma MissingAt(g: seq<Interval>, i: nat, x: nat)
    requires i < |g| && g[i].start <= x < g[i].end
    ensures Missing(g, x)
  {
    assert g == g[..i] + g[i..];
    InGapParts(g[..i], g[i..], x);
  }

  /** A region behind a gap starts with a queued frame that is not empty. */
  lemma RegionStartQueued(s: ValidSorter, i: nat)
    requires i + 1 < |s.gaps|
    ensures s.gaps[i].end in s.queued && s.queued[s.gaps[i].end].data != []
  {
    var g := s.gaps;
    GapAt(g, i);
    assert g == g[..i + 1] + g[i + 1..];
    WalkAllParts(s.queued, s.readPosition, g[..i + 1], g[i + 1..]);
  }

  /**
   After the bytes that are queued under the frame's own offset have been cut off, the frame does
   not start at the end of a gap.
   */
  lemma NotAtRegionStart(s: ValidSorter, frame: StreamFrame, start: nat, i: nat)
    requires i + 1 < |s.gaps|
    requires start == if frame.offset in s.queued then s.queued[frame.offset].End() else frame.offset
    ensures start != s.gaps[i].end
  {
    if start == s.gaps[i].end {
      RegionStartQueued(s, i);
      GapAt(s.gaps, i);
      MissingAt(s.gaps, i, start - 1);
    }
  }

  /** `f` is `frame` without some leading bytes that are not missing. */
  ghost predicate FrontCut(s: SorterState, frame: StreamFrame, f: StreamFrame) {
    && frame.offset <= f.offset < f.End() == frame.End()
    && f == frame.Clip(f.offset, frame.End())
    && Covered(s.gaps, frame.offset, f.offset)
  }

  lemma PartsOfAll(g: seq<Interval>, i: nat, j: nat)
    requires i <= j < |g|
    ensures PartsAt(g, i, j).All() == g
    ensures PartsAt(g, i, j).mid[0] == g[i] && PartsAt(g, i, j).mid[j - i] == g[j]
  {
  }

  lemma GapsApart(g: seq<Interval>, i: nat, j: nat)
    requires GapsOk(g) && i <= j < |g|
    ensures g[i].start < g[i].end && g[j].start < g[j].end
    ensures i < j ==> g[i].end < g[j].start
  {
    GapAt(g, i);
    if i < j {
      GapBefore(g, i, j);
    }
  }

  lemma GapBefore(g: seq<Interval>, i: nat, j: nat)
    requires GapsOk(g) && i < j < |g|
    ensures g[i].end < g[j].start < g[j].end
  {
    GapAt(g, j);
    assert g == g[..i + 1] + g[i + 1..];
    OrderedParts(-1, g[..i + 1], g[i + 1..]);
    assert g[i + 1..][j - i - 1] == g[j];
    var k := j - i - 1;
    assert g[i + 1..] == g[i + 1..][..k] + g[i + 1..][k..];
    InGapParts(g[i + 1..][..k], g[i + 1..][k..], g[j].start);
    InGapBounds(g[i].end, g[i + 1..], g[j].start);
  }

  lemma ClosedParts(g: seq<Interval>, i: nat, j: nat)
    requires i <= j < |g|
    ensures Closed(g, i, j) == PartsAt(g, i, j).Passed(false)
    ensures i < j ==> Closed(g, i, j + 1) == PartsAt(g, i, j).Passed(true)
  {
    var p := PartsAt(g, i, j);
    var head, last, rest := [p.mid[0]], [p.mid[|p.mid| - 1]], p.rest;
    assert p.mid[0] == g[i] && p.mid[|p.mid| - 1] == g[j];
    assert [] + rest == rest;
    if i == j {
      assert g[i..] == head + rest;
      assert g == p.before + (head + rest);
    } else {
      assert g[..i + 1] == p.before + head;
      assert g[j..] == last + rest;
      Regroup(p.before, head, last + rest);
      Regroup(p.before, head, rest);
    }
  }

  lemma PushStores(s: ValidSorter, frame: StreamFrame, c: StreamFrame, p: Parts, dropped: set<nat>)
    requires StorePoint(s, p, c, dropped)
    requires frame.offset <= c.offset && c.End() <= frame.End() < MAX_BYTE_COUNT
    requires c == frame.Clip(c.offset, c.End())
    requires Covered(s.gaps, frame.offset, c.offset) && Covered(s.gaps, c.End(), frame.End())
    ensures var t := Store(s, p, c, dropped);
            && Valid(t)
            && (|t.gaps| <= MAX_GAPS ==> PushPost(s, frame, t, NoError))
            && (|t.gaps| > MAX_GAPS ==> PushPost(s, frame, t.(queued := s.queued - dropped), TooManyGaps))
  {
    var t := Store(s, p, c, dropped);
    StoreKeepsValid(s, p, c, dropped);
    forall x: nat
      ensures Missing(t.gaps, x) <==> Missing(s.gaps, x) && !(frame.offset <= x < frame.End())
    {
      p.CarvedMissing(s.gaps, c.offset, c.End(), x);
    }
    MissingAt(s.gaps, |p.before|, c.offset);
    MissingAt(s.gaps, |p.before| + |p.mid| - 1, c.End() - 1);
    assert FirstMissing(s.gaps, frame, c.offset) && LastMissing(s.gaps, frame, c.End());
    assert Added(s.queued, c, t.queued);
  }

  function Min(a: nat, b: nat): nat {
    if a < b then a else b
  }

  function Max(a: nat, b: nat): nat {
    if a < b then b else a
  }

  lemma FillAround(g: seq<Interval>, i: nat, j: nat, start: nat, end: nat)
    requires i <= j < |g| && start < end
    requires g[i].start < g[i].end && g[j].start < g[j].end && (i < j ==> g[i].end < g[j].start)
    requires start < g[i].end && g[j].start < end < MAX_BYTE_COUNT
    ensures PartsAt(g, i, j).Around(g, Max(start, g[i].start), Min(end, g[j].end))
  {
    PartsOfAll(g, i, j);
  }

  lemma FillCut(s: SorterState, frame: StreamFrame, f: StreamFrame, i: nat, j: nat, lo: nat, hi: nat)
    requires GapsOk(s.gaps) && i <= j < |s.gaps| && FrontCut(s, frame, f)
    requires i > 0 ==> s.gaps[i - 1].end < f.offset
    requires s.gaps[j].end < f.End() ==> j + 1 < |s.gaps| && f.End() <= s.gaps[j + 1].start
    requires lo == Max(f.offset, s.gaps[i].start) && hi == Min(f.End(), s.gaps[j].end) && lo < hi
    ensures f.Clip(lo, hi) == frame.Clip(lo, hi)
    ensures Covered(s.gaps, frame.offset, lo)
    ensures Covered(s.gaps, hi, frame.End())
  {
    ClipOfClip(frame, f.offset, f.End(), lo, hi);
    CoveredBetween(s.gaps, i, f.offset, s.gaps[i].start);
    if s.gaps[j].end < f.End() {
      CoveredBetween(s.gaps, j + 1, s.gaps[j].end, f.End());
    }
  }

  lemma FillResult(s: ValidSorter, frame: StreamFrame, f: StreamFrame, i: nat, j: nat, dropped: set<nat>,
                   t: SorterState, err: PushError)
    requires FrontCut(s, frame, f)
    requires Filled(s, f, i, j, dropped, t, err)
    requires i > 0 ==> s.gaps[i - 1].end < f.offset
    ensures PushPost(s, frame, t, err)
    ensures err == NoError ==> Valid(t)
  {
    var lo, hi := Max(f.offset, s.gaps[i].start), Min(f.End(), s.gaps[j].end);
    GapsApart(s.gaps, i, j);
    FillAround(s.gaps, i, j, f.offset, f.End());
    FillCut(s, frame, f, i, j, lo, hi);
    var c := f.Clip(lo, hi);
    assert c.offset == lo && c.End() == hi;
    assert c == frame.Clip(c.offset, c.End());
    PushStores(s, frame, c, PartsAt(s.gaps, i, j), dropped);
  }

  /** The gap list is determined by which bytes are missing. */
  lemma {:induction false} GapsUnique(lo: int, a: seq<Interval>, b: seq<Interval>)
    requires Ordered(lo, a) && Ordered(lo, b)
    requires forall x: nat :: InGap(a, x) <==> InGap(b, x)
    ensures a == b
    decreases |a|
  {
    if a == [] {
      if b != [] {
        assert InGap(b, b[0].start);
      }
    } else {
      assert InGap(a, a[0].start);
      assert b != [];
      SameFirstGap(lo, a, b);
      forall x: nat
        ensures InGap(a[1..], x) <==> InGap(b[1..], x)
      {
        InGapBounds(a[0].end, a[1..], x);
        InGapBounds(b[0].end, b[1..], x);
        assert InGap(a, x) <==> InGap(b, x);
      }
      GapsUnique(a[0].end, a[1..], b[1..]);
      assert a == [a[0]] + a[1..] && b == [b[0]] + b[1..];
    }
  }

  lemma SameFirstGap(lo: int, a: seq<Interval>, b: seq<Interval>)
    requires Ordered(lo, a) && Ordered(lo, b) && a != [] && b != []
    requires forall x: nat :: InGap(a, x) <==> InGap(b, x)
    ensures a[0] == b[0]
  {
    forall x: nat
      ensures InGap(a, x) && x <= a[0].end ==> a[0].start <= x < a[0].end
      ensures InGap(b, x) && x <= b[0].end ==> b[0].start <= x < b[0].end
    {
      InGapBounds(a[0].end, a[1..], x);
      InGapBounds(b[0].end, b[1..], x);
    }
    assert InGap(a, a[0].start) && InGap(b, b[0].start);
    var e := Min(a[0].end, b[0].end);
    assert InGap(a, e) <==> InGap(b, e);
  }

  /** A queued frame at the read position lies below the first gap, or it is empty. */
  lemma HeadBelowFirstGap(s: ValidSorter)
    requires s.readPosition in s.queued
    ensures s.queued[s.readPosition].data == [] ==> s.readPosition == s.gaps[0].start
    ensures s.queued[s.readPosition].data != [] ==> s.readPosition < s.gaps[0].start
  {
    var p := s.readPosition;
    if s.queued[p].data != [] {
      assert !Missing(s.gaps, p);
    }
  }

  lemma PopKeepsValid(s: ValidSorter)
    requires s.readPosition in s.queued
    ensures Valid(SorterState(s.queued - {s.readPosition}, s.gaps, s.queued[s.readPosition].End()))
  {
    var p, q, g := s.readPosition, s.queued, s.gaps;
    HeadBelowFirstGap(s);
    WalkAgrees(q, q - {p}, q[p].End(), g[0].start);
    OrderedLower(g[0].end, g[0].end - 1, g[1..]);
    WalkAllAgrees(q, q - {p}, g[0].end, g[1..], Behind(g[0].end, g[1..]));
  }

  /** Receiving the first gap and the byte behind it removes exactly that gap. */
  lemma FirstGapReceived(g: seq<Interval>, f: StreamFrame, g': seq<Interval>)
    requires GapsOk(g) && |g| > 1
    requires f.offset == g[0].start && f.End() == g[0].end + 1
    requires Received(g, f, g')
    ensures g' == g[1..]
  {
    GapAt(g, 0);
    GapAt(g, 1);
    forall x: nat
      ensures InGap(g', x) <==> InGap(g[1..], x)
    {
      InGapBounds(g[0].end, g[1..], x);
      InGapBounds(-1, g', x);
      BetweenGaps(g, 1, g[0].end);
      assert Missing(g', x) <==> Missing(g, x) && !(f.offset <= x < f.End());
    }
    OrderedLower(g[0].end, -1, g[1..]);
    GapsUnique(-1, g', g[1..]);
  }

  /** Filling the first gap with zeros, and one byte more, stores exactly the gap. */
  lemma HeadFilled(s: ValidSorter, f: StreamFrame, t: SorterState, err: PushError)
    requires 1 < |s.gaps| <= MAX_GAPS && s.readPosition !in s.queued
    requires f.offset == s.gaps[0].start && f.End() == s.gaps[0].end + 1 && f.data != []
    requires PushPost(s, f, t, err)
    ensures err == NoError && t.gaps == s.gaps[1..]
    ensures t.readPosition in t.queued && t.queued[t.readPosition] == f.Clip(s.gaps[0].start, s.gaps[0].end)
  {
    var g := s.gaps;
    GapAt(g, 0);
    GapAt(g, 1);
    MissingAt(g, 0, g[0].start);
    MissingAt(g, 0, g[0].end - 1);
    BetweenGaps(g, 1, g[0].end);
    if Received(g, f, t.gaps) {
      FirstGapReceived(g, f, t.gaps);
    }
    var lo: nat, hi: nat :| FirstMissing(g, f, lo) && LastMissing(g, f, hi) && lo < hi
        && Added(s.queued, f.Clip(lo, hi), t.queued);
    assert lo == g[0].start && hi == g[0].end;
  }

  /** The gap list with the gaps strictly between number `i` and number `j` taken out. */
  ghost function Closed(g: seq<Interval>, i: nat, j: nat): seq<Interval>
    requires i <= j <= |g| && i < |g|
  {
    if i == j then g else g[..i + 1] + g[j..]
  }

  /** What is left of `f` between gap `i` and gap `j` has been stored, unless that left too many gaps. */
  ghost predicate Placed(s: SorterState, f: StreamFrame, i: nat, j: nat, dropped: set<nat>, t: SorterState,
                         err: PushError) {
    && i <= j < |s.gaps|
    && var lo, hi := Max(f.offset, s.gaps[i].start), Min(f.End(), s.gaps[j].end);
       && f.offset <= lo <= hi <= f.End()
       && var u := Store(s, PartsAt(s.gaps, i, j), f.Clip(lo, hi), dropped);
          if |u.gaps| <= MAX_GAPS then
            err == NoError && t == u
          else
            err == TooManyGaps && t == u.(queued := s.queued - dropped)
  }

  ghost predicate Filled(s: SorterState, f: StreamFrame, i: nat, j: nat, dropped: set<nat>, t: SorterState,
                         err: PushError) {
    && Placed(s, f, i, j, dropped, t, err)
    && f.offset < s.gaps[i].end && s.gaps[j].start < f.End() < MAX_BYTE_COUNT
    && (s.gaps[j].end < f.End() ==> j + 1 < |s.gaps| && f.End() <= s.gaps[j + 1].start)
    && (forall k :: k in dropped ==> s.gaps[i].end <= k < s.gaps[j].start)
  }

  lemma ClosedStep(g: seq<Interval>, i: nat, j: nat)
    requires i <= j < |g|
    ensures i < j ==> |Closed(g, i, j)| == i + 1 + |g| - j && Closed(g, i, j)[i + 1] == g[j]
    ensures i < j && j + 1 < |g| ==> Closed(g, i, j)[i + 2] == g[j + 1]
    ensures i < j ==> Closed(g, i, j)[..i + 1] + Closed(g, i, j)[i + 2..] == Closed(g, i, j + 1)
    ensures i == j ==> Closed(g, i, j + 1) == g
  {
    if i < j {
      assert Closed(g, i, j)[..i + 1] == g[..i + 1];
      assert Closed(g, i, j)[i + 2..] == g[j + 1..];
    }
  }

  ghost function PartsAt(g: seq<Interval>, i: nat, j: nat): Parts
    requires i <= j < |g|
  {
    Parts(g[..i], g[i..j + 1], g[j + 1..])
  }

  class Sorter {
    var queued: map<nat, StreamFrame>
    var gaps: seq<Interval>
    var readPosition: nat

    ghost function State(): SorterState
      reads this
    {
      SorterState(queued, gaps, readPosition)
    }

    constructor ()
      ensures State() == EmptySorter()
    {
      queued := map[];
      gaps := [Interval(0, MAX_BYTE_COUNT)];
      readPosition := 0;
    }

    /** Skip all gaps that are before the bytes from `start` to `end`. */
    method FindGap(start: nat, end: nat) returns (i: nat, duplicate: bool)
      requires GapsOk(gaps) && start < end
      ensures duplicate ==> Covered(gaps, start, end)
      ensures !duplicate && i == |gaps| ==> end >= MAX_BYTE_COUNT
      ensures !duplicate ==> i <= |gaps|
      ensures !duplicate && i < |gaps| ==> gaps[i].start < end && start <= gaps[i].end
      ensures !duplicate && 0 < i < |gaps| ==> gaps[i - 1].end < start
    {
      i := 0;
      while i < |gaps|
        invariant 0 <= i <= |gaps|
        invariant i > 0 ==> gaps[i - 1].end < start
      {
        if end <= gaps[i].start {
          CoveredBetween(gaps, i, start, end);
          return i, true;
        }
        if end > gaps[i].start && start <= gaps[i].end {
          return i, false;
        }
        i := i + 1;
      }
      return i, false;
    }

    /**
     Find the highest gap whose start lies before `end`, removing the gaps passed on the way.
     `e` is the place of that gap in the list; when `detached`, it has been removed as well.
     */
    method FindEndGap(i: nat, end: nat)
      returns (found: bool, e: nat, endGap: Interval, detached: bool, ghost j: nat, ghost dropped: set<nat>)
      requires GapsOk(gaps) && i < |gaps| && gaps[i].start < end
      modifies this`gaps, this`queued
      ensures found <==> end < MAX_BYTE_COUNT
      ensures found ==> i <= j < |old(gaps)| && endGap == old(gaps)[j] && endGap.start < end
      ensures found ==> queued == old(queued) - dropped
      ensures found ==> forall k :: k in dropped ==> old(gaps)[i].end <= k < endGap.start
      ensures found ==> e == (if j == i then i else i + 1) && detached == (j > i && end >= endGap.end)
      ensures found ==> gaps == PartsAt(old(gaps), i, j).Passed(detached)
      ensures found && end >= endGap.end ==> j + 1 < |old(gaps)| && end <= old(gaps)[j + 1].start
      ensures !found ==> forall k :: k in queued ==> k in old(queued) && queued[k] == old(queued)[k]
    {
      endGap := gaps[i];
      e, detached, j, dropped := i, false, i, {};
      ghost var g := gaps;
      while end >= endGap.end
        invariant i <= j < |g| && endGap == g[j] && endGap.start < end
        invariant queued == old(queued) - dropped
        invariant g[i].end <= endGap.end
        invariant forall k :: k in dropped ==> g[i].end <= k < endGap.start
        invariant e == (if j == i then i else i + 1) && e < |gaps|
        invariant gaps == Closed(g, i, j)
        invariant !detached
        decreases |g| - j
      {
        GapAt(g, j);
        if e + 1 == |gaps| {
          return false, e, endGap, detached, j, dropped;
        }
        var next := gaps[e + 1];
        GapAt(g, j + 1);
        ClosedStep(g, i, j);
        if e != i {
          gaps := gaps[..e] + gaps[e + 1..];
        }
        if end <= next.start {
          detached := e != i;
          break;
        }
        queued := queued - {endGap.end};
        dropped := dropped + {endGap.end};
        endGap, e, j := next, i + 1, j + 1;
      }
      GapAt(g, j);
      ClosedParts(g, i, j);
      found := true;
    }

    /** Take the bytes from `start` to `end` out of the gap list. */
    method ShrinkGaps(i: nat, e: nat, endGap: Interval, start: nat, end: nat, ghost p: Parts)
      requires p.ShrinkPoint(start, end) && i == |p.before| && endGap == p.mid[|p.mid| - 1]
      requires e == if |p.mid| == 1 then i else i + 1
      requires gaps == p.Passed(|p.mid| > 1 && end == endGap.end)
      modifies this`gaps
      ensures gaps == p.Carved(start, end)
    {
      if start == gaps[i].start {
        p.ShrinkFront(gaps, start, end);
        var endIndex := e;
        if end >= gaps[i].end {
          gaps := gaps[..i] + gaps[i + 1..];
          endIndex := i;
        }
        if end < endGap.end {
          gaps := gaps[endIndex := gaps[endIndex].(start := end)];
        }
      } else if end == endGap.end {
        p.ShrinkBack(gaps, start, end);
        gaps := gaps[i := gaps[i].(end := start)];
      } else if e == i {
        p.ShrinkMiddle(gaps, start, end);
        gaps := gaps[..i + 1] + [Interval(end, gaps[i].end)] + gaps[i + 1..];
        gaps := gaps[i := gaps[i].(end := start)];
      } else {
        p.ShrinkBoth(gaps, start, end);
        gaps := gaps[i := gaps[i].(end := start)];
        gaps := gaps[e := gaps[e].(start := end)];
      }
    }

    /**
     Trim `f` to the gap number `i` and to `endGap`, take it out of the gaps, and queue it if that leaves few enough
     gaps.
     */
    method Insert(f: StreamFrame, i: nat, e: nat, endGap: Interval, ghost s: SorterState, ghost j: nat,
                  ghost dropped: set<nat>)
      returns (err: PushError)
      requires GapsOk(s.gaps) && i <= j < |s.gaps| && endGap == s.gaps[j] && i < |gaps|
               && gaps[i].start == s.gaps[i].start
      requires f.offset < s.gaps[i].end && endGap.start < f.End() < MAX_BYTE_COUNT && f.offset < f.End()
      requires e == if j == i then i else i + 1
      requires gaps == PartsAt(s.gaps, i, j).Passed(j > i && f.End() >= endGap.end)
      requires queued == s.queued - dropped && readPosition == s.readPosition
      modifies this`gaps, this`queued
      ensures Placed(s, f, i, j, dropped, State(), err)
    {
      GapsApart(s.gaps, i, j);
      FillAround(s.gaps, i, j, f.offset, f.End());
      var c := f.Clip(Max(f.offset, gaps[i].start), Min(f.End(), endGap.end));
      ShrinkGaps(i, e, endGap, c.offset, c.End(), PartsAt(s.gaps, i, j));
      if |gaps| > MAX_GAPS {
        return TooManyGaps;
      }
      queued := queued[c.offset := c];
      return NoError;
    }

    /** Queue what is missing of frame `f`, whose first missing byte, if any, lies in gap number `i`. */
    method Fill(f: StreamFrame, i: nat) returns (err: PushError, ghost j: nat, ghost dropped: set<nat>)
      requires GapsOk(gaps) && f.data != [] && i < |gaps| && gaps[i].start < f.End()
      requires f.offset < gaps[i].end || f.End() >= MAX_BYTE_COUNT
      modifies this`gaps, this`queued
      ensures err == NoEndGapFound <==> f.End() >= MAX_BYTE_COUNT
      ensures err != NoEndGapFound ==> Filled(old(State()), f, i, j, dropped, State(), err)
    {
      ghost var s := State();
      var found, e, endGap, detached;
      found, e, endGap, detached, j, dropped := FindEndGap(i, f.End());
      if !found {
        return NoEndGapFound, j, dropped;
      }
      err := Insert(f, i, e, endGap, s, j, dropped);
    }

    /** Cut off the bytes that are queued under the frame's own offset. */
    method CutQueued(frame: StreamFrame) returns (f: StreamFrame, duplicate: bool)
      requires EntriesOk(queued, gaps) && frame.data != []
      ensures duplicate ==> Covered(gaps, frame.offset, frame.End())
      ensures !duplicate ==> FrontCut(State(), frame, f)
      ensures !duplicate ==> f.offset == if frame.offset in queued then queued[frame.offset].End() else frame.offset
    {
      f := frame;
      if frame.offset in queued {
        var oldFrame := queued[frame.offset];
        if |frame.data| <= |oldFrame.data| {
          return f, true;
        }
        f := frame.Clip(oldFrame.End(), frame.End());
      }
      return f, false;
    }

    method Push(frame: StreamFrame) returns (err: PushError)
      requires Valid(State())
      modifies this`gaps, this`queued
      ensures PushPost(old(State()), frame, State(), err)
      ensures err == NoError ==> (Valid(State()) <==> !Displaces(old(State()), frame))
    {
      if |frame.data| == 0 {
        if frame.fin {
          PushFinValidIff(State(), frame);
          queued := queued[frame.offset := frame];
          return NoError;
        }
        return EmptyStreamData;
      }
      var f, duplicate := CutQueued(frame);
      if duplicate {
        return DuplicateStreamData;
      }
      var i;
      i, duplicate := FindGap(f.offset, f.End());
      if duplicate {
        return DuplicateStreamData;
      }
      if i == |gaps| {
        return NoGapFound;
      }
      if i + 1 < |gaps| {
        NotAtRegionStart(State(), frame, f.offset, i);
      }
      GapAt(gaps, i);
      ghost var j, dropped;
      err, j, dropped := Fill(f, i);
      if err != NoEndGapFound {
        FillResult(old(State()), frame, f, i, j, dropped, State(), err);
      }
    }

    /**
     The frame to read next. On an unreliable stream whose next byte is missing, `fillNow` says
     that the frames behind the gap have waited long enough, and the gap is filled with zeros.
     */
    method Head(unreliable: bool, fillNow: bool) returns (frame: Option<StreamFrame>)
      requires Valid(State()) && |gaps| <= MAX_GAPS
      requires unreliable && fillNow ==> |gaps| > 1
      modifies this`gaps, this`queued
      ensures Valid(State()) && |gaps| <= MAX_GAPS
      ensures old(readPosition in queued) || !unreliable || !fillNow ==>
                old(State()) == State() && frame == if readPosition in queued then Some(queued[readPosition]) else None
      ensures !old(readPosition in queued) && unreliable && fillNow ==>
                && gaps == old(gaps[1..])
                && readPosition in queued && frame == Some(queued[readPosition])
                && queued[readPosition].End() == old(gaps[0].end)
                && forall k :: 0 <= k < |queued[readPosition].data| ==> queued[readPosition].data[k] == 0
    {
      if readPosition in queued {
        return Some(queued[readPosition]);
      }
      if !unreliable || !fillNow {
        return None;
      }
      var gap := gaps[0];
      var zeros := seq(gap.end - gap.start + 1, _ => 0 as byte);
      var padding := StreamFrame(0, gap.start, zeros, false, false, false);
      var err := Push(padding);
      HeadFilled(old(State()), padding, State(), err);
      return Some(queued[readPosition]);
    }

    /** Take the frame to read next, if there is one. */
    method Pop(unreliable: bool, fillNow: bool) returns (frame: Option<StreamFrame>)
      requires Valid(State()) && |gaps| <= MAX_GAPS
      requires unreliable && fillNow ==> |gaps| > 1
      modifies this
      ensures Valid(State()) && |gaps| <= MAX_GAPS
      ensures frame.None? <==> old(readPosition !in queued) && !(unreliable && fillNow)
      ensures frame.None? ==> State() == old(State())
      ensures old(readPosition in queued) ==>
                && frame == Some(old(queued[readPosition]))
                && State() == SorterState(old(queued) - {old(readPosition)}, old(gaps), old(queued[readPosition].End()))
      ensures frame.Some? && old(readPosition !in queued) ==>
                && gaps == old(gaps[1..]) && readPosition == old(gaps[0].end) == frame.value.End()
                && forall k :: 0 <= k < |frame.value.data| ==> frame.value.data[k] == 0
    {
      frame := Head(unreliable, fillNow);
      if frame.Some? {
        PopKeepsValid(State());
        readPosition := readPosition + |frame.value.data|;
        queued := queued - {frame.value.offset};
      }
    }
  }
}
