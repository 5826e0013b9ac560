/**
 Where the scanner puts the tokens for the structure: which collection opens in front of which indicator, where the
 collections close, and in front of which token a key is marked. It holds for the tokens of every text.
 */
module YamlBlocks {
  import opened Wrappers
  import opened YamlGrammar
  import opened YamlQueue
  import opened YamlFetch
  import opened YamlTokens

  // ----- Looking at tokens from the left to the right -----

  predicate IsStart(k: TokenKind) {
    k == TBlockSequenceStart || k == TBlockMappingStart
  }

  predicate IsBoundary(k: TokenKind) {
    k in {TStreamEnd, TVersionDirective, TTagDirective, TDocumentStart, TDocumentEnd}
  }

  predicate IsIndicator(k: TokenKind) {
    k in {TBlockEntry, TKey, TValue}
  }

  /**
   What is known behind some tokens: the flow level, the columns of the open blocks, the start of a collection or the
   mark of a key if that was the last token, whether the last indicator outside flow collections was a key, and whether
   a block has been closed without need.
   */
  datatype Look = Look(
    flow: nat,
    columns: seq<int>,
    begun: Option<Scanned>,
    keyed: Option<Position>,
    key: bool,
    ending: bool)

  const NOTHING := Look(0, [], None, None, false, false)

  /** The column of the innermost block. */
  function Top(columns: seq<int>): int {
    if columns == [] then -1 else columns[|columns| - 1]
  }

  function Seen(l: Look, t: Scanned): Look {
    Look(FlowStep(l.flow, t.kind),
         if IsStart(t.kind) then l.columns + [t.start.column]
         else if t.kind == TBlockEnd && l.columns != [] then l.columns[..|l.columns| - 1]
         else l.columns,
         if IsStart(t.kind) then Some(t) else None,
         if t.kind == TKey && t.start == t.end then Some(t.start) else None,
         if l.flow == 0 && IsIndicator(t.kind) then t.kind == TKey else l.key,
         t.kind == TBlockEnd && t.start.column >= Top(l.columns))
  }

  /**
   A token in its place. The start of a sequence is followed by an entry and that of a mapping by a key or a value, each
   at the same position; the mark of a key is followed by what it marks. Outside flow collections no token stands left
   of the innermost block, entries and keys do not stand right of it, nor does a value unless a key is in front of it. A
   collection opens further to the right than the one around it, and closes when a token stands left of it or a
   document ends.
   */
  ghost predicate InPlace(l: Look, t: Scanned) {
    && (l.begun.Some? ==>
          && t.start == l.begun.value.start
          && (if l.begun.value.kind == TBlockSequenceStart then t.kind == TBlockEntry else t.kind in {TKey, TValue}))
    && (l.keyed.Some? ==> t.start == l.keyed.value && StartsKey(t.kind))
    && (l.ending ==> t.kind == TBlockEnd || IsBoundary(t.kind))
    && (if IsStart(t.kind) then l.flow == 0 && Top(l.columns) < t.start.column
        else if t.kind == TBlockEnd then l.flow == 0 && l.columns != []
        else l.flow == 0 ==> OutsideFlow(l, t))
  }

  ghost predicate OutsideFlow(l: Look, t: Scanned) {
    && Top(l.columns) <= t.start.column
    && (IsBoundary(t.kind) ==> l.columns == [])
    && (t.kind == TBlockEntry || t.kind == TKey ==> t.start.column <= Top(l.columns))
    && (t.kind == TValue ==> l.key || t.start.column <= Top(l.columns))
  }

  function SeenAll(l: Look, ts: seq<Scanned>): Look
    decreases |ts|
  {
    if ts == [] then l else SeenAll(Seen(l, ts[0]), ts[1..])
  }

  ghost predicate AllInPlace(l: Look, ts: seq<Scanned>)
    decreases |ts|
  {
    ts == [] || (InPlace(l, ts[0]) && AllInPlace(Seen(l, ts[0]), ts[1..]))
  }

  lemma {:induction false} InParts(l: Look, a: seq<Scanned>, b: seq<Scanned>)
    ensures SeenAll(l, a + b) == SeenAll(SeenAll(l, a), b)
    ensures AllInPlace(l, a + b) <==> AllInPlace(l, a) && AllInPlace(SeenAll(l, a), b)
    decreases |a|
  {
    hide InPlace, Seen;
    if a == [] {
      assert a + b == b;
    } else {
      assert (a + b)[0] == a[0] && (a + b)[1..] == a[1..] + b;
      InParts(Seen(l, a[0]), a[1..], b);
    }
  }

  lemma OneMore(l: Look, a: seq<Scanned>, t: Scanned)
    ensures SeenAll(l, a + [t]) == Seen(SeenAll(l, a), t)
    ensures AllInPlace(l, a + [t]) <==> AllInPlace(l, a) && InPlace(SeenAll(l, a), t)
  {
    hide InPlace, Seen;
    InParts(l, a, [t]);
    var m := SeenAll(l, a);
    assert [t][0] == t && [t][1..] == [];
    assert SeenAll(m, [t]) == SeenAll(Seen(m, t), []) == Seen(m, t);
  }

  // ----- Positions -----

  ghost predicate Before(p: Position, q: Position) {
    p.line < q.line || (p.line == q.line && p.column <= q.column)
  }

  /** Where the scanner stands behind a piece of text. */
  function EndOf(input: Input): Position {
    if input.what.EndOfStream? then LineEnd(input.mark) else input.end
  }

  /** The pieces of a text follow one another, and a `?` has a width. */
  ghost predicate Advances(from: Position, inputs: seq<Input>)
    decreases |inputs|
  {
    inputs == [] || (&& Before(from, inputs[0].mark) && Before(inputs[0].mark, inputs[0].end)
                     && (inputs[0].what.KeyMark? ==> inputs[0].mark != inputs[0].end)
                     && Advances(EndOf(inputs[0]), inputs[1..]))
  }

  // ----- The invariant -----

  predicate Settled(l: Look) {
    l.begun.None? && l.keyed.None? && !l.ending
  }

  /** Tokens that a key may consist of: outside flow collections only such as may be keys themselves. */
  ghost predicate Quiet(level: nat, ts: seq<Scanned>)
    decreases |ts|
  {
    ts == [] || (&& (level == 0 ==> StartsKey(ts[0].kind)) && !IsStart(ts[0].kind) && ts[0].kind != TBlockEnd
                 && Quiet(FlowStep(level, ts[0].kind), ts[1..]))
  }

  ghost predicate Between(p: Position, ts: seq<Scanned>, q: Position) {
    Before(p, q) && forall i :: 0 <= i < |ts| ==> Before(p, ts[i].start) && Before(ts[i].start, q)
  }

  /** The columns of the blocks are the ones that the scanner remembers. */
  ghost predicate Matches(c: Core, l: Look) {
    l.flow == c.flow && [-1] + l.columns == c.indents + [c.indent]
  }

  /** What is known about the key of level `i`. */
  ghost predicate KeyInPlace(c: Core, at: Position, i: nat)
    requires i < |c.keys|
  {
    var n := c.keys[i].tokenNumber;
    && n <= |All(c)|
    && var l := SeenAll(NOTHING, All(c)[..n]);
       && l.flow == i && Settled(l)
       && (i == 0 ==> && c.indent <= c.keys[0].mark.column && l.columns == SeenAll(NOTHING, All(c)).columns
                      && Quiet(0, All(c)[n..]) && Between(c.keys[0].mark, All(c)[n..], at))
  }

  ghost predicate KeysInPlace(c: Core, at: Position) {
    forall i :: 0 <= i < |c.keys| && c.keys[i].possible ==> KeyInPlace(c, at, i)
  }

  ghost predicate Layout(c: Core, at: Position) {
    && AllInPlace(NOTHING, All(c)) && Matches(c, SeenAll(NOTHING, All(c))) && Settled(SeenAll(NOTHING, All(c)))
    && KeysInPlace(c, at) && |c.keys| == c.flow + 1
  }

  lemma TopIsIndent(c: Core, l: Look)
    requires Matches(c, l)
    ensures Top(l.columns) == c.indent && |l.columns| == |c.indents|
  {
    assert ([-1] + l.columns)[|l.columns|] == (c.indents + [c.indent])[|c.indents|];
  }

  lemma BeforeIsTransitive(p: Position, q: Position, r: Position)
    requires Before(p, q) && Before(q, r)
    ensures Before(p, r)
  {
  }

  lemma LayoutFewer(c: Core, at: Position, keys: seq<SimpleKey>, at': Position)
    requires Layout(c, at) && Fewer(c.keys, keys) && Before(at, at')
    ensures Layout(c.(keys := keys), at')
  {
    hide SeenAll, AllInPlace, Quiet;
    var d := c.(keys := keys);
    forall i | 0 <= i < |keys| && keys[i].possible ensures KeyInPlace(d, at', i) {
      assert KeyInPlace(c, at, i) && All(d) == All(c);
    }
  }

  // ----- Tokens behind the others -----

  lemma {:induction false} QuietParts(level: nat, a: seq<Scanned>, b: seq<Scanned>)
    ensures Quiet(level, a + b) <==> Quiet(level, a) && Quiet(FlowFrom(level, a), b)
    decreases |a|
  {
    if a == [] {
      assert a + b == b;
    } else {
      assert (a + b)[0] == a[0] && (a + b)[1..] == a[1..] + b;
      QuietParts(FlowStep(level, a[0].kind), a[1..], b);
    }
  }

  lemma {:induction false} FlowIsSeen(l: Look, ts: seq<Scanned>)
    ensures SeenAll(l, ts).flow == FlowFrom(l.flow, ts)
    decreases |ts|
  {
    if ts != [] {
      FlowIsSeen(Seen(l, ts[0]), ts[1..]);
    }
  }

  /** A token that may stand inside the key of the outermost level. */
  ghost predicate MayBeInKey(level: nat, t: Scanned) {
    (level == 0 ==> StartsKey(t.kind)) && !IsStart(t.kind) && t.kind != TBlockEnd
  }

  lemma KeyGrows(c: Core, at: Position, d: Core, t: Scanned, at': Position, i: nat)
    requires i < |c.keys| && i < |d.keys| && d.keys[i] == c.keys[i] && KeyInPlace(c, at, i) && All(d) == All(c) + [t]
    requires Before(at, t.start) && Before(t.start, at')
    requires i == 0 ==> d.indent == c.indent && MayBeInKey(SeenAll(NOTHING, All(c)).flow, t)
    ensures KeyInPlace(d, at', i)
  {
    hide SeenAll, Quiet, FlowFrom;
    var n := c.keys[i].tokenNumber;
    var a, b := All(c)[..n], All(c)[n..];
    assert All(d)[..n] == a && All(d)[n..] == b + [t] && All(c) == a + b;
    if i == 0 {
      hide AllInPlace;
      OneMore(NOTHING, All(c), t);
      InParts(NOTHING, a, b);
      FlowIsSeen(SeenAll(NOTHING, a), b);
      QuietOne(FlowFrom(0, b), t);
      QuietParts(0, b, [t]);
      BeforeIsTransitive(c.keys[0].mark, at, t.start);
      BeforeIsTransitive(at, t.start, at');
      BeforeIsTransitive(c.keys[0].mark, at, at');
      forall j | 0 <= j < |b + [t]|
        ensures Before(c.keys[0].mark, (b + [t])[j].start) && Before((b + [t])[j].start, at')
      {
        if j < |b| {
          BeforeIsTransitive(b[j].start, at, at');
        }
      }
    }
  }

  lemma QuietOne(level: nat, t: Scanned)
    requires MayBeInKey(level, t)
    ensures Quiet(level, [t])
  {
    assert [t][0] == t && [t][1..] == [];
  }

  /** A new key names the token that follows. */
  lemma KeyBegins(c: Core, d: Core, t: Scanned, at': Position)
    requires AllInPlace(NOTHING, All(c)) && Settled(SeenAll(NOTHING, All(c))) && SeenAll(NOTHING, All(c)).flow == c.flow
    requires c.flow < |d.keys| && d.keys[c.flow].tokenNumber == |All(c)| && All(d) == All(c) + [t]
    requires StartsKey(t.kind) && Before(t.start, at') && d.keys[c.flow].mark == t.start
    requires c.flow == 0 ==> d.indent <= t.start.column
    ensures KeyInPlace(d, at', c.flow)
  {
    hide SeenAll, AllInPlace, Seen, InPlace, StartsKey;
    var n := |All(c)|;
    assert All(d)[..n] == All(c) && All(d)[n..] == [t];
    OneMore(NOTHING, All(c), t);
    KeyTokenSeen(SeenAll(NOTHING, All(c)), t);
    if c.flow == 0 {
      QuietOne(0, t);
    }
  }

  lemma KeyTokenSeen(l: Look, t: Scanned)
    requires StartsKey(t.kind)
    ensures Seen(l, t).columns == l.columns && MayBeInKey(0, t)
  {
  }

  ghost predicate KeptOrNew(c: Core, d: Core, t: Scanned, i: nat)
    requires i < |d.keys|
  {
    || (i < |c.keys| && d.keys[i] == c.keys[i])
    || (&& i == c.flow && d.keys[i].tokenNumber == |All(c)| && d.keys[i].mark == t.start && StartsKey(t.kind)
        && (i == 0 ==> d.indent <= t.start.column))
  }

  /** One more token in its place. */
  lemma LayoutAppend(c: Core, at: Position, d: Core, t: Scanned, at': Position)
    requires Layout(c, at) && All(d) == All(c) + [t] && |d.keys| == d.flow + 1
    requires Before(at, t.start) && Before(t.start, at')
    requires var l := SeenAll(NOTHING, All(c)); InPlace(l, t) && Settled(Seen(l, t)) && Matches(d, Seen(l, t))
    requires forall i :: 0 <= i < |d.keys| && d.keys[i].possible ==> KeptOrNew(c, d, t, i)
    requires d.keys[0].possible ==> d.indent == c.indent && MayBeInKey(c.flow, t)
    ensures Layout(d, at')
  {
    hide SeenAll, AllInPlace, InPlace, Seen, KeyInPlace;
    OneMore(NOTHING, All(c), t);
    forall i | 0 <= i < |d.keys| && d.keys[i].possible ensures KeyInPlace(d, at', i) {
      if i < |c.keys| && d.keys[i] == c.keys[i] {
        KeyGrows(c, at, d, t, at', i);
      } else {
        KeyBegins(c, d, t, at');
      }
    }
  }

  // ----- Closing blocks -----

  function Closed(c: Core, at: Position): Core
    requires c.indents != []
  {
    var n := |c.indents| - 1;
    c.(queue := c.queue + [Scanned(TBlockEnd, at, at)], indents := c.indents[..n], indent := c.indents[n])
  }

  lemma ClosedMatches(c: Core, at: Position, l: Look)
    requires Matches(c, l) && c.indent > -1
    ensures c.indents != [] && l.columns != [] && Matches(Closed(c, at), Seen(l, Scanned(TBlockEnd, at, at)))
    ensures All(Closed(c, at)) == All(c) + [Scanned(TBlockEnd, at, at)]
  {
    TopIsIndent(c, l);
    var n := |c.indents| - 1;
    assert ([-1] + l.columns)[..n + 1] == (c.indents + [c.indent])[..n + 1];
    assert [-1] + l.columns[..n] == c.indents[..n] + [c.indents[n]];
  }

  /** A token left of a block closes it; a key that has not been given up stands in the way of nothing. */
  lemma {:induction false} LayoutClose(c: Core, at: Position)
    requires Layout(c, at) && forall i :: 0 <= i < |c.keys| && c.keys[i].possible ==> c.keys[i].mark.line >= at.line
    ensures var d := CloseBlocks(c, at.column, at);
            Layout(d, at) && d.keys == c.keys && d.flow == c.flow && (c.flow == 0 ==> d.indent <= at.column)
    decreases |c.indents|
  {
    hide SeenAll, AllInPlace;
    if c.flow == 0 && c.indent > at.column {
      var l, t := SeenAll(NOTHING, All(c)), Scanned(TBlockEnd, at, at);
      ClosedMatches(c, at, l);
      TopIsIndent(c, l);
      assert !c.keys[0].possible;
      LayoutAppend(c, at, Closed(c, at), t, at);
      LayoutClose(Closed(c, at), at);
    }
  }

  /** The blocks are closed without need. */
  ghost predicate Closing(c: Core) {
    && AllInPlace(NOTHING, All(c)) && Matches(c, SeenAll(NOTHING, All(c)))
    && SeenAll(NOTHING, All(c)).begun.None? && SeenAll(NOTHING, All(c)).keyed.None?
  }

  lemma {:induction false} LayoutCloseAll(c: Core, at: Position)
    requires Closing(c) && c.flow == 0 && IndentsOk(c.indents, c.indent)
    ensures var d := CloseBlocks(c, -1, at);
            Closing(d) && d.keys == c.keys && d.flow == 0 && SeenAll(NOTHING, All(d)).columns == [] && d.indent == -1
    decreases |c.indents|
  {
    hide SeenAll, AllInPlace;
    var l := SeenAll(NOTHING, All(c));
    TopIsIndent(c, l);
    if c.indent > -1 {
      ClosedMatches(c, at, l);
      PopIndent(c.indents, c.indent);
      OneMore(NOTHING, All(c), Scanned(TBlockEnd, at, at));
      LayoutCloseAll(Closed(c, at), at);
    } else {
      assert c.indents == [] && c.indent == -1;
    }
  }

  // ----- Opening blocks -----

  /** The position of the next token: the blocks to its right are closed, and keys on other lines are given up. */
  ghost predicate Ready(s: Scan) {
    && Inv(s.core) && Layout(s.core, s.mark) && (s.core.flow == 0 ==> s.core.indent <= s.mark.column)
    && forall i :: 0 <= i < |s.core.keys| && s.core.keys[i].possible ==> s.core.keys[i].mark.line >= s.mark.line
  }

  predicate HasText(t: Scanned) {
    IsIndicator(t.kind) && (t.kind == TKey ==> t.start != t.end)
  }

  lemma IndicatorInPlace(l: Look, t: Scanned)
    requires Settled(l) && HasText(t) && (l.flow > 0 || Top(l.columns) == t.start.column)
    ensures InPlace(l, t) && Settled(Seen(l, t)) && Seen(l, t).columns == l.columns && Seen(l, t).flow == l.flow
  {
  }

  lemma BlockInPlace(l: Look, s: Scanned, t: Scanned)
    requires Settled(l) && HasText(t) && l.flow == 0 && Top(l.columns) < t.start.column && s.start == t.start
    requires s.kind == if t.kind == TBlockEntry then TBlockSequenceStart else TBlockMappingStart
    ensures InPlace(l, s) && InPlace(Seen(l, s), t) && Settled(Seen(Seen(l, s), t))
    ensures Seen(Seen(l, s), t).columns == l.columns + [s.start.column] && Seen(Seen(l, s), t).flow == 0
  {
  }

  /** An entry, a key or a value that no key belongs to, and a block around it if it stands deeper than the others. */
  lemma LayoutIndicator(c: Core, at: Position, kind: TokenKind, t: Scanned)
    requires Layout(c, at) && (c.flow == 0 ==> c.indent <= at.column && !c.keys[0].possible)
    requires t.start == at && Before(at, t.end) && HasText(t)
    requires kind == if t.kind == TBlockEntry then TBlockSequenceStart else TBlockMappingStart
    ensures Layout(Add(OpenBlock(c, kind, at), t), t.end)
  {
    hide SeenAll, AllInPlace, KeyInPlace, Seen, InPlace, Settled;
    var l := SeenAll(NOTHING, All(c));
    TopIsIndent(c, l);
    if c.flow > 0 || c.indent >= at.column {
      assert All(Add(c, t)) == All(c) + [t];
      IndicatorInPlace(l, t);
      LayoutAppend(c, at, Add(c, t), t, t.end);
    } else {
      var d, s := OpenBlock(c, kind, at), Scanned(kind, at, at);
      BlockInPlace(l, s, t);
      assert All(d) == All(c) + [s] && All(Add(d, t)) == All(d) + [t];
      OneMore(NOTHING, All(c), s);
      OneMore(NOTHING, All(d), t);
      assert [-1] + (l.columns + [at.column]) == c.indents + [c.indent] + [at.column];
    }
  }

  // ----- Marking a key -----

  /** Behind the mark of a key nothing changes but the innermost block and the memory of a key. */
  lemma {:induction false} BehindKeyed(l: Look, columns: seq<int>, ts: seq<Scanned>)
    requires AllInPlace(l, ts) && Quiet(l.flow, ts) && l.begun.None? && !l.ending
    requires forall i :: 0 <= i < |ts| ==> Top(columns) <= ts[i].start.column
    ensures AllInPlace(l.(columns := columns, key := true), ts)
    ensures SeenAll(l.(columns := columns, key := true), ts) == SeenAll(l, ts).(columns := columns, key := true)
    decreases |ts|
  {
    if ts != [] {
      var m := l.(columns := columns, key := true);
      assert InPlace(m, ts[0]) && Seen(m, ts[0]) == Seen(l, ts[0]).(columns := columns, key := true);
      BehindKeyed(Seen(l, ts[0]), columns, ts[1..]);
    }
  }

  /** The tokens from the key on stand in its line, so not left of it. */
  lemma KeyIsLeft(c: Core, at: Position)
    requires c.keys != [] && KeyInPlace(c, at, 0) && c.keys[0].mark.line >= at.line
    ensures var b := All(c)[c.keys[0].tokenNumber..];
            forall i :: 0 <= i < |b| ==> c.keys[0].mark.column <= b[i].start.column
  {
  }

  /** What the insertion of `more` in front of the tokens `b` does. */
  lemma Inserted(c: Core)
    requires Ok(c, []) && HasKey(c)
    ensures KeyInQueue(c)
    ensures var key, d := c.keys[c.flow], WithKey(c);
            var n, more := key.tokenNumber, KeyTokens(key, c.flow == 0 && c.indent < key.mark.column);
            && n < |All(c)| && All(d) == All(c)[..n] + more + All(c)[n..]
            && All(c)[n].start == key.mark && StartsKey(All(c)[n].kind)
  {
    hide Balanced, Depth, KeysOk, KeyTokens, IndentsOk;
    OkKey(c);
    var key, d := c.keys[c.flow], WithKey(c);
    var n, p := key.tokenNumber, key.tokenNumber - |c.taken|;
    assert All(c)[..n] == c.taken + c.queue[..p] && All(c)[n..] == c.queue[p..];
  }

  /** The mark of a key in front of the first of some tokens. */
  lemma KeyIsMarked(l: Look, columns: seq<int>, mark: Position, b: seq<Scanned>)
    requires AllInPlace(l, b) && Quiet(0, b) && l.flow == 0 && Settled(l)
    requires b != [] && b[0].start == mark && StartsKey(b[0].kind)
    requires forall i :: 0 <= i < |b| ==> Top(columns) <= b[i].start.column
    ensures var m := l.(columns := columns, key := true, keyed := Some(mark));
            AllInPlace(m, b) && SeenAll(m, b) == SeenAll(l, b).(columns := columns, key := true)
  {
    var m := l.(columns := columns, key := true, keyed := Some(mark));
    assert InPlace(m, b[0]) && Seen(m, b[0]) == Seen(l, b[0]).(columns := columns, key := true);
    BehindKeyed(Seen(l, b[0]), columns, b[1..]);
  }

  lemma KeyTokensInPlace(l: Look, key: SimpleKey, opens: bool)
    requires l.flow == 0 && Settled(l) && if opens then Top(l.columns) < key.mark.column
             else Top(l.columns) == key.mark.column
    ensures var columns := if opens then l.columns + [key.mark.column] else l.columns;
            && AllInPlace(l, KeyTokens(key, opens))
            && SeenAll(l, KeyTokens(key, opens)) == l.(columns := columns, key := true, keyed := Some(key.mark))
  {
    var k := Scanned(TKey, key.mark, key.mark);
    if opens {
      var s := Scanned(TBlockMappingStart, key.mark, key.mark);
      assert KeyTokens(key, opens) == [s] + [k];
      OneMore(l, [s], k);
      OneMore(l, [], s);
      assert [] + [s] == [s];
    } else {
      assert KeyTokens(key, opens) == [] + [k];
      OneMore(l, [], k);
    }
  }

  lemma OutermostKey(c: Core, at: Position)
    requires Ok(c, []) && Layout(c, at) && c.flow == 0 && c.keys[0].possible && c.keys[0].mark.line >= at.line
    ensures KeyInQueue(c) && Layout(WithKey(c), at) && SeenAll(NOTHING, All(WithKey(c))).key
    ensures WithKey(c).indent <= c.keys[0].mark.column
  {
    hide Ok, SeenAll, AllInPlace, Quiet, KeyTokens;
    Inserted(c);
    var key, d := c.keys[0], WithKey(c);
    var opens := c.indent < key.mark.column;
    assert KeyInPlace(c, at, 0);
    var a, b := All(c)[..key.tokenNumber], All(c)[key.tokenNumber..];
    assert All(c) == a + b;
    var l, more := SeenAll(NOTHING, a), KeyTokens(key, opens);
    var columns := if opens then l.columns + [key.mark.column] else l.columns;
    InParts(NOTHING, a, b);
    InParts(NOTHING, a, more);
    InParts(NOTHING, a + more, b);
    TopIsIndent(c, SeenAll(NOTHING, All(c)));
    KeyTokensInPlace(l, key, opens);
    KeyIsLeft(c, at);
    KeyIsMarked(l, columns, key.mark, b);
    assert [-1] + (l.columns + [key.mark.column]) == c.indents + [c.indent] + [key.mark.column];
  }

  /** Inside flow collections the mark of a key changes nothing but what has to follow it. */
  lemma InnerKeyIsMarked(l: Look, key: SimpleKey, b: seq<Scanned>)
    requires AllInPlace(l, b) && l.flow > 0 && Settled(l) && b != [] && b[0].start == key.mark && StartsKey(b[0].kind)
    ensures var more := KeyTokens(key, false);
            AllInPlace(l, more) && AllInPlace(SeenAll(l, more), b) && SeenAll(SeenAll(l, more), b) == SeenAll(l, b)
  {
    var k := Scanned(TKey, key.mark, key.mark);
    assert KeyTokens(key, false) == [] + [k];
    OneMore(l, [], k);
    var m := l.(keyed := Some(key.mark));
    assert InPlace(m, b[0]) && Seen(m, b[0]) == Seen(l, b[0]);
  }

  /** A key of an outer level stays where it is. */
  lemma OuterKeyStays(c: Core, at: Position, d: Core, n: nat, k: Scanned, i: nat)
    requires i < |c.keys| && i < |d.keys| && d.keys[i] == c.keys[i] && KeyInPlace(c, at, i)
    requires c.keys[i].tokenNumber < n < |All(c)| && All(d) == All(c)[..n] + [k] + All(c)[n..]
    requires SeenAll(NOTHING, All(d)) == SeenAll(NOTHING, All(c)) && d.indent == c.indent
    requires k.kind == TKey && k.start == All(c)[n].start && SeenAll(NOTHING, All(c)[..n]).flow > 0
    ensures KeyInPlace(d, at, i)
  {
    hide SeenAll, Quiet, FlowFrom;
    var j := c.keys[i].tokenNumber;
    assert All(d)[..j] == All(c)[..j];
    if i == 0 {
      var a, x, y := All(c)[..j], All(c)[j..n], All(c)[n..];
      assert All(c)[..n] == a + x && All(c)[j..] == x + y && All(d)[j..] == x + ([k] + y);
      InParts(NOTHING, a, x);
      FlowIsSeen(SeenAll(NOTHING, a), x);
      QuietParts(0, x, y);
      QuietParts(0, x, [k] + y);
      QuietFirst(FlowFrom(0, x), k, y);
      var b, b' := All(c)[j..], All(d)[j..];
      forall m | 0 <= m < |b'| ensures Before(c.keys[0].mark, b'[m].start) && Before(b'[m].start, at) {
        if m < n - j {
          assert b'[m] == b[m];
        } else if m == n - j {
          assert b'[m] == k && b[m] == All(c)[n];
        } else {
          assert b'[m] == b[m - 1];
        }
      }
    }
  }

  lemma QuietFirst(level: nat, k: Scanned, y: seq<Scanned>)
    requires level > 0 && k.kind == TKey
    ensures Quiet(level, [k] + y) <==> Quiet(level, y)
  {
    assert ([k] + y)[0] == k && ([k] + y)[1..] == y;
  }

  lemma InnerKey(c: Core, at: Position)
    requires Ok(c, []) && Layout(c, at) && c.flow > 0 && c.keys[c.flow].possible
    ensures KeyInQueue(c) && Layout(WithKey(c), at)
  {
    hide SeenAll, AllInPlace, Quiet, Balanced, Depth, IndentsOk;
    hide KeyInPlace;
    Inserted(c);
    var key, d := c.keys[c.flow], WithKey(c);
    var n, k := key.tokenNumber, Scanned(TKey, key.mark, key.mark);
    KeyLevel(c, at, c.flow);
    var a, b := All(c)[..n], All(c)[n..];
    assert All(c) == a + b && KeyTokens(key, false) == [k];
    InParts(NOTHING, a, b);
    InParts(NOTHING, a, [k]);
    InParts(NOTHING, a + [k], b);
    InnerKeyIsMarked(SeenAll(NOTHING, a), key, b);
    forall i | 0 <= i < |d.keys| && d.keys[i].possible ensures KeyInPlace(d, at, i) {
      OuterKeyStays(c, at, d, n, k, i);
    }
  }

  lemma KeyLevel(c: Core, at: Position, i: nat)
    requires i < |c.keys| && KeyInPlace(c, at, i)
    ensures var n := c.keys[i].tokenNumber;
            n <= |All(c)| && SeenAll(NOTHING, All(c)[..n]).flow == i && Settled(SeenAll(NOTHING, All(c)[..n]))
  {
  }

  // ----- Fetching keeps everything in its place -----

  ghost predicate Lays(f: Fetch) {
    f.Fetched? ==> Layout(f.state.core, f.state.mark)
  }

  lemma PlainInPlace(l: Look, t: Scanned)
    requires Settled(l) && !IsStart(t.kind) && t.kind != TBlockEnd && !IsIndicator(t.kind) && !IsBoundary(t.kind)
    requires l.flow == 0 ==> Top(l.columns) <= t.start.column
    ensures InPlace(l, t) && Settled(Seen(l, t)) && Seen(l, t).columns == l.columns
    ensures Seen(l, t).flow == FlowStep(l.flow, t.kind)
  {
  }

  lemma KeyTokenLays(s: Scan, t: Scanned, wellFormed: bool, opens: bool)
    requires Ready(s) && StartsKey(t.kind) && t.start == s.mark && Before(s.mark, t.end)
    requires opens == (t.kind == TFlowSequenceStart || t.kind == TFlowMappingStart)
    ensures Lays(KeyToken(s, t, wellFormed, opens))
  {
    hide Inv, SeenAll, AllInPlace, InPlace, Seen, Settled, KeyInPlace, Layout;
    var c := s.core;
    LayoutIs(c, s.mark);
    var l, saved := SeenAll(NOTHING, All(c)), Saved(c, s.allowed, s.mark);
    var d := Add(if opens then Deeper(saved) else saved, t);
    TopIsIndent(c, l);
    PlainInPlace(l, t);
    assert All(d) == All(c) + [t];
    LayoutAppend(c, s.mark, d, t, t.end);
  }

  lemma LayoutIs(c: Core, at: Position)
    requires Layout(c, at)
    ensures var l := SeenAll(NOTHING, All(c)); Matches(c, l) && Settled(l) && |c.keys| == c.flow + 1
  {
  }

  lemma PlainLays(s: Scan, t: Scanned, allowed: bool)
    requires Ready(s) && (t.kind == TFlowEntry || t.kind == TScalar) && t.start == s.mark && Before(s.mark, t.end)
    ensures Lays(PlainToken(s, t, allowed))
  {
    hide Inv, SeenAll, AllInPlace, InPlace, Seen, Settled, KeyInPlace, Layout;
    var c := Forget(s.core);
    ForgetIsFewer(s.core);
    LayoutFewer(s.core, s.mark, c.keys, s.mark);
    LayoutIs(c, s.mark);
    var l := SeenAll(NOTHING, All(c));
    TopIsIndent(c, l);
    PlainInPlace(l, t);
    assert All(Add(c, t)) == All(c) + [t];
    LayoutAppend(c, s.mark, Add(c, t), t, t.end);
  }

  lemma FlowEndLays(s: Scan, t: Scanned)
    requires Ready(s) && (t.kind == TFlowSequenceEnd || t.kind == TFlowMappingEnd) && t.start == s.mark
    requires Before(s.mark, t.end)
    ensures Lays(FlowEndToken(s, t))
  {
    hide Inv, SeenAll, AllInPlace, InPlace, Seen, Settled, KeyInPlace, Layout;
    var c := Forget(s.core);
    ForgetIsFewer(s.core);
    LayoutFewer(s.core, s.mark, c.keys, s.mark);
    LayoutIs(c, s.mark);
    var l, d := SeenAll(NOTHING, All(c)), Add(Shallower(c), t);
    TopIsIndent(c, l);
    PlainInPlace(l, t);
    assert All(d) == All(c) + [t];
    LayoutAppend(c, s.mark, d, t, t.end);
  }

  lemma BoundaryInPlace(l: Look, t: Scanned)
    requires l.begun.None? && l.keyed.None? && IsBoundary(t.kind) && (l.flow == 0 ==> l.columns == [])
    requires l.flow > 0 ==> !l.ending
    ensures InPlace(l, t) && Settled(Seen(l, t)) && Seen(l, t).columns == l.columns && Seen(l, t).flow == l.flow
  {
  }

  lemma BoundaryLays(s: Scan, t: Scanned)
    requires Inv(s.core) && Layout(s.core, s.mark) && IsBoundary(t.kind) && t.start == s.mark && Before(s.mark, t.end)
    ensures Lays(Boundary(s, t))
  {
    hide SeenAll, AllInPlace, InPlace, Seen, KeyInPlace, Balanced, Depth, KeysOk, Ends, FlowFrom;
    var c := Forget(s.core);
    ForgetIsFewer(s.core);
    LayoutFewer(s.core, s.mark, c.keys, s.mark);
    ClosedAndForgotten(s.core, s.mark);
    if c.flow == 0 {
      LayoutCloseAll(c, s.mark);
      var d := CloseBlocks(c, -1, s.mark);
      BoundaryInPlace(SeenAll(NOTHING, All(d)), t);
      assert All(Add(d, t)) == All(d) + [t];
      OneMore(NOTHING, All(d), t);
    } else {
      BoundaryInPlace(SeenAll(NOTHING, All(c)), t);
      assert All(Add(c, t)) == All(c) + [t];
      LayoutAppend(c, s.mark, Add(c, t), t, t.end);
    }
  }

  lemma {:induction false} ClosedAndForgotten(c: Core, at: Position)
    ensures Forget(CloseBlocks(c, -1, at)) == CloseBlocks(Forget(c), -1, at)
    decreases |c.indents|
  {
    if !(c.flow > 0 || c.indent <= -1 || c.indents == []) {
      ClosedAndForgotten(Closed(c, at), at);
    }
  }

  lemma IndicatorLays(s: Scan, t: Scanned, entry: bool)
    requires Ready(s) && t.kind == (if entry then TBlockEntry else TKey) && t.start == s.mark && Before(s.mark, t.end)
    requires HasText(t)
    ensures Lays(Indicator(s, t, entry))
  {
    hide Inv, SeenAll, AllInPlace, InPlace, Seen, KeyInPlace, Layout;
    var c := Forget(s.core);
    ForgetIsFewer(s.core);
    LayoutFewer(s.core, s.mark, c.keys, s.mark);
    LayoutIs(c, s.mark);
    LayoutIndicator(c, s.mark, if entry then TBlockSequenceStart else TBlockMappingStart, t);
  }

  lemma ValueInPlace(l: Look, t: Scanned)
    requires Settled(l) && t.kind == TValue && (l.flow == 0 ==> l.key && Top(l.columns) <= t.start.column)
    ensures InPlace(l, t) && Settled(Seen(l, t)) && Seen(l, t).columns == l.columns && Seen(l, t).flow == l.flow
  {
  }

  lemma ValueLays(s: Scan, t: Scanned)
    requires Ready(s) && t.kind == TValue && t.start == s.mark && Before(s.mark, t.end)
    ensures Lays(ValueToken(s, t))
  {
    hide SeenAll, AllInPlace, InPlace, Seen, KeyInPlace, Layout, Ok, Ends, FlowFrom, WithKey, OpenBlock;
    var c := s.core;
    LayoutIs(c, s.mark);
    if HasKey(c) {
      if c.flow == 0 {
        OutermostKey(c, s.mark);
        KeyBefore(c, s.mark);
      } else {
        InnerKey(c, s.mark);
      }
      var d := WithKey(c);
      WithKeyIs(c);
      LayoutIs(d, s.mark);
      var l := SeenAll(NOTHING, All(d));
      TopIsIndent(d, l);
      ValueInPlace(l, t);
      assert All(Add(d, t)) == All(d) + [t];
      LayoutAppend(d, s.mark, Add(d, t), t, t.end);
    } else {
      LayoutIndicator(c, s.mark, TBlockMappingStart, t);
    }
  }

  lemma WithKeyIs(c: Core)
    requires KeyInQueue(c)
    ensures WithKey(c).flow == c.flow && |WithKey(c).keys| == |c.keys| && !WithKey(c).keys[c.flow].possible
  {
  }

  lemma KeyBefore(c: Core, at: Position)
    requires Layout(c, at) && c.flow == 0 && c.keys[0].possible && c.keys[0].mark.line >= at.line
    ensures c.keys[0].mark.column <= at.column
  {
    assert KeyInPlace(c, at, 0);
  }

  lemma DispatchLays(s: Scan, input: Input)
    requires Ready(s) && s.mark == input.mark && Before(input.mark, input.end)
    requires input.what.KeyMark? ==> input.mark != input.end
    ensures Lays(Dispatch(s, input))
  {
    hide Inv, Layout, Ready, Lays, Boundary, PlainToken, FlowEndToken, Indicator, ValueToken, KeyToken, Before, LineEnd;
    var kind := KindOf(input.what);
    var t := Scanned(if kind.Some? then kind.value else TKey, s.mark, input.end, input.text);
    NothingLaid();
    ReadyIs(s);
    match input.what
    case EndOfStream =>
      NextLine(s);
      BoundaryLays(s.(mark := LineEnd(s.mark)), Scanned(TStreamEnd, LineEnd(s.mark), LineEnd(s.mark)));
    case Directive(_) => BoundaryLays(s, t);
    case DocumentIndicator(_) => BoundaryLays(s, t);
    case FlowStart(_) => KeyTokenLays(s, t, true, true);
    case FlowEnd(_) => FlowEndLays(s, t);
    case FlowEntryMark => PlainLays(s, t, true);
    case BlockEntryMark => IndicatorLays(s, t, true);
    case KeyMark => IndicatorLays(s, t, false);
    case ValueMark => ValueLays(s, t);
    case AnchorMark(_) => KeyTokenLays(s, t, input.wellFormed, false);
    case TagMark => KeyTokenLays(s, t, input.wellFormed, false);
    case ScalarMark => KeyTokenLays(s, t, input.wellFormed, false);
    case BlockScalarMark => PlainLays(s, t, true);
    case BadCharacter =>
  }

  lemma NothingLaid()
    ensures Lays(Failure) && Lays(Panic)
  {
  }

  lemma ReadyIs(s: Scan)
    requires Ready(s)
    ensures Inv(s.core) && Layout(s.core, s.mark)
  {
  }

  /** The end of the stream starts a new line. */
  lemma NextLine(s: Scan)
    requires Layout(s.core, s.mark)
    ensures Layout(s.core, LineEnd(s.mark)) && Before(LineEnd(s.mark), LineEnd(s.mark))
  {
    hide SeenAll, AllInPlace, KeyInPlace;
    LayoutFewer(s.core, s.mark, s.core.keys, LineEnd(s.mark));
  }

  lemma ApproachReadies(s: Scan, input: Input)
    requires Inv(s.core) && Layout(s.core, s.mark) && Before(s.mark, input.mark) && Approach(s, input).Fetched?
    ensures Ready(Approach(s, input).state) && Approach(s, input).state.mark == input.mark
  {
    hide Inv, Layout, CloseBlocks, KeyLost;
    var keys := WithoutStale(s.core.keys, input.mark);
    var c := s.core.(keys := keys);
    InvFewer(s.core, keys);
    InvClose(c, input.mark.column, input.mark);
    LayoutFewer(s.core, s.mark, keys, input.mark);
    LayoutClose(c, input.mark);
  }

  lemma FetchLays(s: Scan, input: Input)
    requires Inv(s.core) && Layout(s.core, s.mark) && Before(s.mark, input.mark) && Before(input.mark, input.end)
    requires input.what.KeyMark? ==> input.mark != input.end
    ensures Lays(FetchNext(s, input))
  {
    hide Inv, Layout, Approach, Dispatch, Ready;
    NothingLaid();
    if Approach(s, input).Fetched? {
      ApproachReadies(s, input);
      DispatchLays(Approach(s, input).state, input);
    }
  }

  /** Behind a token the scanner stands at its end. */
  lemma FetchAdvances(s: Scan, input: Input)
    requires FetchNext(s, input).Fetched?
    ensures FetchNext(s, input).state.mark == EndOf(input)
  {
    hide CloseBlocks, WithKey, OpenBlock, KeyLost;
  }

  // ----- Every text -----

  lemma {:induction false} FetchMoreLays(s: Scan, inputs: seq<Input>)
    requires Inv(s.core) && Layout(s.core, s.mark) && Advances(s.mark, inputs)
    ensures var m := FetchMore(s, inputs);
            m.status.Done? ==> Layout(m.state.core, m.state.mark) && Advances(m.state.mark, inputs[m.used..])
    decreases |inputs|
  {
    hide Inv, Layout, FetchNext, KeyLost, NeedsMore;
    BeforeItself(s.mark);
    LayoutFewer(s.core, s.mark, WithoutStale(s.core.keys, s.mark), s.mark);
    InvFewer(s.core, WithoutStale(s.core.keys, s.mark));
    assert inputs[0..] == inputs;
    var p := Prepared(s);
    if p.Fetched? && NeedsMore(p.state.core) && inputs != [] && FetchNext(p.state, inputs[0]).Fetched? {
      var u := FetchNext(p.state, inputs[0]).state;
      FetchLays(p.state, inputs[0]);
      FetchAdvances(p.state, inputs[0]);
      FetchedInv(p.state, inputs[0]);
      FetchMoreLays(u, inputs[1..]);
      var m := FetchMore(u, inputs[1..]);
      assert inputs[m.used + 1..] == inputs[1..][m.used..];
    }
  }

  lemma BeforeItself(p: Position)
    ensures Before(p, p)
  {
  }

  lemma FetchedInv(s: Scan, input: Input)
    requires Inv(s.core) && FetchNext(s, input).Fetched?
    ensures Inv(FetchNext(s, input).state.core)
  {
    hide Inv, FetchNext;
    FetchKeeps(s, input);
  }

  lemma TakeLays(s: Scan)
    requires Layout(s.core, s.mark) && s.core.queue != []
    ensures Layout(Take(s).core, s.mark) && All(Take(s).core) == All(s.core)
  {
    hide SeenAll, AllInPlace, Quiet;
    assert All(Take(s).core) == All(s.core);
    var d := Take(s).core;
    forall i | 0 <= i < |d.keys| && d.keys[i].possible ensures KeyInPlace(d, s.mark, i) {
      assert KeyInPlace(s.core, s.mark, i);
    }
  }

  lemma PrefixInPlace(a: seq<Scanned>, b: seq<Scanned>)
    requires a <= b && AllInPlace(NOTHING, b)
    ensures AllInPlace(NOTHING, a)
  {
    hide AllInPlace;
    assert b == a + b[|a|..];
    InParts(NOTHING, a, b[|a|..]);
  }

  lemma {:induction false} RunIsInPlace(s: Scan, inputs: seq<Input>)
    requires Inv(s.core) && Layout(s.core, s.mark) && Advances(s.mark, inputs)
    ensures AllInPlace(NOTHING, s.core.taken + ScanRun(s, inputs).out)
    decreases |inputs|, |s.core.queue|
  {
    hide Inv, Layout, AllInPlace, FetchMore, NeedsMore, Advances, Own, TokensOf;
    var m := FetchMore(s, inputs);
    FetchMoreKeeps(s, inputs);
    FetchMoreLays(s, inputs);
    if m.status.Done? {
      var c, u := m.state.core, Take(m.state);
      var t := c.queue[0];
      TakeKeeps(m.state);
      TakeLays(m.state);
      assert c.taken + [t] == u.core.taken;
      if t.kind == TStreamEnd {
        LaidOut(u.core, u.mark);
        PrefixInPlace(u.core.taken, All(u.core));
      } else {
        RunIsInPlace(u, inputs[m.used..]);
        var r := ScanRun(u, inputs[m.used..]);
        assert s.core.taken + ([t] + r.out) == u.core.taken + r.out;
      }
    } else {
      assert s.core.taken + [] == s.core.taken;
      LaidOut(s.core, s.mark);
      PrefixInPlace(s.core.taken, All(s.core));
    }
  }

  lemma LaidOut(c: Core, at: Position)
    requires Layout(c, at)
    ensures AllInPlace(NOTHING, All(c))
  {
  }

  lemma StartIsLaidOut()
    ensures Layout(START.core, START.mark)
  {
    var t := START.core.queue[0];
    assert All(START.core) == [] + [t];
    OneMore(NOTHING, [], t);
    assert [-1] + NOTHING.columns == [] + [-1];
  }

  /** Every token of every text is in its place. */
  lemma TokensAreInPlace(inputs: seq<Input>)
    requires Advances(ORIGIN, inputs)
    ensures AllInPlace(NOTHING, ScanRun(START, inputs).out)
  {
    hide Inv, Layout, AllInPlace, ScanRun, Advances;
    StartHolds();
    StartIsLaidOut();
    RunIsInPlace(START, inputs);
    assert [] + ScanRun(START, inputs).out == ScanRun(START, inputs).out;
  }

  // ----- What that says about single tokens -----

  lemma PlaceOf(ts: seq<Scanned>, i: nat)
    requires AllInPlace(NOTHING, ts) && i < |ts|
    ensures InPlace(SeenAll(NOTHING, ts[..i]), ts[i])
  {
    hide InPlace, AllInPlace, SeenAll;
    PrefixInPlace(ts[..i + 1], ts);
    assert ts[..i + 1] == ts[..i] + [ts[i]];
    OneMore(NOTHING, ts[..i], ts[i]);
  }

  /**
   The start of a block sequence is followed by an entry, and that of a block mapping by a key or a value, at the same
   position.
   */
  lemma StartIsFollowed(inputs: seq<Input>, i: nat)
    requires Advances(ORIGIN, inputs)
    requires var out := ScanRun(START, inputs).out; i + 1 < |out| && IsStart(out[i].kind)
    ensures var out := ScanRun(START, inputs).out;
            && out[i + 1].start == out[i].start
            && if out[i].kind == TBlockSequenceStart then out[i + 1].kind == TBlockEntry
               else out[i + 1].kind in {TKey, TValue}
  {
    hide ScanRun, AllInPlace, SeenAll, OutsideFlow;
    var out := ScanRun(START, inputs).out;
    TokensAreInPlace(inputs);
    PlaceOf(out, i + 1);
    assert out[..i + 1] == out[..i] + [out[i]];
    OneMore(NOTHING, out[..i], out[i]);
  }

  /**
   Outside flow collections an entry, a key, or a value without a key in front of it stands exactly at the column of the
   innermost open block. So if it is deeper than the other blocks, one has opened for it.
   */
  lemma IndicatorHasBlock(inputs: seq<Input>, i: nat)
    requires Advances(ORIGIN, inputs)
    requires var out := ScanRun(START, inputs).out;
             i < |out| && IsIndicator(out[i].kind) && FlowFrom(0, out[..i]) == 0
    ensures var out := ScanRun(START, inputs).out;
            var l := SeenAll(NOTHING, out[..i]);
            (out[i].kind == TValue && l.key) || out[i].start.column == Top(l.columns)
  {
    hide ScanRun, AllInPlace, SeenAll, FlowFrom;
    TokensAreInPlace(inputs);
    var out := ScanRun(START, inputs).out;
    PlaceOf(out, i);
    FlowIsSeen(NOTHING, out[..i]);
  }

  /** The mark of a key stands directly in front of a token that may be one, at the same position. */
  lemma KeyIsInFront(inputs: seq<Input>, i: nat)
    requires Advances(ORIGIN, inputs)
    requires var out := ScanRun(START, inputs).out;
             i + 1 < |out| && out[i].kind == TKey && out[i].start == out[i].end
    ensures var out := ScanRun(START, inputs).out; out[i + 1].start == out[i].start && StartsKey(out[i + 1].kind)
  {
    hide ScanRun, AllInPlace, SeenAll, OutsideFlow;
    var out := ScanRun(START, inputs).out;
    TokensAreInPlace(inputs);
    PlaceOf(out, i + 1);
    assert out[..i + 1] == out[..i] + [out[i]];
    OneMore(NOTHING, out[..i], out[i]);
  }
}
