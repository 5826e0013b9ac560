/**
 What holds of the tokens of every stream: block collections are balanced, each piece of the text gives its own
 token in order, and a stream that ends outside flow collections leaves no block collection open.
 */
module YamlTokens {
  import opened Wrappers
  import opened YamlGrammar
  import opened YamlQueue
  import opened YamlFetch

  // ----- Flow levels -----

  /** `]` and `}` outside flow collections have no effect on the level. */
  function FlowStep(level: nat, k: TokenKind): nat {
    if k == TFlowSequenceStart || k == TFlowMappingStart then level + 1
    else if (k == TFlowSequenceEnd || k == TFlowMappingEnd) && level > 0 then level - 1
    else level
  }

  function FlowFrom(level: nat, ts: seq<Scanned>): nat
    decreases |ts|
  {
    if ts == [] then level else FlowFrom(FlowStep(level, ts[0].kind), ts[1..])
  }

  lemma {:induction false} FlowAppend(level: nat, a: seq<Scanned>, b: seq<Scanned>)
    ensures FlowFrom(level, a + b) == FlowFrom(FlowFrom(level, a), b)
    decreases |a|
  {
    if a == [] {
      assert a + b == b;
    } else {
      assert (a + b)[1..] == a[1..] + b;
      FlowAppend(FlowStep(level, a[0].kind), a[1..], b);
    }
  }

  lemma FlowOneMore(level: nat, a: seq<Scanned>, t: Scanned)
    ensures FlowFrom(level, a + [t]) == FlowStep(FlowFrom(level, a), t.kind)
  {
    FlowAppend(level, a, [t]);
    assert FlowFrom(FlowFrom(level, a), [t]) == FlowFrom(FlowStep(FlowFrom(level, a), t.kind), []);
  }

  /** Neither tokens of flow collections nor the end of the stream. */
  predicate Neutral(ts: seq<Scanned>) {
    forall i :: 0 <= i < |ts| ==>
      ts[i].kind !in {TFlowSequenceStart, TFlowMappingStart, TFlowSequenceEnd, TFlowMappingEnd, TStreamEnd}
  }

  lemma {:induction false} FlowNeutral(level: nat, ts: seq<Scanned>)
    requires Neutral(ts)
    ensures FlowFrom(level, ts) == level
    decreases |ts|
  {
    if ts != [] {
      assert Neutral(ts[1..]);
      FlowNeutral(level, ts[1..]);
    }
  }

  // ----- The text's own tokens -----

  /** A token that the scanner adds for the structure: it has no text of its own. */
  predicate Structural(t: Scanned) {
    t.kind in {TBlockSequenceStart, TBlockMappingStart, TBlockEnd} || (t.kind == TKey && t.start == t.end)
  }

  function Own(ts: seq<Scanned>): seq<Scanned> {
    if ts == [] then [] else (if Structural(ts[0]) then [] else [ts[0]]) + Own(ts[1..])
  }

  lemma {:induction false} OwnAppend(a: seq<Scanned>, b: seq<Scanned>)
    ensures Own(a + b) == Own(a) + Own(b)
    decreases |a|
  {
    if a == [] {
      assert a + b == b;
    } else {
      assert (a + b)[1..] == a[1..] + b;
      OwnAppend(a[1..], b);
    }
  }

  lemma OwnOneMore(a: seq<Scanned>, t: Scanned)
    ensures Own(a + [t]) == Own(a) + if Structural(t) then [] else [t]
  {
    OwnAppend(a, [t]);
    assert Own([t]) == (if Structural(t) then [] else [t]) + Own([]);
  }

  /** The token of one piece of text. */
  function KindOf(what: What): Option<TokenKind> {
    match what
    case EndOfStream => Some(TStreamEnd)
    case Directive(version) => Some(if version then TVersionDirective else TTagDirective)
    case DocumentIndicator(start) => Some(if start then TDocumentStart else TDocumentEnd)
    case FlowStart(sequence) => Some(if sequence then TFlowSequenceStart else TFlowMappingStart)
    case FlowEnd(sequence) => Some(if sequence then TFlowSequenceEnd else TFlowMappingEnd)
    case FlowEntryMark => Some(TFlowEntry)
    case BlockEntryMark => Some(TBlockEntry)
    case KeyMark => Some(TKey)
    case ValueMark => Some(TValue)
    case AnchorMark(alias) => Some(if alias then TAlias else TAnchor)
    case TagMark => Some(TTag)
    case ScalarMark => Some(TScalar)
    case BlockScalarMark => Some(TScalar)
    case BadCharacter => None
  }

  function TokenOf(input: Input): seq<Scanned> {
    match KindOf(input.what)
    case None => []
    case Some(k) =>
      var t := if k == TStreamEnd then Scanned(k, LineEnd(input.mark), LineEnd(input.mark))
               else Scanned(k, input.mark, input.end, input.text);
      if Structural(t) then [] else [t]
  }

  function TokensOf(inputs: seq<Input>): seq<Scanned> {
    if inputs == [] then [] else TokenOf(inputs[0]) + TokensOf(inputs[1..])
  }

  // ----- The invariant -----

  function All(c: Core): seq<Scanned> {
    c.taken + c.queue
  }

  /** Token `k` ends the stream outside flow collections. */
  ghost predicate EndAt(ts: seq<Scanned>, k: nat) {
    k < |ts| && ts[k].kind == TStreamEnd && FlowFrom(0, ts[..k]) == 0
  }

  /** Nothing is open in front of such an end, and nothing will be inserted there. */
  ghost predicate Ends(c: Core) {
    forall k: nat :: EndAt(All(c), k) ==>
      Depth(All(c)[..k]) == 0 && forall i :: 0 <= i < |c.keys| && c.keys[i].possible ==> c.keys[i].tokenNumber > k
  }

  ghost predicate Inv(c: Core) {
    Ok(c, []) && c.flow == FlowFrom(0, All(c)) && Ends(c)
  }

  lemma {:induction false} EndInPrefix(a: seq<Scanned>, b: seq<Scanned>, k: nat)
    requires k < |a|
    ensures EndAt(a + b, k) <==> EndAt(a, k)
    ensures (a + b)[..k] == a[..k]
  {
    assert (a + b)[..k] == a[..k];
  }

  /** Tokens behind the others, and keys that are given up or name new tokens, change nothing about earlier ends. */
  lemma {:induction false} EndsGrow(c: Core, d: Core, more: seq<Scanned>)
    requires Ends(c) && All(d) == All(c) + more && (forall i :: 0 <= i < |more| ==> more[i].kind != TStreamEnd)
    requires forall i :: 0 <= i < |d.keys| && d.keys[i].possible ==> d.keys[i].tokenNumber >= |All(c)|
                                                                     || d.keys[i] in c.keys
    ensures Ends(d)
  {
    hide FlowFrom, Depth;
    forall k: nat | EndAt(All(d), k)
      ensures Depth(All(d)[..k]) == 0 && forall i :: 0 <= i < |d.keys| && d.keys[i].possible
                                                     ==> d.keys[i].tokenNumber > k
    {
      assert k < |All(c)|;
      EndInPrefix(All(c), more, k);
      assert EndAt(All(c), k);
    }
  }

  /** Keys of the current state that are given up. */
  ghost predicate Fewer(keys: seq<SimpleKey>, keys': seq<SimpleKey>) {
    |keys| == |keys'| && forall i :: 0 <= i < |keys| ==> keys'[i] == keys[i] || !keys'[i].possible
  }

  lemma {:induction false} InvFewer(c: Core, keys: seq<SimpleKey>)
    requires Inv(c) && Fewer(c.keys, keys)
    ensures Inv(c.(keys := keys))
  {
    hide Balanced, Depth, IndentsOk, FlowFrom;
    var d := c.(keys := keys);
    assert All(d) == All(c) + [];
    EndsGrow(c, d, []);
    assert forall i :: 0 <= i < |keys| ==> Names(c.keys[i], |c.taken|, c.queue + []);
    assert KeysOk(keys, |c.taken|, c.queue + []);
  }

  /** A token behind the queue that does not touch the structure. */
  lemma {:induction false} InvAppend(c: Core, t: Scanned)
    requires Inv(c) && Weight(t.kind) == 0 && Neutral([t])
    ensures Inv(Add(c, t)) && Own(All(Add(c, t))) == Own(All(c)) + if Structural(t) then [] else [t]
  {
    hide Ok, FlowFrom, Own;
    assert [t][0] == t;
    OkPending(c, t);
    OkAppend(c, t);
    AddIs(c, t);
    EndsGrow(c, Add(c, t), [t]);
  }

  lemma AddIs(c: Core, t: Scanned)
    ensures All(Add(c, t)) == All(c) + [t]
    ensures FlowFrom(0, All(Add(c, t))) == FlowStep(FlowFrom(0, All(c)), t.kind)
    ensures Own(All(Add(c, t))) == Own(All(c)) + if Structural(t) then [] else [t]
  {
    assert All(Add(c, t)) == All(c) + [t];
    FlowOneMore(0, All(c), t);
    OwnOneMore(All(c), t);
  }

  /** A token that may be a key, with or without a key for it, and with or without a deeper flow level. */
  lemma {:induction false} InvKeyToken(c: Core, allowed: bool, t: Scanned, opens: bool)
    requires Inv(c) && StartsKey(t.kind) && opens == (t.kind == TFlowSequenceStart || t.kind == TFlowMappingStart)
    ensures var d := Saved(c, allowed, t.start);
            var e := Add(if opens then Deeper(d) else d, t);
            Inv(e) && e.taken == c.taken && Own(All(e)) == Own(All(c)) + [t]
  {
    hide Ok, FlowFrom, Own;
    var d := Saved(c, allowed, t.start);
    assert |c.keys| == c.flow + 1 by {
      KeysAndFlow(c);
    }
    if allowed {
      OkSave(c, t, d.keys[c.flow]);
    } else {
      OkPending(c, t);
    }
    var e := if opens then Deeper(d) else d;
    if opens {
      OkDeeper(d, t);
    }
    OkAppend(e, t);
    AddIs(e, t);
    assert All(e) == All(c);
    EndsGrow(c, Add(e, t), [t]);
  }

  lemma KeysAndFlow(c: Core)
    requires Ok(c, [])
    ensures |c.keys| == c.flow + 1
  {
  }

  lemma {:induction false} InvFlowEnd(c: Core, t: Scanned)
    requires Inv(c) && (t.kind == TFlowSequenceEnd || t.kind == TFlowMappingEnd)
    ensures var e := Add(Shallower(c), t); Inv(e) && e.taken == c.taken && Own(All(e)) == Own(All(c)) + [t]
  {
    hide Ok, FlowFrom, Own;
    KeysAndFlow(c);
    var d := Shallower(c);
    if c.flow > 0 {
      OkShallower(c);
    }
    OkPending(d, t);
    OkAppend(d, t);
    AddIs(d, t);
    assert All(d) == All(c);
    EndsGrow(c, Add(d, t), [t]);
  }

  lemma {:induction false} InvOpen(c: Core, kind: TokenKind, at: Position)
    requires Inv(c) && Weight(kind) == 1
    ensures var d := OpenBlock(c, kind, at);
            Inv(d) && d.taken == c.taken && d.keys == c.keys && d.flow == c.flow && Own(All(d)) == Own(All(c))
  {
    hide Ok, FlowFrom, Own;
    var t := Scanned(kind, at, at);
    if !(c.flow > 0 || c.indent >= at.column) {
      OkOpen(c, t, at.column);
      AddIs(c, t);
      var d := OpenBlock(c, kind, at);
      assert All(d) == All(Add(c, t));
      EndsGrow(c, d, [t]);
    }
  }

  lemma {:induction false} InvClose(c: Core, column: int, at: Position)
    requires Inv(c) && column >= -1
    ensures var d := CloseBlocks(c, column, at);
            && Inv(d) && d.taken == c.taken && d.keys == c.keys && d.flow == c.flow && Own(All(d)) == Own(All(c))
            && (c.flow == 0 ==> d.indent <= column)
    decreases |c.indents|
  {
    hide Ok, FlowFrom, Own;
    if c.flow == 0 && c.indent > column {
      var t, n := Scanned(TBlockEnd, at, at), |c.indents| - 1;
      OkClose(c, t);
      AddIs(c, t);
      var d := c.(queue := c.queue + [t], indents := c.indents[..n], indent := c.indents[n]);
      assert All(d) == All(Add(c, t));
      EndsGrow(c, d, [t]);
      InvClose(d, column, at);
    }
  }

  lemma {:induction false} InsertIs(a: seq<Scanned>, more: seq<Scanned>, b: seq<Scanned>)
    requires Neutral(more) && forall i :: 0 <= i < |more| ==> Structural(more[i])
    ensures FlowFrom(0, a + more + b) == FlowFrom(0, a + b) && Own(a + more + b) == Own(a + b)
  {
    hide FlowFrom, Own;
    FlowAppend(0, a + more, b);
    FlowAppend(0, a, more);
    FlowAppend(0, a, b);
    FlowNeutral(FlowFrom(0, a), more);
    OwnAppend(a + more, b);
    OwnAppend(a, more);
    OwnAppend(a, b);
    OwnNothing(more);
  }

  lemma {:induction false} OwnNothing(ts: seq<Scanned>)
    requires forall i :: 0 <= i < |ts| ==> Structural(ts[i])
    ensures Own(ts) == []
    decreases |ts|
  {
    if ts != [] {
      OwnNothing(ts[1..]);
    }
  }

  lemma NoEndBehind(c: Core, p: nat, k: nat)
    requires Ends(c) && p <= k && exists i :: 0 <= i < |c.keys| && c.keys[i].possible && c.keys[i].tokenNumber == p
    ensures !EndAt(All(c), k)
  {
  }

  /** What is inserted in front of a key leaves the ends of the stream where they are. */
  lemma {:induction false} EndsInsert(c: Core, d: Core, p: nat, more: seq<Scanned>)
    requires Ends(c) && p <= |All(c)| && All(d) == All(c)[..p] + more + All(c)[p..]
    requires Neutral(more) && forall i :: 0 <= i < |more| ==> Structural(more[i])
    requires Fewer(c.keys, d.keys) && exists i :: 0 <= i < |c.keys| && c.keys[i].possible && c.keys[i].tokenNumber == p
    ensures Ends(d)
  {
    hide FlowFrom, Depth;
    var a, b := All(c)[..p], All(c)[p..];
    forall k: nat | EndAt(All(d), k)
      ensures Depth(All(d)[..k]) == 0 && forall i :: 0 <= i < |d.keys| && d.keys[i].possible
                                                     ==> d.keys[i].tokenNumber > k
    {
      if k < p {
        assert All(d)[..k] == All(c)[..k];
        assert EndAt(All(c), k);
      } else if k >= p + |more| {
        var j := k - |more|;
        assert All(d)[..k] == a + more + b[..j - p] && All(c)[..j] == a + b[..j - p] && All(d)[k] == All(c)[j];
        NoEndBehind(c, p, j);
        InsertIs(a, more, b[..j - p]);
      }
    }
  }

  lemma {:induction false} InvWithKey(c: Core)
    requires Inv(c) && HasKey(c)
    ensures KeyInQueue(c)
    ensures var d := WithKey(c); Inv(d) && d.taken == c.taken && Own(All(d)) == Own(All(c))
  {
    hide Ok, FlowFrom, Own;
    OkKey(c);
    var key := c.keys[c.flow];
    var p := key.tokenNumber - |c.taken|;
    var d, more := WithKey(c), KeyTokens(key, c.flow == 0 && c.indent < key.mark.column);
    var a, b := All(c)[..key.tokenNumber], All(c)[key.tokenNumber..];
    assert All(d) == a + more + b && All(c) == a + b;
    InsertIs(a, more, b);
    EndsInsert(c, d, key.tokenNumber, more);
  }

  /** The end of the stream, when all blocks are closed. */
  lemma {:induction false} InvEnd(c: Core, t: Scanned)
    requires Inv(c) && t.kind == TStreamEnd && (c.flow == 0 ==> c.indent <= -1 && !c.keys[0].possible)
    ensures Inv(Add(c, t)) && Own(All(Add(c, t))) == Own(All(c)) + [t]
  {
    hide FlowFrom, Own, Depth, Balanced, KeysOk, IndentsOk;
    var d := Add(c, t);
    OkPending(c, t);
    OkAppend(c, t);
    AddIs(c, t);
    if c.flow == 0 {
      OkFlat(c);
    }
    forall k: nat | EndAt(All(d), k)
      ensures Depth(All(d)[..k]) == 0 && forall i :: 0 <= i < |d.keys| && d.keys[i].possible
                                                     ==> d.keys[i].tokenNumber > k
    {
      if k < |All(c)| {
        EndInPrefix(All(c), [t], k);
      } else {
        assert All(d)[..k] == All(c);
      }
    }
  }

  // ----- Fetching keeps the invariant -----

  /** One more piece of text has been read: `own` is its token. */
  ghost predicate Reads(c: Core, f: Fetch, own: seq<Scanned>) {
    f.Fetched? ==> Inv(f.state.core) && f.state.core.taken == c.taken && Own(All(f.state.core)) == Own(All(c)) + own
  }

  lemma ForgetIsFewer(c: Core)
    ensures Fewer(c.keys, Forget(c).keys) && Forget(c) == c.(keys := Forget(c).keys)
    ensures c.flow < |c.keys| ==> !Forget(c).keys[c.flow].possible
  {
  }

  lemma BoundaryKeeps(s: Scan, t: Scanned)
    requires Inv(s.core) && t.kind in {TStreamEnd, TVersionDirective, TTagDirective, TDocumentStart, TDocumentEnd}
    ensures Reads(s.core, Boundary(s, t), [t])
  {
    hide Ok, Ends, FlowFrom, Own;
    InvClose(s.core, -1, s.mark);
    var c := CloseBlocks(s.core, -1, s.mark);
    ForgetIsFewer(c);
    InvFewer(c, Forget(c).keys);
    KeysAndFlow(c);
    assert [t][0] == t;
    if t.kind == TStreamEnd {
      InvEnd(Forget(c), t);
    } else {
      InvAppend(Forget(c), t);
    }
  }

  lemma PlainKeeps(s: Scan, t: Scanned, allowed: bool)
    requires Inv(s.core) && Weight(t.kind) == 0 && Neutral([t])
    ensures Reads(s.core, PlainToken(s, t, allowed), if Structural(t) then [] else [t])
  {
    hide Ok, Ends, FlowFrom, Own;
    ForgetIsFewer(s.core);
    InvFewer(s.core, Forget(s.core).keys);
    InvAppend(Forget(s.core), t);
  }

  lemma FlowEndKeeps(s: Scan, t: Scanned)
    requires Inv(s.core) && (t.kind == TFlowSequenceEnd || t.kind == TFlowMappingEnd)
    ensures Reads(s.core, FlowEndToken(s, t), [t])
  {
    hide Ok, Ends, FlowFrom, Own;
    ForgetIsFewer(s.core);
    InvFewer(s.core, Forget(s.core).keys);
    InvFlowEnd(Forget(s.core), t);
  }

  lemma IndicatorKeeps(s: Scan, t: Scanned, entry: bool)
    requires Inv(s.core) && t.kind == if entry then TBlockEntry else TKey
    ensures Reads(s.core, Indicator(s, t, entry), if Structural(t) then [] else [t])
  {
    hide Ok, Ends, FlowFrom, Own, PlainToken;
    var kind := if entry then TBlockSequenceStart else TBlockMappingStart;
    InvOpen(s.core, kind, s.mark);
    assert [t][0] == t;
    PlainKeeps(s.(core := OpenBlock(s.core, kind, s.mark)), t, entry || s.core.flow == 0);
  }

  lemma ValueKeeps(s: Scan, t: Scanned)
    requires Inv(s.core) && t.kind == TValue
    ensures Reads(s.core, ValueToken(s, t), [t])
  {
    hide Ok, Ends, FlowFrom, Own, WithKey, OpenBlock;
    assert [t][0] == t;
    if HasKey(s.core) {
      InvWithKey(s.core);
      InvAppend(WithKey(s.core), t);
    } else {
      InvOpen(s.core, TBlockMappingStart, s.mark);
      InvAppend(OpenBlock(s.core, TBlockMappingStart, s.mark), t);
    }
  }

  lemma KeyTokenKeeps(s: Scan, t: Scanned, wellFormed: bool, opens: bool)
    requires Inv(s.core) && StartsKey(t.kind) && t.start == s.mark
    requires opens == (t.kind == TFlowSequenceStart || t.kind == TFlowMappingStart)
    ensures Reads(s.core, KeyToken(s, t, wellFormed, opens), [t])
  {
    hide Ok, Ends, FlowFrom, Own;
    InvKeyToken(s.core, s.allowed, t, opens);
  }

  lemma DispatchKeeps(s: Scan, input: Input)
    requires Inv(s.core) && s.mark == input.mark
    ensures Reads(s.core, Dispatch(s, input), TokenOf(input))
  {
    hide Inv, Reads, Boundary, PlainToken, FlowEndToken, Indicator, ValueToken, KeyToken;
    var kind := KindOf(input.what);
    var t := Scanned(if kind.Some? then kind.value else TKey, s.mark, input.end, input.text);
    assert [t][0] == t;
    match input.what
    case EndOfStream =>
      BoundaryKeeps(s.(mark := LineEnd(s.mark)), Scanned(TStreamEnd, LineEnd(s.mark), LineEnd(s.mark)));
    case Directive(_) => BoundaryKeeps(s, t); NothingRead(s.core);
    case DocumentIndicator(_) => BoundaryKeeps(s, t);
    case FlowStart(_) => KeyTokenKeeps(s, t, true, true);
    case FlowEnd(_) => FlowEndKeeps(s, t);
    case FlowEntryMark => PlainKeeps(s, t, true);
    case BlockEntryMark => IndicatorKeeps(s, t, true);
    case KeyMark => IndicatorKeeps(s, t, false);
    case ValueMark => ValueKeeps(s, t);
    case AnchorMark(_) => KeyTokenKeeps(s, t, input.wellFormed, false);
    case TagMark => KeyTokenKeeps(s, t, input.wellFormed, false);
    case ScalarMark => KeyTokenKeeps(s, t, input.wellFormed, false);
    case BlockScalarMark => PlainKeeps(s, t, true); NothingRead(s.core);
    case BadCharacter => NothingRead(s.core);
  }

  lemma NothingRead(c: Core)
    ensures forall own :: Reads(c, Failure, own)
  {
  }

  lemma FetchKeeps(s: Scan, input: Input)
    requires Inv(s.core)
    ensures Reads(s.core, FetchNext(s, input), TokenOf(input))
  {
    hide Ok, Ends, FlowFrom, Own, Dispatch, CloseBlocks;
    if Approach(s, input).Fetched? {
      var keys := WithoutStale(s.core.keys, input.mark);
      InvFewer(s.core, keys);
      InvClose(s.core.(keys := keys), input.mark.column, input.mark);
      DispatchKeeps(Approach(s, input).state, input);
    }
  }

  lemma {:induction false} FetchMoreKeeps(s: Scan, inputs: seq<Input>)
    requires Inv(s.core)
    ensures var m := FetchMore(s, inputs);
            m.status.Done? ==>
              && Inv(m.state.core) && m.state.core.taken == s.core.taken && !NeedsMore(m.state.core)
              && Own(All(m.state.core)) == Own(All(s.core)) + TokensOf(inputs[..m.used])
    decreases |inputs|
  {
    hide Ok, Ends, FlowFrom, Own, FetchNext, KeyLost, TokenOf;
    InvFewer(s.core, s.core.keys);
    InvFewer(s.core, WithoutStale(s.core.keys, s.mark));
    assert inputs[..0] == [];
    var p := Prepared(s);
    if p.Fetched? && NeedsMore(p.state.core) && inputs != [] && FetchNext(p.state, inputs[0]).Fetched? {
      var u := FetchNext(p.state, inputs[0]).state;
      FetchKeeps(p.state, inputs[0]);
      FetchMoreKeeps(u, inputs[1..]);
      var m := FetchMore(u, inputs[1..]);
      assert inputs[..m.used + 1][0] == inputs[0] && inputs[..m.used + 1][1..] == inputs[1..][..m.used];
      assert Own(All(s.core)) + TokenOf(inputs[0]) + TokensOf(inputs[1..][..m.used])
             == Own(All(s.core)) + (TokenOf(inputs[0]) + TokensOf(inputs[1..][..m.used]));
    }
  }

  lemma TakeKeeps(s: Scan)
    requires Inv(s.core) && !NeedsMore(s.core)
    ensures Inv(Take(s).core) && All(Take(s).core) == All(s.core)
  {
    hide Balanced, Depth, KeysOk, IndentsOk, FlowFrom;
    OkTake(s.core);
    assert All(Take(s).core) == All(s.core);
  }

  // ----- Every stream -----

  lemma PrefixIsBalanced(a: seq<Scanned>, b: seq<Scanned>)
    requires Balanced(a + b)
    ensures Balanced(a)
  {
    hide Depth;
    forall n | 0 <= n <= |a| ensures Depth(a[..n]) >= 0 {
      assert (a + b)[..n] == a[..n];
    }
  }

  /** At every moment of a run, no block collection has been closed that was not opened. */
  lemma {:induction false} RunIsBalanced(s: Scan, inputs: seq<Input>)
    requires Inv(s.core)
    ensures Balanced(s.core.taken + ScanRun(s, inputs).out)
    decreases |inputs|, |s.core.queue|
  {
    hide Balanced, Ends, FlowFrom, Own, FetchMore, TokensOf, NeedsMore;
    var m := FetchMore(s, inputs);
    FetchMoreKeeps(s, inputs);
    if m.status.Done? {
      var c, u := m.state.core, Take(m.state);
      var t := c.queue[0];
      TakeKeeps(m.state);
      assert c.taken + [t] == u.core.taken;
      if t.kind == TStreamEnd {
        PrefixIsBalanced(u.core.taken, u.core.queue);
      } else {
        RunIsBalanced(u, inputs[m.used..]);
        var r := ScanRun(u, inputs[m.used..]);
        assert s.core.taken + ([t] + r.out) == u.core.taken + r.out;
      }
    } else {
      assert s.core.taken + [] == s.core.taken;
      PrefixIsBalanced(s.core.taken, s.core.queue);
    }
  }

  lemma OwnPrefix(a: seq<Scanned>, b: seq<Scanned>)
    requires a <= b
    ensures Own(a) <= Own(b)
  {
    assert b == a + b[|a|..];
    OwnAppend(a, b[|a|..]);
  }

  lemma {:induction false} TokensOfParts(inputs: seq<Input>, n: nat)
    requires n <= |inputs|
    ensures TokensOf(inputs) == TokensOf(inputs[..n]) + TokensOf(inputs[n..])
    decreases n
  {
    hide TokenOf;
    if n > 0 {
      TokensOfParts(inputs[1..], n - 1);
      assert inputs[..n][0] == inputs[0] && inputs[..n][1..] == inputs[1..][..n - 1]
             && inputs[1..][n - 1..] == inputs[n..];
      var a, b := TokensOf(inputs[1..][..n - 1]), TokensOf(inputs[n..]);
      assert TokenOf(inputs[0]) + (a + b) == TokenOf(inputs[0]) + a + b;
    } else {
      assert inputs[0..] == inputs;
    }
  }

  /** The tokens, without those for the structure, are the tokens of the text in order. */
  lemma {:induction false} RunIsInOrder(s: Scan, inputs: seq<Input>)
    requires Inv(s.core)
    ensures Own(s.core.taken + ScanRun(s, inputs).out) <= Own(All(s.core)) + TokensOf(inputs)
    decreases |inputs|, |s.core.queue|
  {
    hide Ok, Ends, FlowFrom, Own, FetchMore, TokensOf, NeedsMore;
    var m := FetchMore(s, inputs);
    FetchMoreKeeps(s, inputs);
    if m.status.Done? {
      var c, u := m.state.core, Take(m.state);
      var t := c.queue[0];
      TakeKeeps(m.state);
      TokensOfParts(inputs, m.used);
      assert c.taken + [t] == u.core.taken;
      var rest := TokensOf(inputs[m.used..]);
      assert Own(All(s.core)) + TokensOf(inputs) == Own(All(u.core)) + rest;
      if t.kind == TStreamEnd {
        OwnPrefix(u.core.taken, All(u.core));
      } else {
        RunIsInOrder(u, inputs[m.used..]);
        var r := ScanRun(u, inputs[m.used..]);
        assert s.core.taken + ([t] + r.out) == u.core.taken + r.out;
      }
    } else {
      assert s.core.taken + [] == s.core.taken;
      OwnPrefix(s.core.taken, All(s.core));
    }
  }

  lemma EndIsFlat(c: Core, t: Scanned)
    requires Inv(c) && c.queue != [] && t == c.queue[0] && t.kind == TStreamEnd && FlowFrom(0, c.taken + [t]) == 0
    ensures Depth(c.taken + [t]) == 0
  {
    hide FlowFrom, Depth;
    FlowOneMore(0, c.taken, t);
    assert All(c)[..|c.taken|] == c.taken && All(c)[|c.taken|] == t;
    assert EndAt(All(c), |c.taken|);
    DepthAppend(c.taken, [t]);
    DepthOne(t);
  }

  /**
   A run is done exactly when the end of the stream has been handed out; outside flow collections nothing is open then.
   */
  lemma {:induction false} RunEnds(s: Scan, inputs: seq<Input>)
    requires Inv(s.core)
    ensures var r := ScanRun(s, inputs);
            && (r.status.Done? <==> r.out != [] && r.out[|r.out| - 1].kind == TStreamEnd)
            && (forall i :: 0 <= i < |r.out| - 1 ==> r.out[i].kind != TStreamEnd)
            && (r.status.Done? && FlowFrom(0, s.core.taken + r.out) == 0 ==> Depth(s.core.taken + r.out) == 0)
    decreases |inputs|, |s.core.queue|
  {
    hide Ok, Ends, FlowFrom, Own, FetchMore, TokensOf, NeedsMore, Depth;
    var m := FetchMore(s, inputs);
    FetchMoreKeeps(s, inputs);
    if m.status.Done? {
      var c, u := m.state.core, Take(m.state);
      var t := c.queue[0];
      TakeKeeps(m.state);
      if t.kind == TStreamEnd {
        if FlowFrom(0, c.taken + [t]) == 0 {
          EndIsFlat(c, t);
        }
      } else {
        RunEnds(u, inputs[m.used..]);
        var r := ScanRun(u, inputs[m.used..]);
        assert s.core.taken + ([t] + r.out) == u.core.taken + r.out;
      }
    }
  }

  lemma StartHolds()
    ensures Inv(START.core) && All(START.core) == START.core.queue && Own(START.core.queue) == START.core.queue
  {
    var t := START.core.queue[0];
    OkStart(t);
    assert All(START.core) == [t];
    assert FlowFrom(0, [t]) == FlowFrom(0, []);
    assert Own([t]) == [t] + Own([]);
    assert !EndAt([t], 0);
  }

  /** The first token is the start of the stream. */
  lemma RunStarts(inputs: seq<Input>)
    ensures var r := ScanRun(START, inputs); r.out != [] && r.out[0] == START.core.queue[0]
  {
    assert !KeyLost(START.core.keys, START.mark);
    assert WithoutStale(START.core.keys, START.mark) == START.core.keys;
    assert !NeedsMore(START.core);
    assert FetchMore(START, inputs) == More(Done, START, 0);
  }

  /** What holds of the tokens of every stream. */
  lemma TokensAreSound(inputs: seq<Input>)
    ensures var r := ScanRun(START, inputs);
            && Balanced(r.out) && r.out != [] && r.out[0].kind == TStreamStart
            && Own(r.out) <= START.core.queue + TokensOf(inputs)
            && (r.status.Done? <==> r.out[|r.out| - 1].kind == TStreamEnd)
            && (forall i :: 0 <= i < |r.out| - 1 ==> r.out[i].kind != TStreamEnd)
            && (r.status.Done? && FlowFrom(0, r.out) == 0 ==> Depth(r.out) == 0)
  {
    hide Balanced, FlowFrom, Own, ScanRun, TokensOf, Depth, Inv;
    StartHolds();
    RunStarts(inputs);
    RunIsBalanced(START, inputs);
    RunIsInOrder(START, inputs);
    RunEnds(START, inputs);
    assert [] + ScanRun(START, inputs).out == ScanRun(START, inputs).out;
  }

  // ----- A stream that makes the scanner panic -----

  /**
   The pieces of ` a: "x`, a line break, and `"b`: the quoted scalar ends in the column of the mapping, and `b` follows
   on its line.
   */
  const PANICS: seq<Input> :=
    [ Input(Position(1, 0, 1), false, ScalarMark, true, Position(2, 0, 2), NO_TEXT),
      Input(Position(2, 0, 2), false, ValueMark, true, Position(3, 0, 3), NO_TEXT),
      Input(Position(4, 0, 4), false, ScalarMark, true, Position(8, 1, 1), NO_TEXT),
      Input(Position(8, 1, 1), false, ScalarMark, true, Position(9, 1, 2), NO_TEXT)]

  lemma HandsOut(s: Scan, inputs: seq<Input>)
    requires s.core.queue != [] && s.core.queue[0].kind != TStreamEnd && forall i :: 0 <= i < |s.core.keys|
                                                                                     ==> !s.core.keys[i].possible
    ensures ScanRun(s, inputs).status == ScanRun(Take(s), inputs).status
  {
    assert WithoutStale(s.core.keys, s.mark) == s.core.keys;
    assert FetchMore(s, inputs) == More(Done, s, 0);
    assert inputs[0..] == inputs;
  }

  lemma Fetches(s: Scan, inputs: seq<Input>, u: Scan)
    requires Prepared(s) == Fetched(s) && NeedsMore(s.core) && inputs != [] && FetchNext(s, inputs[0]) == Fetched(u)
    ensures ScanRun(s, inputs).status == ScanRun(u, inputs[1..]).status
  {
    hide FetchNext, NeedsMore, Prepared;
    var m := FetchMore(u, inputs[1..]);
    assert inputs[m.used + 1..] == inputs[1..][m.used..];
  }

  const A := Scanned(TScalar, Position(1, 0, 1), Position(2, 0, 2))
  const X := Scanned(TScalar, Position(4, 0, 4), Position(8, 1, 1))
  const KEY_A := SimpleKey(true, false, 1, Position(1, 0, 1))
  const COLON := [Scanned(TBlockMappingStart, A.start, A.start), Scanned(TKey, A.start, A.start), A,
                  Scanned(TValue, A.end, Position(3, 0, 3))]

  /** The scanner with the key `a` in its queue, with the mapping in its queue, and in front of the quoted scalar. */
  const KEY_SEEN := Scan(Core(START.core.queue, [A], [KEY_A], 0, -1, []), false, Position(2, 0, 2))
  const COLON_SEEN := Scan(Core(START.core.queue, COLON, [KEY_A.(possible := false)], 0, 1, [-1]), false,
                           Position(3, 0, 3))
  const QUOTE_NEXT := COLON_SEEN.(core := COLON_SEEN.core.(taken := START.core.queue + COLON, queue := []))

  lemma KeyIsSeen()
    ensures ScanRun(START, PANICS).status == ScanRun(KEY_SEEN, PANICS[1..]).status
  {
    hide ScanRun;
    HandsOut(START, PANICS);
    KeyIsFetched();
    Fetches(Take(START), PANICS, KEY_SEEN);
  }

  lemma KeyIsFetched()
    ensures var s := Take(START);
            Prepared(s) == Fetched(s) && NeedsMore(s.core) && FetchNext(s, PANICS[0]) == Fetched(KEY_SEEN)
  {
    var s := Take(START);
    assert WithoutStale(s.core.keys, PANICS[0].mark) == s.core.keys;
    assert s.core.taken == START.core.queue && [] + [A] == [A];
  }

  lemma ColonIsSeen()
    ensures ScanRun(KEY_SEEN, PANICS[1..]).status == ScanRun(COLON_SEEN, PANICS[2..]).status
  {
    var s := KEY_SEEN;
    assert WithoutStale(s.core.keys, s.mark) == s.core.keys && WithoutStale(s.core.keys, PANICS[1].mark) == s.core.keys;
    assert s.core.keys[0].possible && s.core.keys[0].tokenNumber == |s.core.taken|;
    assert WithKey(s.core).queue == COLON[..3] && COLON[..3] + [COLON[3]] == COLON && [] + [-1] == [-1];
    assert PANICS[1..][0] == PANICS[1] && PANICS[1..][1..] == PANICS[2..];
    Fetches(s, PANICS[1..], COLON_SEEN);
  }

  lemma ColonIsTaken()
    ensures ScanRun(COLON_SEEN, PANICS[2..]).status == ScanRun(QUOTE_NEXT, PANICS[2..]).status
  {
    hide ScanRun;
    var s1 := Take(COLON_SEEN);
    var s2 := Take(s1);
    var s3 := Take(s2);
    HandsOut(COLON_SEEN, PANICS[2..]);
    HandsOut(s1, PANICS[2..]);
    HandsOut(s2, PANICS[2..]);
    HandsOut(s3, PANICS[2..]);
    assert Take(s3) == QUOTE_NEXT;
  }

  lemma QuoteThenPanic()
    ensures ScanRun(QUOTE_NEXT, PANICS[2..]).status == Panicked
  {
    var s, inputs := QUOTE_NEXT, PANICS[2..];
    assert inputs == [PANICS[2], PANICS[3]] && inputs[1..] == [PANICS[3]];
    assert WithoutStale(s.core.keys, PANICS[2].mark) == s.core.keys;
    var u := Scan(s.core.(queue := [X]), false, X.end);
    assert [] + [X] == [X];
    Fetches(s, inputs, u);
    HandsOut(u, inputs[1..]);
    var v := Take(u);
    assert WithoutStale(v.core.keys, PANICS[3].mark) == v.core.keys;
    assert FetchNext(v, PANICS[3]) == Panic;
  }

  /** The scanner panics although a comment says that this cannot happen. */
  lemma ScannerPanics()
    ensures ScanRun(START, PANICS).status == Panicked
  {
    hide ScanRun;
    KeyIsSeen();
    ColonIsSeen();
    ColonIsTaken();
    QuoteThenPanic();
  }
}
