/**
 The token queue of the YAML scanner. A mapping key is recognised only when its `:` comes, so the
 scanner inserts tokens behind itself. What the characters say is given as a list of inputs.
 */
module YamlQueue {
  import opened Wrappers
  import opened YamlGrammar

  datatype Position = Position(index: nat, line: nat, column: nat)

  /** What a token says: an anchor, a scalar, a tag or a directive. */
  datatype Text = Text(value: string, suffix: string, prefix: string, style: Style, major: int, minor: int)

  const NO_TEXT := Text("", "", "", Plain, 0, 0)

  datatype Scanned = Scanned(kind: TokenKind, start: Position, end: Position, text: Text := NO_TEXT)

  /** A token that may turn out to be a key; `tokenNumber` counts all tokens from the start of the stream. */
  datatype SimpleKey = SimpleKey(possible: bool, required: bool, tokenNumber: nat, mark: Position)

  const NO_KEY := SimpleKey(false, false, 0, Position(0, 0, 0))

  // ----- Block structure -----

  function Weight(k: TokenKind): int {
    if k == TBlockSequenceStart || k == TBlockMappingStart then 1 else if k == TBlockEnd then -1 else 0
  }

  /** The number of block collections that are open at the end. */
  function Depth(ts: seq<Scanned>): int {
    if ts == [] then 0 else Depth(ts[..|ts| - 1]) + Weight(ts[|ts| - 1].kind)
  }

  /** No block collection is closed that has not been opened. */
  ghost predicate Balanced(ts: seq<Scanned>) {
    forall n :: 0 <= n <= |ts| ==> Depth(ts[..n]) >= 0
  }

  lemma {:induction false} DepthAppend(a: seq<Scanned>, b: seq<Scanned>)
    ensures Depth(a + b) == Depth(a) + Depth(b)
  {
    if b == [] {
      assert a + b == a;
    } else {
      assert (a + b)[..|a + b| - 1] == a + b[..|b| - 1];
      DepthAppend(a, b[..|b| - 1]);
    }
  }

  lemma DepthOne(t: Scanned)
    ensures Depth([t]) == Weight(t.kind)
  {
    assert [t][..0] == [];
  }

  /** A token that closes nothing may be put anywhere. */
  lemma InsertBalanced(a: seq<Scanned>, t: Scanned, b: seq<Scanned>)
    requires Balanced(a + b) && Weight(t.kind) >= 0
    ensures Balanced(a + [t] + b) && Depth(a + [t] + b) == Depth(a + b) + Weight(t.kind)
  {
    var all := a + [t] + b;
    DepthOne(t);
    DepthAppend(a, b);
    DepthAppend(a + [t], b);
    DepthAppend(a, [t]);
    forall n | 0 <= n <= |all| ensures Depth(all[..n]) >= 0 {
      if n <= |a| {
        assert all[..n] == (a + b)[..n];
      } else {
        var m := n - |a| - 1;
        assert all[..n] == a + [t] + b[..m];
        assert (a + b)[..n - 1] == a + b[..m];
        DepthAppend(a + [t], b[..m]);
        DepthAppend(a, b[..m]);
        assert Depth((a + b)[..n - 1]) >= 0;
      }
    }
  }

  lemma AppendBalanced(a: seq<Scanned>, t: Scanned)
    requires Balanced(a) && Depth(a) + Weight(t.kind) >= 0
    ensures Balanced(a + [t]) && Depth(a + [t]) == Depth(a) + Weight(t.kind)
  {
    DepthOne(t);
    DepthAppend(a, [t]);
    forall n | 0 <= n <= |a| + 1 ensures Depth((a + [t])[..n]) >= 0 {
      assert (a + [t])[..n] == if n <= |a| then a[..n] else a + [t];
    }
  }

  // ----- Simple keys -----

  predicate StartsKey(k: TokenKind) {
    k in {TAlias, TAnchor, TTag, TScalar, TFlowSequenceStart, TFlowMappingStart}
  }

  /** The key names a token of the queue in front of which `parsed` tokens have been handed out. */
  ghost predicate Names(key: SimpleKey, parsed: nat, queue: seq<Scanned>) {
    key.possible ==>
      && parsed <= key.tokenNumber < parsed + |queue|
      && queue[key.tokenNumber - parsed].start == key.mark && StartsKey(queue[key.tokenNumber - parsed].kind)
  }

  /** Every key names its own token, and keys of inner levels name later tokens. */
  ghost predicate KeysOk(keys: seq<SimpleKey>, parsed: nat, queue: seq<Scanned>) {
    && (forall i :: 0 <= i < |keys| ==> Names(keys[i], parsed, queue))
    && forall i, j :: 0 <= i < j < |keys| && keys[i].possible && keys[j].possible
                      ==> keys[i].tokenNumber < keys[j].tokenNumber
  }

  lemma KeysAppend(keys: seq<SimpleKey>, parsed: nat, queue: seq<Scanned>, more: seq<Scanned>)
    requires KeysOk(keys, parsed, queue)
    ensures KeysOk(keys, parsed, queue + more)
  {
  }

  /** Tokens in front of the innermost key leave the outer keys where they are. */
  lemma KeysInsert(keys: seq<SimpleKey>, parsed: nat, queue: seq<Scanned>, more: seq<Scanned>)
    requires keys != [] && KeysOk(keys, parsed, queue) && keys[|keys| - 1].possible
    ensures var n := |keys| - 1;
            var p := keys[n].tokenNumber - parsed;
            && 0 <= p < |queue| && queue[p].start == keys[n].mark && StartsKey(queue[p].kind)
            && KeysOk(keys[n := keys[n].(possible := false)], parsed, queue[..p] + more + queue[p..])
  {
    var n := |keys| - 1;
    assert Names(keys[n], parsed, queue);
    var p := keys[n].tokenNumber - parsed;
    var queue' := queue[..p] + more + queue[p..];
    forall i | 0 <= i < n && keys[i].possible ensures Names(keys[i], parsed, queue') {
      assert Names(keys[i], parsed, queue) && keys[i].tokenNumber < keys[n].tokenNumber;
      assert queue'[keys[i].tokenNumber - parsed] == queue[keys[i].tokenNumber - parsed];
    }
  }

  /** A token can be handed out when no key names it. */
  lemma KeysTake(keys: seq<SimpleKey>, parsed: nat, queue: seq<Scanned>)
    requires KeysOk(keys, parsed, queue) && queue != []
    requires forall i :: 0 <= i < |keys| && keys[i].possible ==> keys[i].tokenNumber != parsed
    ensures KeysOk(keys, parsed + 1, queue[1..])
  {
    forall i | 0 <= i < |keys| ensures Names(keys[i], parsed + 1, queue[1..]) {
      assert Names(keys[i], parsed, queue);
    }
  }

  /** The indentation levels, outermost first. */
  ghost predicate IndentsOk(indents: seq<int>, indent: int) {
    && (if indents == [] then indent == -1 else indents[0] == -1 && indents[|indents| - 1] < indent)
    && forall i, j :: 0 <= i < j < |indents| ==> indents[i] < indents[j]
  }

  lemma PopIndent(indents: seq<int>, indent: int)
    requires IndentsOk(indents, indent) && indent > -1
    ensures indents != [] && IndentsOk(indents[..|indents| - 1], indents[|indents| - 1])
  {
  }

  // ----- The invariant -----

  /** The tokens that have been handed out, the queue, and what the scanner remembers about both. */
  datatype Core = Core(
    taken: seq<Scanned>,
    queue: seq<Scanned>,
    keys: seq<SimpleKey>,
    flow: nat,
    indent: int,
    indents: seq<int>)

  /** The invariant once the stream has started; `pending` is about to join the queue. */
  ghost predicate Ok(c: Core, pending: seq<Scanned>) {
    && Balanced(c.taken + c.queue) && Depth(c.taken + c.queue) == |c.indents|
    && KeysOk(c.keys, |c.taken|, c.queue + pending)
    && |c.keys| == c.flow + 1 && IndentsOk(c.indents, c.indent)
  }

  lemma OkStart(t: Scanned)
    requires t.kind == TStreamStart
    ensures Ok(Core([], [t], [NO_KEY], 0, -1, []), [])
  {
    AppendBalanced([], t);
    assert [] + [t] == [t];
  }

  lemma OkPending(c: Core, t: Scanned)
    requires Ok(c, [])
    ensures Ok(c, [t])
  {
    hide Balanced, Depth, KeysOk, IndentsOk;
    KeysAppend(c.keys, |c.taken|, c.queue + [], [t]);
    assert c.queue + [] + [t] == c.queue + [t];
  }

  lemma OkAppend(c: Core, t: Scanned)
    requires Ok(c, [t]) && Weight(t.kind) == 0
    ensures Ok(c.(queue := c.queue + [t]), [])
  {
    hide Balanced, Depth, KeysOk, IndentsOk;
    AppendBalanced(c.taken + c.queue, t);
    assert c.taken + c.queue + [t] == c.taken + (c.queue + [t]);
    assert c.queue + [t] + [] == c.queue + [t];
  }

  /** A block collection opens behind the queue. */
  lemma OkOpen(c: Core, t: Scanned, column: nat)
    requires Ok(c, []) && Weight(t.kind) == 1 && c.indent < column
    ensures Ok(c.(queue := c.queue + [t], indents := c.indents + [c.indent], indent := column), [])
  {
    hide Balanced, Depth, KeysOk;
    AppendBalanced(c.taken + c.queue, t);
    assert c.taken + c.queue + [t] == c.taken + (c.queue + [t]);
    KeysAppend(c.keys, |c.taken|, c.queue + [], [t]);
    assert c.queue + [] + [t] == c.queue + [t] + [];
  }

  /** The innermost block collection closes behind the queue. */
  lemma OkClose(c: Core, t: Scanned)
    requires Ok(c, []) && t.kind == TBlockEnd && c.indent > -1
    ensures c.indents != [] && c.indents[|c.indents| - 1] < c.indent
    ensures Ok(c.(queue := c.queue + [t], indents := c.indents[..|c.indents| - 1],
                  indent := c.indents[|c.indents| - 1]), [])
  {
    hide Balanced, Depth, KeysOk;
    PopIndent(c.indents, c.indent);
    AppendBalanced(c.taken + c.queue, t);
    assert c.taken + c.queue + [t] == c.taken + (c.queue + [t]);
    KeysAppend(c.keys, |c.taken|, c.queue + [], [t]);
    assert c.queue + [] + [t] == c.queue + [t] + [];
  }

  lemma OkForget(c: Core, pending: seq<Scanned>, i: nat)
    requires Ok(c, pending) && i < |c.keys|
    ensures Ok(c.(keys := c.keys[i := c.keys[i].(possible := false)]), pending)
  {
    hide Balanced, Depth, IndentsOk;
    var keys := c.keys[i := c.keys[i].(possible := false)];
    assert forall j :: 0 <= j < |keys| ==> Names(keys[j], |c.taken|, c.queue + pending) by {
      assert forall j :: 0 <= j < |keys| ==> Names(c.keys[j], |c.taken|, c.queue + pending);
    }
  }

  /** A key for the token that comes next takes the place of the one of the current level. */
  lemma OkSave(c: Core, t: Scanned, key: SimpleKey)
    requires Ok(c, []) && key.tokenNumber == |c.taken| + |c.queue| && key.mark == t.start && StartsKey(t.kind)
    ensures Ok(c.(keys := c.keys[c.flow := key]), [t])
  {
    hide Balanced, Depth, IndentsOk;
    assert c.queue + [] == c.queue;
    KeysAppend(c.keys, |c.taken|, c.queue, [t]);
    forall i | 0 <= i < c.flow && c.keys[i].possible ensures c.keys[i].tokenNumber < key.tokenNumber {
      assert Names(c.keys[i], |c.taken|, c.queue);
    }
  }

  lemma OkDeeper(c: Core, t: Scanned)
    requires Ok(c, [t])
    ensures Ok(c.(keys := c.keys + [NO_KEY], flow := c.flow + 1), [t])
  {
    hide Balanced, Depth, IndentsOk;
  }

  lemma OkShallower(c: Core)
    requires Ok(c, []) && c.flow > 0
    ensures Ok(c.(keys := c.keys[..c.flow], flow := c.flow - 1), [])
  {
    hide Balanced, Depth, IndentsOk;
  }

  /** What is put in front of a key. */
  function KeyTokens(key: SimpleKey, opens: bool): seq<Scanned> {
    (if opens then [Scanned(TBlockMappingStart, key.mark, key.mark)] else []) + [Scanned(TKey, key.mark, key.mark)]
  }

  lemma KeyBalanced(taken: seq<Scanned>, queue: seq<Scanned>, p: nat, key: SimpleKey, opens: bool)
    requires p <= |queue| && Balanced(taken + queue)
    ensures var all := taken + (queue[..p] + KeyTokens(key, opens) + queue[p..]);
            Balanced(all) && Depth(all) == Depth(taken + queue) + if opens then 1 else 0
  {
    hide Balanced, Depth;
    var a, b := taken + queue[..p], queue[p..];
    var k, m := Scanned(TKey, key.mark, key.mark), Scanned(TBlockMappingStart, key.mark, key.mark);
    assert taken + queue == a + b;
    InsertBalanced(a, k, b);
    if opens {
      assert a + [k] + b == a + ([k] + b);
      InsertBalanced(a, m, [k] + b);
      assert taken + (queue[..p] + KeyTokens(key, opens) + queue[p..]) == a + [m] + ([k] + b);
    } else {
      assert taken + (queue[..p] + KeyTokens(key, opens) + queue[p..]) == a + [k] + b;
    }
  }

  /** The key of the current level names a token of the queue. */
  predicate KeyInQueue(c: Core) {
    c.flow < |c.keys| && |c.taken| <= c.keys[c.flow].tokenNumber < |c.taken| + |c.queue|
  }

  /** The key of the current level is marked, and opens a mapping if it stands deeper than the current one. */
  function WithKey(c: Core): Core
    requires KeyInQueue(c)
  {
    var key := c.keys[c.flow];
    var p := key.tokenNumber - |c.taken|;
    var opens := c.flow == 0 && c.indent < key.mark.column;
    var d := c.(queue := c.queue[..p] + KeyTokens(key, opens) + c.queue[p..],
                keys := c.keys[c.flow := key.(possible := false)]);
    if opens then d.(indents := c.indents + [c.indent], indent := key.mark.column) else d
  }

  /** The key names a token that has not been handed out, so its own tokens come in time. */
  lemma OkKey(c: Core)
    requires Ok(c, []) && c.keys[c.flow].possible
    ensures var key := c.keys[c.flow];
            && KeyInQueue(c)
            && c.queue[key.tokenNumber - |c.taken|].start == key.mark
            && StartsKey(c.queue[key.tokenNumber - |c.taken|].kind)
            && Ok(WithKey(c), [])
  {
    hide Balanced, Depth, KeysOk, KeyTokens;
    var key := c.keys[c.flow];
    var opens := c.flow == 0 && c.indent < key.mark.column;
    assert c.queue + [] == c.queue;
    KeysInsert(c.keys, |c.taken|, c.queue, KeyTokens(key, opens));
    KeyBalanced(c.taken, c.queue, key.tokenNumber - |c.taken|, key, opens);
    assert WithKey(c).queue + [] == WithKey(c).queue;
  }

  /** A token that no key names can be handed out. */
  lemma OkTake(c: Core)
    requires Ok(c, []) && c.queue != []
    requires forall i :: 0 <= i < |c.keys| && c.keys[i].possible ==> c.keys[i].tokenNumber != |c.taken|
    ensures Ok(c.(taken := c.taken + [c.queue[0]], queue := c.queue[1..]), [])
  {
    hide Balanced, Depth, KeysOk, IndentsOk;
    assert c.queue + [] == c.queue;
    KeysTake(c.keys, |c.taken|, c.queue);
    assert c.taken + [c.queue[0]] + c.queue[1..] == c.taken + c.queue;
    assert c.queue[1..] + [] == c.queue[1..];
  }

  /** At the outermost level nothing is open. */
  lemma OkFlat(c: Core)
    requires Ok(c, []) && c.indent <= -1
    ensures c.indents == [] && Depth(c.taken + c.queue) == 0
  {
  }

  // ----- What the operations of the scanner do -----

  function Add(c: Core, t: Scanned): Core {
    c.(queue := c.queue + [t])
  }

  /** A key of the current level that must not be given up. */
  predicate NeedsValue(c: Core) {
    c.flow < |c.keys| && c.keys[c.flow].possible && c.keys[c.flow].required
  }

  function Forget(c: Core): Core {
    if c.flow < |c.keys| then c.(keys := c.keys[c.flow := c.keys[c.flow].(possible := false)]) else c
  }

  /** Remember that the next token may be a key, where keys are allowed. */
  function Saved(c: Core, allowed: bool, at: Position): Core {
    if allowed && c.flow < |c.keys| then
      c.(keys := c.keys[c.flow := SimpleKey(true, c.flow == 0 && c.indent == at.column, |c.taken| + |c.queue|, at)])
    else c
  }

  function Deeper(c: Core): Core {
    c.(keys := c.keys + [NO_KEY], flow := c.flow + 1)
  }

  function Shallower(c: Core): Core {
    if 0 < c.flow < |c.keys| then c.(keys := c.keys[..c.flow], flow := c.flow - 1) else c
  }

  /** A key has to be on one line and no longer than 1024 characters. */
  predicate Stale(key: SimpleKey, at: Position) {
    key.possible && (key.mark.line < at.line || key.mark.index + 1024 < at.index)
  }

  function WithoutStale(keys: seq<SimpleKey>, at: Position): (r: seq<SimpleKey>)
    ensures |r| == |keys| && forall i :: 0 <= i < |keys|
                                         ==> r[i] == if Stale(keys[i], at) then keys[i].(possible := false) else keys[i]
  {
    seq(|keys|, i requires 0 <= i < |keys| => if Stale(keys[i], at) then keys[i].(possible := false) else keys[i])
  }

  /** Open a block collection if the position is deeper than the current one. */
  function OpenBlock(c: Core, kind: TokenKind, at: Position): Core {
    if c.flow > 0 || c.indent >= at.column then c
    else c.(queue := c.queue + [Scanned(kind, at, at)], indents := c.indents + [c.indent], indent := at.column)
  }

  /** Close the block collections that are deeper than a column. */
  function CloseBlocks(c: Core, column: int, at: Position): Core
    decreases |c.indents|
  {
    if c.flow > 0 || c.indent <= column || c.indents == [] then c
    else
      var n := |c.indents| - 1;
      CloseBlocks(c.(queue := c.queue + [Scanned(TBlockEnd, at, at)], indents := c.indents[..n],
                     indent := c.indents[n]), column, at)
  }
}
