/**
 The grammar that the parser is documented to implement, as derivations with their tokens and their events. The parser
 turns the tokens of every derivation into its events.
 */
module YamlPhrases {
  import opened Wrappers
  import opened YamlGrammar
  import opened YamlNesting
  import opened YamlContents

  // ----- Derivations -----

  /** An anchor and a tag, in either order, and what they say. */
  datatype Names = Names(tokens: seq<Token>, anchor: string, tag: string)

  datatype Node =
    | NoNode
    | AliasNode(name: Token)
    | NamesNode(names: Names)
    | ScalarNode(names: Names, text: Token)
    | FlowNode(names: Names, start: Token, items: Items, isMapping: bool)
    | SequenceNode(names: Names, opening: seq<Token>, entries: Entries)
    | MappingNode(names: Names, start: Token, pairs: Pairs)

  datatype Entries = NoEntry(close: seq<Token>) | Entry(mark: Token, node: Node, rest: Entries)

  datatype Pairs = NoPair(close: Token) | Pair(mark: Token, key: Node, value: Value, rest: Pairs)

  datatype Value = NoValue | Value(mark: Token, node: Node)

  datatype Items = NoItem(close: seq<Token>) | Listed(comma: seq<Token>, item: Item, rest: Items)

  datatype Item = NodeItem(node: Node) | PairItem(mark: Token, key: Node, value: Value)

  // ----- Their tokens -----

  function NodeTokens(n: Node): seq<Token> {
    match n
    case NoNode => []
    case AliasNode(name) => [name]
    case NamesNode(names) => names.tokens
    case ScalarNode(names, text) => names.tokens + [text]
    case FlowNode(names, start, items, _) => names.tokens + ([start] + ItemsTokens(items))
    case SequenceNode(names, opening, entries) => names.tokens + (opening + EntriesTokens(entries))
    case MappingNode(names, start, pairs) => names.tokens + ([start] + PairsTokens(pairs))
  }

  function EntriesTokens(es: Entries): seq<Token> {
    match es
    case NoEntry(close) => close
    case Entry(mark, node, rest) => [mark] + (NodeTokens(node) + EntriesTokens(rest))
  }

  function PairsTokens(ps: Pairs): seq<Token> {
    match ps
    case NoPair(close) => [close]
    case Pair(mark, key, value, rest) => [mark] + (NodeTokens(key) + (ValueTokens(value) + PairsTokens(rest)))
  }

  function ValueTokens(v: Value): seq<Token> {
    match v
    case NoValue => []
    case Value(mark, node) => [mark] + NodeTokens(node)
  }

  function ItemsTokens(items: Items): seq<Token> {
    match items
    case NoItem(close) => close
    case Listed(comma, item, rest) => comma + (ItemTokens(item) + ItemsTokens(rest))
  }

  function ItemTokens(item: Item): seq<Token> {
    match item
    case NodeItem(node) => NodeTokens(node)
    case PairItem(mark, key, value) => [mark] + (NodeTokens(key) + ValueTokens(value))
  }

  // ----- Which derivations the grammar has -----

  ghost predicate NamesOk(names: Names, tags: seq<TagDirective>) {
    && Named(names.tokens, tags, names.anchor, names.tag)
    // A handle must not stand for an empty tag.
    && forall i :: 0 <= i < |names.tokens| && names.tokens[i].kind == TTag && names.tag == "" ==>
         names.tokens[i].value == ""
  }

  /** A node in a block or in a flow collection, and whether it may be a sequence without a start. */
  ghost predicate NodeOk(n: Node, tags: seq<TagDirective>, block: bool, indentless: bool)
    decreases n, 0
  {
    match n
    case NoNode => false
    case AliasNode(name) => name.kind == TAlias
    case NamesNode(names) => NamesOk(names, tags) && (names.anchor != "" || names.tag != "")
    case ScalarNode(names, text) => NamesOk(names, tags) && text.kind == TScalar
    case FlowNode(names, start, items, isMapping) =>
      && NamesOk(names, tags) && start.kind == (if isMapping then TFlowMappingStart else TFlowSequenceStart)
      && ItemsOk(items, tags, isMapping, true)
    case SequenceNode(names, opening, entries) =>
      && NamesOk(names, tags)
      && (if opening == [] then indentless && entries.Entry?
          else block && |opening| == 1 && opening[0].kind == TBlockSequenceStart)
      && EntriesOk(entries, tags, opening == [])
    case MappingNode(names, start, pairs) =>
      NamesOk(names, tags) && block && start.kind == TBlockMappingStart && PairsOk(pairs, tags)
  }

  ghost predicate OptionalOk(n: Node, tags: seq<TagDirective>, block: bool, indentless: bool)
    decreases n, 1
  {
    n.NoNode? || NodeOk(n, tags, block, indentless)
  }

  ghost predicate EntriesOk(es: Entries, tags: seq<TagDirective>, indentless: bool)
    decreases es
  {
    match es
    case NoEntry(close) => if indentless then close == [] else |close| == 1 && close[0].kind == TBlockEnd
    case Entry(mark, node, rest) =>
      mark.kind == TBlockEntry && OptionalOk(node, tags, true, false) && EntriesOk(rest, tags, indentless)
  }

  ghost predicate PairsOk(ps: Pairs, tags: seq<TagDirective>)
    decreases ps
  {
    match ps
    case NoPair(close) => close.kind == TBlockEnd
    case Pair(mark, key, value, rest) =>
      mark.kind == TKey && OptionalOk(key, tags, true, true) && ValueOk(value, tags, true) && PairsOk(rest, tags)
  }

  ghost predicate ValueOk(v: Value, tags: seq<TagDirective>, block: bool)
    decreases v
  {
    v.Value? ==> v.mark.kind == TValue && OptionalOk(v.node, tags, block, block)
  }

  /** A comma between items, and perhaps one behind the last. */
  ghost predicate ItemsOk(items: Items, tags: seq<TagDirective>, isMapping: bool, first: bool)
    decreases items
  {
    match items
    case NoItem(close) =>
      && 0 < |close| <= (if first then 1 else 2) && (|close| == 2 ==> close[0].kind == TFlowEntry)
      && close[|close| - 1].kind == if isMapping then TFlowMappingEnd else TFlowSequenceEnd
    case Listed(comma, item, rest) =>
      && (if first then comma == [] else |comma| == 1 && comma[0].kind == TFlowEntry)
      && ItemOk(item, tags, isMapping) && ItemsOk(rest, tags, isMapping, false)
  }

  /** The key of a single pair in a sequence must not be missing. */
  ghost predicate ItemOk(item: Item, tags: seq<TagDirective>, isMapping: bool)
    decreases item
  {
    match item
    case NodeItem(node) => NodeOk(node, tags, false, false)
    case PairItem(mark, key, value) =>
      && mark.kind == TKey && ValueOk(value, tags, false)
      && if isMapping then OptionalOk(key, tags, false, false) else NodeOk(key, tags, false, false)
  }

  // ----- Their events -----

  function Unmarked(e: Event): Event {
    e.(at := 0)
  }

  const EMPTY := EmptyScalar(0)

  function NodeEvents(n: Node): (es: seq<Event>)
    ensures es != []
  {
    match n
    case NoNode => [EMPTY]
    case AliasNode(name) => [Alias(0, name.value)]
    case NamesNode(names) => [Scalar(0, names.anchor, names.tag, "", names.tag == "", false, Plain)]
    case ScalarNode(names, text) =>
      var plain := (names.tag == "" && text.style.Plain?) || names.tag == "!";
      [Scalar(0, names.anchor, names.tag, text.value, plain, names.tag == "" && text.style.Quoted?, text.style)]
    case FlowNode(names, _, items, isMapping) =>
      if isMapping then
        [MappingStart(0, names.anchor, names.tag, names.tag == "", true)]
            + (ItemsEvents(items, true) + [MappingEnd(0)])
      else
        [SequenceStart(0, names.anchor, names.tag, names.tag == "", true)]
            + (ItemsEvents(items, false) + [SequenceEnd(0)])
    case SequenceNode(names, _, entries) =>
      [SequenceStart(0, names.anchor, names.tag, names.tag == "", false)] + (EntriesEvents(entries) + [SequenceEnd(0)])
    case MappingNode(names, _, pairs) =>
      [MappingStart(0, names.anchor, names.tag, names.tag == "", false)] + (PairsEvents(pairs) + [MappingEnd(0)])
  }

  function EntriesEvents(es: Entries): seq<Event> {
    match es
    case NoEntry(_) => []
    case Entry(_, node, rest) => NodeEvents(node) + EntriesEvents(rest)
  }

  function PairsEvents(ps: Pairs): seq<Event> {
    match ps
    case NoPair(_) => []
    case Pair(_, key, value, rest) => NodeEvents(key) + (ValueEvents(value) + PairsEvents(rest))
  }

  function ValueEvents(v: Value): seq<Event> {
    match v
    case NoValue => [EMPTY]
    case Value(_, node) => NodeEvents(node)
  }

  function ItemsEvents(items: Items, isMapping: bool): seq<Event> {
    match items
    case NoItem(_) => []
    case Listed(_, item, rest) => ItemEvents(item, isMapping) + ItemsEvents(rest, isMapping)
  }

  /** A pair is a mapping of its own in a sequence, and a node alone is a key without a value in a mapping. */
  function ItemEvents(item: Item, isMapping: bool): seq<Event> {
    match item
    case NodeItem(node) => NodeEvents(node) + if isMapping then [EMPTY] else []
    case PairItem(_, key, value) =>
      if isMapping then NodeEvents(key) + ValueEvents(value)
      else [MappingStart(0, "", "", true, true)] + (NodeEvents(key) + (ValueEvents(value) + [MappingEnd(0)]))
  }

  // ----- Going from event to event -----

  ghost predicate Goes(c: Config, es: seq<Event>, d: Config)
    decreases |es|
  {
    if es == [] then c == d else Yields(Step(c), es, d)
  }

  /** The outcome is the first of the events, and the others follow. */
  ghost predicate Yields(o: Outcome, es: seq<Event>, d: Config)
    requires es != []
    decreases |es|, 0
  {
    o.Emit? && Unmarked(o.event) == es[0] && Goes(o.next, es[1..], d)
  }

  lemma {:induction false} GoesOn(c: Config, es: seq<Event>, d: Config, fs: seq<Event>, e: Config)
    requires Goes(c, es, d) && Goes(d, fs, e)
    ensures Goes(c, es + fs, e)
    decreases |es|
  {
    hide Step;
    if es == [] {
      assert es + fs == fs;
    } else {
      YieldsOn(Step(c), es, d, fs, e);
    }
  }

  lemma {:induction false} YieldsOn(o: Outcome, es: seq<Event>, d: Config, fs: seq<Event>, e: Config)
    requires es != [] && Yields(o, es, d) && Goes(d, fs, e)
    ensures Yields(o, es + fs, e)
    decreases |es|, 0
  {
    hide Step;
    assert (es + fs)[0] == es[0] && (es + fs)[1..] == es[1..] + fs;
    GoesOn(o.next, es[1..], d, fs, e);
  }

  lemma YieldsOne(o: Outcome, e: Event)
    requires o.Emit? && Unmarked(o.event) == e
    ensures Yields(o, [e], o.next)
  {
    assert [e][1..] == [];
  }

  // ----- Names -----

  lemma {:induction false} JoinedIsPrefix(tags: seq<TagDirective>, t: Token, tag: string)
    requires t.value != "" && Joined(tags, t, tag)
    ensures PrefixOf(tags, t.value).Some? && PrefixOf(tags, t.value).value + t.suffix == tag
  {
    var i :| && 0 <= i < |tags| && tags[i].handle == t.value && tag == tags[i].prefix + t.suffix
             && forall j :: 0 <= j < i ==> tags[j].handle != t.value;
    if i > 0 {
      assert tags[1..][i - 1] == tags[i] && forall j :: 0 <= j < i - 1 ==> tags[1..][j] == tags[j + 1];
      JoinedIsPrefix(tags[1..], t, tag);
    }
  }

  lemma JoinedIsResolved(tags: seq<TagDirective>, t: Token, tag: string)
    requires Joined(tags, t, tag) && (tag == "" ==> t.value == "")
    ensures ResolveTag(tags, Some(t)) == Some(tag)
  {
    hide Joined;
    if t.value != "" {
      JoinedIsPrefix(tags, t, tag);
    } else {
      NoHandle(tags, t, tag);
    }
  }

  lemma NoHandle(tags: seq<TagDirective>, t: Token, tag: string)
    requires Joined(tags, t, tag) && t.value == ""
    ensures tag == t.suffix
  {
  }

  /** What the parser makes of names. */
  lemma NamesAreRead(names: Names, tags: seq<TagDirective>, more: seq<Token>)
    requires NamesOk(names, tags) && more != [] && more[0].kind !in {TAnchor, TTag}
    ensures var p := PropertiesOf(names.tokens + more);
            p.count == |names.tokens| && p.anchor == names.anchor && ResolveTag(tags, p.tag) == Some(names.tag)
  {
    hide Joined, ResolveTag;
    var ts := names.tokens;
    var all := ts + more;
    assert forall i :: 0 <= i < |ts| ==> all[i] == ts[i];
    assert all[|ts|] == more[0];
    NoTag(tags);
    if |ts| >= 1 && ts[0].kind == TTag {
      JoinedIsResolved(tags, ts[0], names.tag);
    } else if |ts| == 2 {
      JoinedIsResolved(tags, ts[1], names.tag);
    }
  }

  lemma NoTag(tags: seq<TagDirective>)
    ensures ResolveTag(tags, None) == Some("")
  {
  }

  /** Names in front of content. */
  lemma NodeIsContent(c: Config, names: Names, more: seq<Token>, block: bool, indentless: bool)
    requires c.states != [] && c.tokens == names.tokens + more && NamesOk(names, c.tags)
    requires more != [] && more[0].kind !in {TAnchor, TTag, TAlias}
    ensures NodeOutcome(c, block, indentless)
            == ContentOutcome(c.(tokens := more), c.tokens[0].start, names.anchor, names.tag, block, indentless)
  {
    hide PropertiesOf, ResolveTag, ContentOutcome;
    NamesAreRead(names, c.tags, more);
    NamesKinds(names, c.tags);
    assert c.tokens[|names.tokens|..] == more;
    assert names.tokens != [] ==> c.tokens[0] == names.tokens[0];
  }

  lemma NamesKinds(names: Names, tags: seq<TagDirective>)
    requires NamesOk(names, tags)
    ensures forall i :: 0 <= i < |names.tokens| ==> names.tokens[i].kind in {TAnchor, TTag}
  {
    NamedLength(names.tokens, tags, names.anchor, names.tag);
  }

  // ----- What may follow a node -----

  ghost predicate Follows(rest: seq<Token>, indentless: bool) {
    && rest != []
    && if indentless then rest[0].kind in {TKey, TValue, TBlockEnd}
       else rest[0].kind in {TBlockEntry, TKey, TValue, TBlockEnd, TFlowEntry, TFlowSequenceEnd, TFlowMappingEnd,
                             TDocumentStart, TDocumentEnd, TVersionDirective, TTagDirective, TStreamEnd}
  }

  /** What a node begins with. */
  lemma FirstOfNode(n: Node, tags: seq<TagDirective>, block: bool, indentless: bool, rest: seq<Token>)
    requires NodeOk(n, tags, block, indentless)
    ensures var ts := NodeTokens(n) + rest;
            && ts != []
            && ts[0].kind !in {TKey, TValue, TBlockEnd, TFlowEntry, TFlowSequenceEnd, TFlowMappingEnd, TDocumentStart,
                               TDocumentEnd, TVersionDirective, TTagDirective, TStreamEnd}
            && (!indentless ==> ts[0].kind != TBlockEntry)
  {
    if !n.AliasNode? {
      NamesKinds(n.names, tags);
    }
  }

  // ----- Simple nodes -----

  lemma AliasParses(c: Config, n: Node, rest: seq<Token>, block: bool, indentless: bool)
    requires c.states != [] && n.AliasNode? && NodeOk(n, c.tags, block, indentless) && c.tokens == NodeTokens(n) + rest
    ensures Yields(NodeOutcome(c, block, indentless), NodeEvents(n), Pop(c).(tokens := rest))
  {
    assert c.tokens[1..] == rest;
    YieldsOne(NodeOutcome(c, block, indentless), NodeEvents(n)[0]);
  }

  lemma NamesParse(c: Config, n: Node, rest: seq<Token>, block: bool, indentless: bool)
    requires c.states != [] && n.NamesNode? && NodeOk(n, c.tags, block, indentless) && c.tokens == NodeTokens(n) + rest
    requires Follows(rest, indentless)
    ensures Yields(NodeOutcome(c, block, indentless), NodeEvents(n), Pop(c).(tokens := rest))
  {
    hide NodeOutcome, Step, Goes;
    NodeIsContent(c, n.names, rest, block, indentless);
    YieldsOne(NodeOutcome(c, block, indentless), NodeEvents(n)[0]);
  }

  lemma ScalarParses(c: Config, n: Node, rest: seq<Token>, block: bool, indentless: bool)
    requires c.states != [] && n.ScalarNode? && NodeOk(n, c.tags, block, indentless) && c.tokens == NodeTokens(n) + rest
    ensures Yields(NodeOutcome(c, block, indentless), NodeEvents(n), Pop(c).(tokens := rest))
  {
    hide NodeOutcome, Step, Goes;
    var more := [n.text] + rest;
    assert n.names.tokens + [n.text] + rest == n.names.tokens + more;
    NodeIsContent(c, n.names, more, block, indentless);
    assert more[1..] == rest;
    YieldsOne(NodeOutcome(c, block, indentless), NodeEvents(n)[0]);
  }

  // ----- Moves -----

  lemma EmptyMoves(c: Config, s: State, first: bool, skip: nat, at: Mark, after: State)
    requires MoveOf(s, first, c.tokens) == EmptyThen(skip, at, after) && skip <= |c.tokens|
    ensures Yields(CollectionOutcome(c, s, first), [EMPTY], c.(tokens := c.tokens[skip..], state := after))
  {
    hide MoveOf, NodeOutcome, Step, Goes;
    YieldsOne(CollectionOutcome(c, s, first), EMPTY);
  }

  /** The parser comes back to the state that the node was pushed with. */
  lemma NodeMoves(c: Config, s: State, first: bool, skip: nat, after: State, block: bool, indentless: bool, n: Node,
                  rest: seq<Token>)
    requires MoveOf(s, first, c.tokens) == NodeThen(skip, after, block, indentless) && skip <= |c.tokens|
    requires c.tokens[skip..] == NodeTokens(n) + rest && NodeOk(n, c.tags, block, indentless)
    requires Follows(rest, indentless)
    ensures Yields(CollectionOutcome(c, s, first), NodeEvents(n), c.(tokens := rest, state := after))
    decreases n, 2
  {
    hide MoveOf, NodeOutcome, NodeOk, Follows;
    var d := Drop(c, skip).(states := c.states + [after]);
    NodeParses(d, n, rest, block, indentless);
    assert d.states[..|c.states|] == c.states;
  }

  /** Behind an indicator, a node or nothing. */
  lemma OptionalMoves(c: Config, s: State, first: bool, k: nat, at: Mark, ends: set<TokenKind>, after: State,
                      block: bool, indentless: bool, n: Node, rest: seq<Token>)
    requires MoveOf(s, first, c.tokens) == EntryMove(c.tokens, k, at, ends, after, block, indentless)
    requires k <= |c.tokens| && c.tokens[k..] == NodeTokens(n) + rest && OptionalOk(n, c.tags, block, indentless)
    requires Follows(rest, indentless) && (n.NoNode? ==> rest[0].kind in ends)
    requires ends <= {TBlockEntry, TKey, TValue, TBlockEnd, TFlowEntry, TFlowSequenceEnd, TFlowMappingEnd}
    requires indentless ==> TBlockEntry !in ends
    ensures Yields(CollectionOutcome(c, s, first), NodeEvents(n), c.(tokens := rest, state := after))
    decreases n, 3
  {
    hide MoveOf, CollectionOutcome, NodeOk;
    assert c.tokens[k..] != [];
    assert c.tokens[k..][0] == c.tokens[k];
    if n.NoNode? {
      EmptyMoves(c, s, first, k, at, after);
    } else {
      FirstOfNode(n, c.tags, block, indentless, rest);
      NodeMoves(c, s, first, k, after, block, indentless, n, rest);
    }
  }

  /** In a state inside a collection. */
  lemma InStep(c: Config)
    requires Inner(c.state) || c.state == PairKey
    ensures Step(c) == CollectionOutcome(c, c.state, false)
  {
    hide CollectionOutcome;
  }

  lemma GoesInside(c: Config, es: seq<Event>, d: Config)
    requires (Inner(c.state) || c.state == PairKey) && es != [] && Yields(CollectionOutcome(c, c.state, false), es, d)
    ensures Goes(c, es, d)
  {
    hide CollectionOutcome, Step;
    InStep(c);
  }

  /** The configuration behind a collection. */
  function Behind(c: Config, rest: seq<Token>, marks: nat): Config
    requires c.states != [] && marks <= |c.marks|
  {
    Pop(c).(tokens := rest, marks := c.marks[..|c.marks| - marks])
  }

  lemma CloseMoves(c: Config, s: State, first: bool, skip: nat, at: Mark, rest: seq<Token>)
    requires MoveOf(s, first, c.tokens) == Close(skip, at) && skip <= |c.tokens| && c.tokens[skip..] == rest
    requires c.states != [] && (s != IndentlessEntry ==> c.marks != [])
    ensures Yields(CollectionOutcome(c, s, first), [if InMapping(s) then MappingEnd(0) else SequenceEnd(0)],
                   Behind(c, rest, if s == IndentlessEntry then 0 else 1))
  {
    hide MoveOf, NodeOutcome, Step, Goes, InMapping;
    var o := CollectionOutcome(c, s, first);
    assert o.next == Behind(c, rest, if s == IndentlessEntry then 0 else 1);
    YieldsOne(o, if InMapping(s) then MappingEnd(0) else SequenceEnd(0));
  }

  // ----- Block sequences -----

  lemma FirstOfEntries(es: Entries, tags: seq<TagDirective>, indentless: bool, rest: seq<Token>)
    requires EntriesOk(es, tags, indentless) && (indentless ==> Follows(rest, true))
    ensures var ts := EntriesTokens(es) + rest;
            ts != [] && Follows(ts, false) && ts[0].kind in EntryEnds(indentless)
  {
  }

  function InsideSequence(indentless: bool): State {
    if indentless then IndentlessEntry else BlockSequenceEntry
  }

  function EntryEnds(indentless: bool): set<TokenKind> {
    if indentless then {TBlockEntry, TKey, TValue, TBlockEnd} else {TBlockEntry, TBlockEnd}
  }

  lemma MoveInEntries(ts: seq<Token>, indentless: bool, first: bool)
    requires ts != []
    ensures var m, s := MoveOf(InsideSequence(indentless), first, ts), InsideSequence(indentless);
            && (ts[0].kind == TBlockEntry ==> m == EntryMove(ts, 1, ts[0].end, EntryEnds(indentless), s, true, false))
            && (ts[0].kind != TBlockEntry && indentless ==> m == Close(0, ts[0].start))
            && (ts[0].kind == TBlockEnd && !indentless ==> m == Close(1, ts[0].start))
  {
  }

  lemma EntriesClose(c: Config, close: seq<Token>, rest: seq<Token>, indentless: bool, first: bool)
    requires EntriesOk(NoEntry(close), c.tags, indentless) && c.tokens == close + rest && c.states != []
    requires if indentless then Follows(rest, true) else c.marks != []
    ensures Yields(CollectionOutcome(c, InsideSequence(indentless), first), [SequenceEnd(0)],
                   Behind(c, rest, if indentless then 0 else 1))
  {
    hide CollectionOutcome, Yields, MoveOf;
    assert c.tokens[|close|..] == rest;
    MoveInEntries(c.tokens, indentless, first);
    CloseMoves(c, InsideSequence(indentless), first, |close|, c.tokens[0].start, rest);
  }

  lemma {:induction false} EntriesParse(c: Config, es: Entries, rest: seq<Token>, indentless: bool, first: bool)
    requires EntriesOk(es, c.tags, indentless) && c.tokens == EntriesTokens(es) + rest && c.states != []
    requires if indentless then Follows(rest, true) else c.marks != []
    ensures Yields(CollectionOutcome(c, InsideSequence(indentless), first), EntriesEvents(es) + [SequenceEnd(0)],
                   Behind(c, rest, if indentless then 0 else 1))
    decreases es
  {
    hide CollectionOutcome, Yields, Goes, Step, NodeTokens, NodeEvents, OptionalOk, Follows, MoveOf;
    var s, end := InsideSequence(indentless), [SequenceEnd(0)];
    match es
    case NoEntry(close) =>
      assert [] + end == end;
      EntriesClose(c, close, rest, indentless, first);
    case Entry(mark, node, more) =>
      var T := EntriesTokens(more) + rest;
      assert c.tokens[0] == mark && c.tokens[1..] == NodeTokens(node) + T;
      FirstOfEntries(more, c.tags, indentless, rest);
      MoveInEntries(c.tokens, indentless, first);
      OptionalMoves(c, s, first, 1, mark.end, EntryEnds(indentless), s, true, false, node, T);
      var d := c.(tokens := T, state := s);
      EntriesParse(d, more, rest, indentless, false);
      var after := Behind(c, rest, if indentless then 0 else 1);
      GoesInside(d, EntriesEvents(more) + end, after);
      YieldsOn(CollectionOutcome(c, s, first), NodeEvents(node), d, EntriesEvents(more) + end, after);
      assert NodeEvents(node) + (EntriesEvents(more) + end) == NodeEvents(node) + EntriesEvents(more) + end;
  }

  lemma BlockStarts(c: Config, names: Names, start: Token, more: seq<Token>, block: bool, indentless: bool, e: Event,
                    es: seq<Event>, s: State, d: Config)
    requires c.states != [] && NamesOk(names, c.tags) && c.tokens == names.tokens + ([start] + more)
    requires || (start.kind == TBlockSequenceStart && block && s == BlockSequenceFirst
                 && e == SequenceStart(0, names.anchor, names.tag, names.tag == "", false))
             || (start.kind == TBlockMappingStart && block && s == BlockMappingFirst
                 && e == MappingStart(0, names.anchor, names.tag, names.tag == "", false))
             || (start.kind == TFlowSequenceStart && s == FlowSequenceFirst
                 && e == SequenceStart(0, names.anchor, names.tag, names.tag == "", true))
             || (start.kind == TFlowMappingStart && s == FlowMappingFirst
                 && e == MappingStart(0, names.anchor, names.tag, names.tag == "", true))
    requires es != []
    requires Yields(CollectionOutcome(c.(tokens := more, state := s, marks := c.marks + [start.start]),
                                      AfterFirst(s).value, true), es, d)
    ensures Yields(NodeOutcome(c, block, indentless), [e] + es, d)
  {
    hide NodeOutcome, CollectionOutcome, Goes, Step, NamesOk;
    var all := [start] + more;
    NodeIsContent(c, names, all, block, indentless);
    var o := NodeOutcome(c, block, indentless);
    var f := c.(tokens := all, state := s);
    assert o.Emit? && Unmarked(o.event) == e && o.next == f;
    assert all[1..] == more;
    FirstStep(f);
    assert ([e] + es)[1..] == es;
    StepGoes(f, es, d);
  }

  lemma FirstStep(c: Config)
    requires AfterFirst(c.state).Some? && c.tokens != []
    ensures Step(c) == CollectionOutcome(Drop(c, 1).(marks := c.marks + [c.tokens[0].start]), AfterFirst(c.state).value,
                                         true)
  {
    hide CollectionOutcome;
  }

  lemma StepGoes(c: Config, es: seq<Event>, d: Config)
    requires es != [] && Yields(Step(c), es, d)
    ensures Goes(c, es, d)
  {
    hide Step;
  }

  lemma SequenceParses(c: Config, n: Node, rest: seq<Token>, block: bool, indentless: bool)
    requires c.states != [] && n.SequenceNode? && NodeOk(n, c.tags, block, indentless)
    requires c.tokens == NodeTokens(n) + rest && Follows(rest, indentless)
    ensures Yields(NodeOutcome(c, block, indentless), NodeEvents(n), Pop(c).(tokens := rest))
    decreases n, 0
  {
    hide NodeOutcome, CollectionOutcome, Yields, EntriesTokens, EntriesEvents, EntriesOk, NamesOk;
    var names, more := n.names, EntriesTokens(n.entries) + rest;
    var es := EntriesEvents(n.entries) + [SequenceEnd(0)];
    var e := SequenceStart(0, names.anchor, names.tag, names.tag == "", false);
    if n.opening == [] {
      assert c.tokens == names.tokens + more;
      var d := c.(tokens := more, state := IndentlessEntry);
      EntriesParse(d, n.entries, rest, true, false);
      assert d.marks[..|d.marks|] == c.marks;
      FirstIsEntry(n.entries, c.tags, rest);
      IndentlessStarts(c, n.names, n.entries, more, block, e, es, Pop(c).(tokens := rest));
    } else {
      var start := n.opening[0];
      assert n.opening == [start];
      assert c.tokens == names.tokens + ([start] + more);
      var d := c.(tokens := more, state := BlockSequenceFirst, marks := c.marks + [start.start]);
      EntriesParse(d, n.entries, rest, false, true);
      assert d.marks[..|c.marks|] == c.marks;
      BlockStarts(c, names, start, more, block, indentless, e, es, BlockSequenceFirst, Pop(c).(tokens := rest));
    }
  }

  lemma FirstIsEntry(es: Entries, tags: seq<TagDirective>, rest: seq<Token>)
    requires EntriesOk(es, tags, true) && es.Entry?
    ensures var ts := EntriesTokens(es) + rest; ts != [] && ts[0].kind == TBlockEntry
  {
  }

  lemma IndentlessStarts(c: Config, names: Names, entries: Entries, more: seq<Token>, block: bool, e: Event,
                         es: seq<Event>, d: Config)
    requires c.states != [] && NamesOk(names, c.tags) && c.tokens == names.tokens + more
    requires more != [] && more[0].kind == TBlockEntry
    requires e == SequenceStart(0, names.anchor, names.tag, names.tag == "", false) && es != []
    requires Yields(CollectionOutcome(c.(tokens := more, state := IndentlessEntry), IndentlessEntry, false), es, d)
    ensures Yields(NodeOutcome(c, block, true), [e] + es, d)
  {
    hide NodeOutcome, CollectionOutcome, Goes, Step, NamesOk;
    NodeIsContent(c, names, more, block, true);
    var f := c.(tokens := more, state := IndentlessEntry);
    assert NodeOutcome(c, block, true).next == f;
    assert ([e] + es)[1..] == es;
    GoesInside(f, es, d);
  }

  // ----- Block mappings -----

  lemma FirstOfPairs(ps: Pairs, tags: seq<TagDirective>, rest: seq<Token>)
    requires PairsOk(ps, tags)
    ensures var ts := PairsTokens(ps) + rest; Follows(ts, true) && ts[0].kind in {TKey, TBlockEnd}
  {
  }

  lemma FirstOfValue(v: Value, tags: seq<TagDirective>, more: seq<Token>)
    requires ValueOk(v, tags, true) && more != [] && more[0].kind in {TKey, TBlockEnd}
    ensures Follows(ValueTokens(v) + more, true)
  {
  }

  lemma ValueParses(c: Config, v: Value, rest: seq<Token>)
    requires ValueOk(v, c.tags, true) && c.tokens == ValueTokens(v) + rest && Follows(rest, true)
    requires rest[0].kind in {TKey, TBlockEnd}
    ensures Yields(CollectionOutcome(c, BlockMappingValue, false), ValueEvents(v),
                   c.(tokens := rest, state := BlockMappingKey))
    decreases v
  {
    hide CollectionOutcome, Yields, NodeTokens, NodeEvents, OptionalOk;
    match v
    case NoValue =>
      assert c.tokens == rest && c.tokens[0..] == rest;
      EmptyMoves(c, BlockMappingValue, false, 0, rest[0].start, BlockMappingKey);
    case Value(mark, node) =>
      assert c.tokens[0] == mark && c.tokens[1..] == NodeTokens(node) + rest;
      OptionalMoves(c, BlockMappingValue, false, 1, mark.end, {TKey, TValue, TBlockEnd}, BlockMappingKey, true, true,
                    node, rest);
  }

  lemma {:induction false} PairsParse(c: Config, ps: Pairs, rest: seq<Token>, first: bool)
    requires PairsOk(ps, c.tags) && c.tokens == PairsTokens(ps) + rest && c.states != [] && c.marks != []
    ensures Yields(CollectionOutcome(c, BlockMappingKey, first), PairsEvents(ps) + [MappingEnd(0)], Behind(c, rest, 1))
    decreases ps
  {
    hide CollectionOutcome, Yields, Goes, Step, NodeTokens, NodeEvents, ValueEvents, ValueTokens, OptionalOk, ValueOk,
         Follows;
    var s, ts := BlockMappingKey, c.tokens;
    match ps
    case NoPair(close) =>
      assert [] + [MappingEnd(0)] == [MappingEnd(0)];
      assert ts[0] == close && ts[1..] == rest;
      CloseMoves(c, s, first, 1, close.start, rest);
    case Pair(mark, key, value, more) =>
      var T := PairsTokens(more) + rest;
      var U := ValueTokens(value) + T;
      assert ts[0] == mark && ts[1..] == NodeTokens(key) + U;
      FirstOfPairs(more, c.tags, rest);
      FirstOfValue(value, c.tags, T);
      OptionalMoves(c, s, first, 1, mark.end, {TKey, TValue, TBlockEnd}, BlockMappingValue, true, true, key, U);
      var d1, d2 := c.(tokens := U, state := BlockMappingValue), c.(tokens := T, state := s);
      ValueParses(d1, value, T);
      PairsParse(d2, more, rest, false);
      var end := [MappingEnd(0)];
      NotEmpty(value);
      GoesInside(d2, PairsEvents(more) + end, Behind(c, rest, 1));
      GoesInside(d1, ValueEvents(value), d2);
      GoesOn(d1, ValueEvents(value), d2, PairsEvents(more) + end, Behind(c, rest, 1));
      YieldsOn(CollectionOutcome(c, s, first), NodeEvents(key), d1, ValueEvents(value) + (PairsEvents(more) + end),
               Behind(c, rest, 1));
      assert NodeEvents(key) + (ValueEvents(value) + (PairsEvents(more) + end))
             == NodeEvents(key) + (ValueEvents(value) + PairsEvents(more)) + end;
  }

  lemma NotEmpty(v: Value)
    ensures ValueEvents(v) != []
  {
  }

  lemma MappingParses(c: Config, n: Node, rest: seq<Token>, block: bool, indentless: bool)
    requires c.states != [] && n.MappingNode? && NodeOk(n, c.tags, block, indentless)
    requires c.tokens == NodeTokens(n) + rest
    ensures Yields(NodeOutcome(c, block, indentless), NodeEvents(n), Pop(c).(tokens := rest))
    decreases n, 0
  {
    hide NodeOutcome, CollectionOutcome, Yields, PairsTokens, PairsEvents, PairsOk, NamesOk;
    var names, more := n.names, PairsTokens(n.pairs) + rest;
    var es := PairsEvents(n.pairs) + [MappingEnd(0)];
    assert c.tokens == names.tokens + ([n.start] + more);
    var d := c.(tokens := more, state := BlockMappingFirst, marks := c.marks + [n.start.start]);
    PairsParse(d, n.pairs, rest, true);
    assert d.marks[..|c.marks|] == c.marks;
    BlockStarts(c, names, n.start, more, block, indentless,
                MappingStart(0, names.anchor, names.tag, names.tag == "", false), es, BlockMappingFirst,
                Pop(c).(tokens := rest));
  }

  // ----- Flow collections -----

  predicate Ends(k: TokenKind, isMapping: bool) {
    k == if isMapping then TFlowMappingEnd else TFlowSequenceEnd
  }

  lemma FirstOfItems(items: Items, tags: seq<TagDirective>, isMapping: bool, rest: seq<Token>)
    requires ItemsOk(items, tags, isMapping, false)
    ensures var ts := ItemsTokens(items) + rest;
            ts != [] && Follows(ts, false) && (ts[0].kind == TFlowEntry || Ends(ts[0].kind, isMapping))
  {
  }

  lemma FirstOfFlowValue(v: Value, tags: seq<TagDirective>, more: seq<Token>, isMapping: bool)
    requires ValueOk(v, tags, false) && more != [] && (more[0].kind == TFlowEntry || Ends(more[0].kind, isMapping))
    ensures var ts := ValueTokens(v) + more;
            Follows(ts, false) && (ts[0].kind in {TValue, TFlowEntry} || Ends(ts[0].kind, isMapping))
  {
  }

  /** The value in a flow mapping, or in a single pair of a flow sequence. */
  lemma FlowValueParses(c: Config, v: Value, rest: seq<Token>, isMapping: bool)
    requires ValueOk(v, c.tags, false) && c.tokens == ValueTokens(v) + rest
    requires rest != [] && (rest[0].kind == TFlowEntry || Ends(rest[0].kind, isMapping)) && Follows(rest, false)
    ensures Yields(CollectionOutcome(c, if isMapping then FlowMappingValue else PairValue, false), ValueEvents(v),
                   c.(tokens := rest, state := if isMapping then FlowMappingKey else PairEnd))
    decreases v
  {
    hide CollectionOutcome, Yields, NodeTokens, NodeEvents, OptionalOk;
    var s, after := if isMapping then FlowMappingValue else PairValue, if isMapping then FlowMappingKey else PairEnd;
    match v
    case NoValue =>
      assert c.tokens == rest && c.tokens[0..] == rest;
      EmptyMoves(c, s, false, 0, rest[0].start, after);
    case Value(mark, node) =>
      assert c.tokens[0] == mark && c.tokens[1..] == NodeTokens(node) + rest;
      var at := if !isMapping then mark.start else if 1 < |c.tokens| then c.tokens[1].start else 0;
      OptionalMoves(c, s, false, 1, at, {TFlowEntry, if isMapping then TFlowMappingEnd else TFlowSequenceEnd}, after,
                    false, false, node, rest);
  }

  /** The key and the value of a pair that is a mapping of its own. */
  lemma SinglePairParses(c: Config, item: Item, rest: seq<Token>)
    requires item.PairItem? && ItemOk(item, c.tags, false) && c.state == PairKey
    requires c.tokens == NodeTokens(item.key) + (ValueTokens(item.value) + rest)
    requires rest != [] && (rest[0].kind == TFlowEntry || Ends(rest[0].kind, false)) && Follows(rest, false)
    ensures Goes(c, NodeEvents(item.key) + (ValueEvents(item.value) + [MappingEnd(0)]),
                 c.(tokens := rest, state := FlowSequenceEntry))
    decreases item, 0
  {
    hide CollectionOutcome, Yields, Goes, NodeTokens, NodeEvents, NodeOk, ValueOk, ValueEvents, ValueTokens;
    var key, value := item.key, item.value;
    var U := ValueTokens(value) + rest;
    FirstOfFlowValue(value, c.tags, rest, false);
    FirstOfNode(key, c.tags, false, false, U);
    assert c.tokens[0..] == c.tokens;
    NodeMoves(c, PairKey, false, 0, PairValue, false, false, key, U);
    var d1, d2 := c.(tokens := U, state := PairValue), c.(tokens := rest, state := PairEnd);
    FlowValueParses(d1, value, rest, false);
    PairCloses(d2);
    NotEmpty(value);
    GoesInside(c, NodeEvents(key), d1);
    GoesInside(d1, ValueEvents(value), d2);
    var d := c.(tokens := rest, state := FlowSequenceEntry);
    GoesOn(d1, ValueEvents(value), d2, [MappingEnd(0)], d);
    GoesOn(c, NodeEvents(key), d1, ValueEvents(value) + [MappingEnd(0)], d);
  }

  lemma PairCloses(c: Config)
    requires c.state == PairEnd && c.tokens != []
    ensures Goes(c, [MappingEnd(0)], c.(state := FlowSequenceEntry))
  {
    YieldsOne(CollectionOutcome(c, PairEnd, false), MappingEnd(0));
    hide CollectionOutcome, Step, Yields;
    GoesInside(c, [MappingEnd(0)], c.(state := FlowSequenceEntry));
  }

  ghost predicate CommaOk(comma: seq<Token>, first: bool) {
    if first then comma == [] else |comma| == 1 && comma[0].kind == TFlowEntry
  }

  /** Behind a comma, or behind the start. */
  lemma MoveInSequence(ts: seq<Token>, comma: seq<Token>, first: bool, more: seq<Token>)
    requires CommaOk(comma, first) && ts == comma + more && more != [] && more[0].kind != TFlowSequenceEnd
    ensures MoveOf(FlowSequenceEntry, first, ts)
            == if more[0].kind == TKey then OpenPair(|comma| + 1, more[0].start)
               else NodeThen(|comma|, FlowSequenceEntry, false, false)
    ensures ts[|comma|..] == more
  {
  }

  lemma MoveInMapping(ts: seq<Token>, comma: seq<Token>, first: bool, more: seq<Token>)
    requires CommaOk(comma, first) && ts == comma + more && more != [] && more[0].kind != TFlowMappingEnd
    ensures MoveOf(FlowMappingKey, first, ts)
            == if more[0].kind != TKey then NodeThen(|comma|, FlowMappingEmptyValue, false, false)
               else EntryMove(ts, |comma| + 1, if 1 < |more| then more[1].start else 0,
                              {TValue, TFlowEntry, TFlowMappingEnd}, FlowMappingValue, false, false)
    ensures ts[|comma|..] == more
  {
  }

  lemma SequenceItemParses(c: Config, comma: seq<Token>, item: Item, rest: seq<Token>, first: bool)
    requires ItemOk(item, c.tags, false) && CommaOk(comma, first) && c.tokens == comma + (ItemTokens(item) + rest)
    requires rest != [] && Follows(rest, false) && (rest[0].kind == TFlowEntry || Ends(rest[0].kind, false))
    ensures Yields(CollectionOutcome(c, FlowSequenceEntry, first), ItemEvents(item, false),
                   c.(tokens := rest, state := FlowSequenceEntry))
    decreases item, 2
  {
    hide CollectionOutcome, Yields, Goes, Step, MoveOf, NodeTokens, NodeEvents, NodeOk, Follows;
    var s, more := FlowSequenceEntry, ItemTokens(item) + rest;
    match item
    case NodeItem(node) =>
      FirstOfNode(node, c.tags, false, false, rest);
      MoveInSequence(c.tokens, comma, first, more);
      NodeMoves(c, s, first, |comma|, s, false, false, node, rest);
      assert NodeEvents(node) + [] == NodeEvents(node);
    case PairItem(_, _, _) => PairItemParses(c, comma, item, rest, first);
  }

  lemma PairItemParses(c: Config, comma: seq<Token>, item: Item, rest: seq<Token>, first: bool)
    requires item.PairItem? && ItemOk(item, c.tags, false) && CommaOk(comma, first)
    requires c.tokens == comma + (ItemTokens(item) + rest)
    requires rest != [] && Follows(rest, false) && (rest[0].kind == TFlowEntry || Ends(rest[0].kind, false))
    ensures Yields(CollectionOutcome(c, FlowSequenceEntry, first), ItemEvents(item, false),
                   c.(tokens := rest, state := FlowSequenceEntry))
    decreases item, 1
  {
    hide CollectionOutcome, Yields, Goes, Step, MoveOf, NodeTokens, NodeEvents, NodeOk, ValueOk, ValueEvents,
         ValueTokens, Follows;
    var s, more := FlowSequenceEntry, ItemTokens(item) + rest;
    var after := NodeTokens(item.key) + (ValueTokens(item.value) + rest);
    PairIs(item.mark, NodeTokens(item.key), ValueTokens(item.value), rest, comma);
    MoveInSequence(c.tokens, comma, first, more);
    var d := c.(tokens := after, state := PairKey);
    PairOpens(c, first, |comma| + 1, item.mark.start, d);
    SinglePairParses(d, item, rest);
    YieldsOn(CollectionOutcome(c, s, first), [MappingStart(0, "", "", true, true)], d,
             NodeEvents(item.key) + (ValueEvents(item.value) + [MappingEnd(0)]), c.(tokens := rest, state := s));
  }

  lemma PairIs(mark: Token, key: seq<Token>, value: seq<Token>, rest: seq<Token>, comma: seq<Token>)
    ensures var ts := comma + ([mark] + (key + value) + rest);
            ([mark] + (key + value) + rest)[0] == mark && |ts| > |comma| && ts[|comma| + 1..] == key + (value + rest)
  {
  }

  lemma PairOpens(c: Config, first: bool, skip: nat, at: Mark, d: Config)
    requires MoveOf(FlowSequenceEntry, first, c.tokens) == OpenPair(skip, at) && skip <= |c.tokens|
    requires d == c.(tokens := c.tokens[skip..], state := PairKey)
    ensures Yields(CollectionOutcome(c, FlowSequenceEntry, first), [MappingStart(0, "", "", true, true)], d)
  {
    hide MoveOf, NodeOutcome, Step, Goes;
    YieldsOne(CollectionOutcome(c, FlowSequenceEntry, first), MappingStart(0, "", "", true, true));
  }

  lemma MappingItemParses(c: Config, comma: seq<Token>, item: Item, rest: seq<Token>, first: bool)
    requires ItemOk(item, c.tags, true) && CommaOk(comma, first) && c.tokens == comma + (ItemTokens(item) + rest)
    requires rest != [] && Follows(rest, false) && (rest[0].kind == TFlowEntry || Ends(rest[0].kind, true))
    ensures Yields(CollectionOutcome(c, FlowMappingKey, first), ItemEvents(item, true),
                   c.(tokens := rest, state := FlowMappingKey))
    decreases item, 1
  {
    hide CollectionOutcome, Yields, Goes, MoveOf, NodeTokens, NodeEvents, NodeOk, ValueOk, ValueEvents, ValueTokens;
    var s, more := FlowMappingKey, ItemTokens(item) + rest;
    match item
    case NodeItem(node) =>
      FirstOfNode(node, c.tags, false, false, rest);
      MoveInMapping(c.tokens, comma, first, more);
      NodeMoves(c, s, first, |comma|, FlowMappingEmptyValue, false, false, node, rest);
      var d := c.(tokens := rest, state := FlowMappingEmptyValue);
      ValueIsMissing(d);
      YieldsOn(CollectionOutcome(c, s, first), NodeEvents(node), d, [EMPTY], c.(tokens := rest, state := s));
    case PairItem(mark, key, value) =>
      var U := ValueTokens(value) + rest;
      assert more[0] == mark && more[1..] == NodeTokens(key) + U;
      MoveInMapping(c.tokens, comma, first, more);
      assert c.tokens[|comma| + 1..] == more[1..];
      FirstOfFlowValue(value, c.tags, rest, true);
      OptionalMoves(c, s, first, |comma| + 1, if 1 < |more| then more[1].start else 0,
                    {TValue, TFlowEntry, TFlowMappingEnd}, FlowMappingValue, false, false, key, U);
      var d := c.(tokens := U, state := FlowMappingValue);
      FlowValueParses(d, value, rest, true);
      NotEmpty(value);
      GoesInside(d, ValueEvents(value), c.(tokens := rest, state := s));
      YieldsOn(CollectionOutcome(c, s, first), NodeEvents(key), d, ValueEvents(value),
               c.(tokens := rest, state := s));
  }

  lemma ValueIsMissing(c: Config)
    requires c.state == FlowMappingEmptyValue && c.tokens != []
    ensures Goes(c, [EMPTY], c.(state := FlowMappingKey))
  {
    hide CollectionOutcome, Step, Yields, Goes;
    assert c.tokens[0..] == c.tokens;
    EmptyMoves(c, FlowMappingEmptyValue, false, 0, c.tokens[0].start, FlowMappingKey);
    GoesInside(c, [EMPTY], c.(state := FlowMappingKey));
  }

  function EndEvent(isMapping: bool): Event {
    if isMapping then MappingEnd(0) else SequenceEnd(0)
  }

  function InsideFlow(isMapping: bool): State {
    if isMapping then FlowMappingKey else FlowSequenceEntry
  }

  lemma ItemsClose(c: Config, close: seq<Token>, rest: seq<Token>, isMapping: bool, first: bool)
    requires ItemsOk(NoItem(close), c.tags, isMapping, first) && c.tokens == close + rest
    requires c.states != [] && c.marks != []
    ensures Yields(CollectionOutcome(c, InsideFlow(isMapping), first), [EndEvent(isMapping)], Behind(c, rest, 1))
  {
    hide CollectionOutcome, Yields;
    assert c.tokens[|close|..] == rest && c.tokens[|close| - 1] == close[|close| - 1] && c.tokens[0] == close[0];
    CloseMoves(c, InsideFlow(isMapping), first, |close|, close[|close| - 1].start, rest);
  }

  lemma {:induction false} ItemsParse(c: Config, items: Items, rest: seq<Token>, isMapping: bool, first: bool)
    requires ItemsOk(items, c.tags, isMapping, first) && c.tokens == ItemsTokens(items) + rest
    requires c.states != [] && c.marks != []
    ensures Yields(CollectionOutcome(c, InsideFlow(isMapping), first),
                   ItemsEvents(items, isMapping) + [EndEvent(isMapping)], Behind(c, rest, 1))
    decreases items, 0
  {
    hide CollectionOutcome, Yields, Goes, ItemTokens, ItemEvents, ItemOk, Follows;
    var end := [EndEvent(isMapping)];
    match items
    case NoItem(close) =>
      assert [] + end == end;
      ItemsClose(c, close, rest, isMapping, first);
    case Listed(comma, item, more) =>
      var T := ItemsTokens(more) + rest;
      assert c.tokens == comma + (ItemTokens(item) + T);
      FirstOfItems(more, c.tags, isMapping, rest);
      if isMapping {
        MappingItemParses(c, comma, item, T, first);
      } else {
        SequenceItemParses(c, comma, item, T, first);
      }
      var d := c.(tokens := T, state := InsideFlow(isMapping));
      ItemsParse(d, more, rest, isMapping, false);
      GoesInside(d, ItemsEvents(more, isMapping) + end, Behind(c, rest, 1));
      HasEvents(item, isMapping);
      YieldsOn(CollectionOutcome(c, InsideFlow(isMapping), first), ItemEvents(item, isMapping), d,
               ItemsEvents(more, isMapping) + end, Behind(c, rest, 1));
      assert ItemEvents(item, isMapping) + (ItemsEvents(more, isMapping) + end)
             == ItemEvents(item, isMapping) + ItemsEvents(more, isMapping) + end;
  }

  lemma HasEvents(item: Item, isMapping: bool)
    ensures ItemEvents(item, isMapping) != []
  {
  }

  lemma FlowParses(c: Config, n: Node, rest: seq<Token>, block: bool, indentless: bool)
    requires c.states != [] && n.FlowNode? && NodeOk(n, c.tags, block, indentless) && c.tokens == NodeTokens(n) + rest
    ensures Yields(NodeOutcome(c, block, indentless), NodeEvents(n), Pop(c).(tokens := rest))
    decreases n, 0
  {
    hide NodeOutcome, CollectionOutcome, Yields, ItemsTokens, ItemsEvents, ItemsOk, NamesOk;
    var names, more := n.names, ItemsTokens(n.items) + rest;
    var es := ItemsEvents(n.items, n.isMapping) + [EndEvent(n.isMapping)];
    assert c.tokens == names.tokens + ([n.start] + more);
    var s := if n.isMapping then FlowMappingFirst else FlowSequenceFirst;
    var d := c.(tokens := more, state := s, marks := c.marks + [n.start.start]);
    ItemsParse(d, n.items, rest, n.isMapping, true);
    assert d.marks[..|c.marks|] == c.marks;
    BlockStarts(c, names, n.start, more, block, indentless, NodeEvents(n)[0], es, s, Pop(c).(tokens := rest));
  }

  // ----- Nodes -----

  lemma {:induction false} NodeParses(c: Config, n: Node, rest: seq<Token>, block: bool, indentless: bool)
    requires c.states != [] && c.tokens == NodeTokens(n) + rest && NodeOk(n, c.tags, block, indentless)
    requires Follows(rest, indentless)
    ensures Yields(NodeOutcome(c, block, indentless), NodeEvents(n), Pop(c).(tokens := rest))
    decreases n, 1
  {
    match n
    case AliasNode(_) => AliasParses(c, n, rest, block, indentless);
    case NamesNode(_) => NamesParse(c, n, rest, block, indentless);
    case ScalarNode(_, _) => ScalarParses(c, n, rest, block, indentless);
    case FlowNode(_, _, _, _) => FlowParses(c, n, rest, block, indentless);
    case SequenceNode(_, _, _) => SequenceParses(c, n, rest, block, indentless);
    case MappingNode(_, _, _) => MappingParses(c, n, rest, block, indentless);
  }

  // ----- Documents -----

  /** A document, with a start that may be missing for the first one. */
  datatype Document = Document(directives: seq<Token>, start: seq<Token>, node: Node, ends: seq<Token>)

  datatype Documents = NoDocument(end: Token) | Documents(document: Document, rest: Documents)

  function DocumentTokens(d: Document): seq<Token> {
    d.directives + (d.start + (NodeTokens(d.node) + d.ends))
  }

  function DocumentsTokens(ds: Documents): seq<Token> {
    match ds
    case NoDocument(end) => [end]
    case Documents(d, rest) => DocumentTokens(d) + DocumentsTokens(rest)
  }

  /** At most one version, which is 1.1, and no handle twice. */
  ghost predicate DirectivesOk(ts: seq<Token>) {
    && AllOf(ts, {TVersionDirective, TTagDirective})
    && (forall i :: 0 <= i < |ts| && ts[i].kind == TVersionDirective ==> ts[i].major == 1 && ts[i].minor == 1)
    && forall i, j :: 0 <= i < j < |ts| ==> ts[i].kind != ts[j].kind
                                            || (ts[i].kind == TTagDirective && ts[i].value != ts[j].value)
  }

  ghost predicate DocumentOk(d: Document, first: bool) {
    var tags := InForce(DirectivesIn(d.directives));
    && DirectivesOk(d.directives) && AllOf(d.ends, {TDocumentEnd})
    && if d.start == [] then first && d.directives == [] && NodeOk(d.node, tags, true, false)
       else |d.start| == 1 && d.start[0].kind == TDocumentStart && OptionalOk(d.node, tags, true, false)
  }

  ghost predicate DocumentsOk(ds: Documents, first: bool) {
    match ds
    case NoDocument(end) => end.kind == TStreamEnd
    case Documents(d, rest) => DocumentOk(d, first) && DocumentsOk(rest, false)
  }

  function DocumentEvents(d: Document): seq<Event> {
    [DocumentStart(0, HasVersion(d.directives), DirectivesIn(d.directives))]
    + (NodeEvents(d.node) + [DocumentEnd(0, d.ends == [])])
  }

  function DocumentsEvents(ds: Documents): seq<Event> {
    match ds
    case NoDocument(_) => [StreamEnd(0)]
    case Documents(d, rest) => DocumentEvents(d) + DocumentsEvents(rest)
  }

  /** A token that cannot be part of a document that has no start. */
  predicate Separates(k: TokenKind) {
    k in {TVersionDirective, TTagDirective, TDocumentStart, TStreamEnd}
  }

  lemma FirstOfDocuments(ds: Documents)
    requires DocumentsOk(ds, false)
    ensures DocumentsTokens(ds) != [] && Separates(DocumentsTokens(ds)[0].kind)
  {
  }

  lemma {:induction false} DirectivesAreTaken(ts: seq<Token>, more: seq<Token>, version: bool, own: seq<TagDirective>)
    requires DirectivesOk(ts) && more != [] && more[0].kind !in {TVersionDirective, TTagDirective}
    requires version ==> !HasVersion(ts)
    requires forall i :: 0 <= i < |ts| && ts[i].kind == TTagDirective ==> !HasHandle(own, ts[i].value)
    ensures ReadDirectives(ts + more, own, version, own)
            == Directives(more, InForce(own + DirectivesIn(ts)), version || HasVersion(ts), own + DirectivesIn(ts))
    decreases |ts|
  {
    hide InForce, HasVersion, HasHandle;
    var all := ts + more;
    if ts == [] {
      assert all == more && own + [] == own;
      DefaultsAreAdded(own);
      NoVersion();
    } else {
      var t, rest := ts[0], ts[1..];
      assert all[0] == t && all[1..] == rest + more && ts == [t] + rest;
      RestOfDirectives(ts);
      VersionIn(t, rest);
      if t.kind == TVersionDirective {
        DirectivesAreTaken(rest, more, true, own);
        assert own + ([] + DirectivesIn(rest)) == own + DirectivesIn(rest);
      } else {
        var d := TagDirective(t.value, t.prefix);
        PrefixIff(own, t.value);
        forall i | 0 <= i < |rest| && rest[i].kind == TTagDirective ensures !HasHandle(own + [d], rest[i].value) {
          assert rest[i] == ts[i + 1];
          HandleAdded(own, d, rest[i].value);
        }
        DirectivesAreTaken(rest, more, version, own + [d]);
        assert own + [d] + DirectivesIn(rest) == own + ([d] + DirectivesIn(rest));
      }
    }
  }

  lemma HandleAdded(own: seq<TagDirective>, d: TagDirective, handle: string)
    ensures HasHandle(own + [d], handle) <==> HasHandle(own, handle) || d.handle == handle
  {
    if HasHandle(own, handle) {
      var i :| 0 <= i < |own| && own[i].handle == handle;
      assert (own + [d])[i].handle == handle;
    }
    if d.handle == handle {
      assert (own + [d])[|own|] == d;
    }
  }

  lemma RestOfDirectives(ts: seq<Token>)
    requires DirectivesOk(ts) && ts != []
    ensures DirectivesOk(ts[1..]) && (ts[0].kind == TVersionDirective ==> !HasVersion(ts[1..]))
  {
    assert forall i :: 0 <= i < |ts[1..]| ==> ts[1..][i] == ts[i + 1];
  }

  lemma {:induction false} EndsSkipped(ends: seq<Token>, ts: seq<Token>)
    requires AllOf(ends, {TDocumentEnd}) && ts != [] && ts[0].kind != TDocumentEnd
    ensures SkipDocumentEnds(ends + ts) == ts
    decreases |ends|
  {
    if ends == [] {
      assert ends + ts == ts;
    } else {
      assert (ends + ts)[0] == ends[0] && (ends + ts)[1..] == ends[1..] + ts;
      EndsSkipped(ends[1..], ts);
    }
  }

  /** A document with its directives and its start. */
  lemma DocumentOpens(c: Config, ends: seq<Token>, d: Document, first: bool, more: seq<Token>)
    requires c.state == (if first then ImplicitDocumentStart else DocumentStartState) && c.states == [] && c.tags == []
    requires AllOf(ends, {TDocumentEnd}) && (first ==> ends == []) && DirectivesOk(d.directives)
    requires |d.start| == 1 && d.start[0].kind == TDocumentStart
    requires c.tokens == ends + (d.directives + (d.start + more))
    ensures Goes(c, [DocumentStart(0, HasVersion(d.directives), DirectivesIn(d.directives))],
                 c.(tokens := more, state := DocumentContent, states := [DocumentEndState],
                    tags := InForce(DirectivesIn(d.directives))))
  {
    hide ReadDirectives, SkipDocumentEnds, InForce, HasVersion, DirectivesIn, AllOf;
    var ts := d.directives + (d.start + more);
    StartsWith(d.directives, d.start + more);
    EndsSkipped(ends, ts);
    NoTags(d.directives);
    DirectivesAreTaken(d.directives, d.start + more, false, []);
    assert [] + DirectivesIn(d.directives) == DirectivesIn(d.directives) && (d.start + more)[1..] == more;
    assert first ==> [] + ts == ts;
    assert [] + [DocumentEndState] == [DocumentEndState];
    YieldsOne(Step(c), DocumentStart(0, HasVersion(d.directives), DirectivesIn(d.directives)));
  }

  lemma StartsWith(directives: seq<Token>, more: seq<Token>)
    requires DirectivesOk(directives) && more != [] && more[0].kind == TDocumentStart
    ensures (directives + more)[0].kind in {TVersionDirective, TTagDirective, TDocumentStart}
  {
  }

  lemma NoTags(ts: seq<Token>)
    ensures forall i :: 0 <= i < |ts| ==> !HasHandle([], ts[i].value)
  {
  }

  /** A first document without a start. */
  lemma BareDocumentOpens(c: Config)
    requires c.state == ImplicitDocumentStart && c.states == [] && c.tags == []
    requires c.tokens != [] && !Separates(c.tokens[0].kind)
    ensures Goes(c, [DocumentStart(0, false, [])],
                 c.(state := BlockNode, states := [DocumentEndState], tags := InForce([])))
  {
    hide InForce;
    DefaultsAreAdded([]);
    YieldsOne(Step(c), DocumentStart(0, false, []));
  }

  lemma DocumentCloses(c: Config, ends: seq<Token>, more: seq<Token>)
    requires c.state == DocumentEndState && AllOf(ends, {TDocumentEnd}) && c.tokens == ends + more
    requires more != [] && more[0].kind != TDocumentEnd
    ensures Goes(c, [DocumentEnd(0, ends == [])],
                 c.(tokens := (if ends == [] then [] else ends[1..]) + more, state := DocumentStartState, tags := []))
  {
    assert ends != [] ==> c.tokens[1..] == ends[1..] + more;
    assert ends == [] ==> c.tokens == [] + more && c.tokens[0..] == c.tokens;
    YieldsOne(Step(c), DocumentEnd(0, ends == []));
  }

  /** The node of a document, or nothing. */
  lemma RootParses(c: Config, n: Node, rest: seq<Token>)
    requires c.states == [DocumentEndState] && c.tokens == NodeTokens(n) + rest && Follows(rest, false)
    requires rest[0].kind == TDocumentEnd || Separates(rest[0].kind)
    requires if c.state == BlockNode then NodeOk(n, c.tags, true, false)
             else c.state == DocumentContent && OptionalOk(n, c.tags, true, false)
    ensures Goes(c, NodeEvents(n), c.(tokens := rest, state := DocumentEndState, states := []))
  {
    hide NodeOutcome, NodeOk, Goes, NodeEvents, Step;
    var d := c.(tokens := rest, state := DocumentEndState, states := []);
    if n.NoNode? {
      NothingIsEmpty(c.tags);
      assert c.tokens == rest;
      MissingRoot(c);
    } else {
      assert [DocumentEndState][..0] == [];
      FirstOfNode(n, c.tags, true, false, rest);
      NodeParses(c, n, rest, true, false);
      RootStep(c);
    }
    StepGoes(c, NodeEvents(n), d);
  }

  lemma RootStep(c: Config)
    requires c.states != [] && c.tokens != [] && AtContent(c.state)
    requires c.tokens[0].kind != TDocumentEnd && !Separates(c.tokens[0].kind)
    ensures Step(c) == NodeOutcome(c, true, false)
  {
    hide NodeOutcome;
  }

  lemma MissingRoot(c: Config)
    requires c.states == [DocumentEndState] && c.state == DocumentContent && c.tokens != []
    requires c.tokens[0].kind == TDocumentEnd || Separates(c.tokens[0].kind)
    ensures Yields(Step(c), [EMPTY], c.(state := DocumentEndState, states := []))
  {
    assert [DocumentEndState][..0] == [];
    YieldsOne(Step(c), EMPTY);
  }

  lemma NothingIsEmpty(tags: seq<TagDirective>)
    ensures NodeEvents(NoNode) == [EMPTY] && NodeTokens(NoNode) == [] && !NodeOk(NoNode, tags, true, false)
  {
  }

  // ----- Streams -----

  lemma {:induction false} DocumentsParse(c: Config, ends: seq<Token>, ds: Documents, first: bool)
    requires c.state == (if first then ImplicitDocumentStart else DocumentStartState) && c.states == [] && c.tags == []
    requires AllOf(ends, {TDocumentEnd}) && (first ==> ends == []) && DocumentsOk(ds, first)
    requires c.tokens == ends + DocumentsTokens(ds)
    ensures Goes(c, DocumentsEvents(ds), c.(tokens := [], state := EndState))
    decreases ds
  {
    hide Goes, Step, DocumentTokens, DocumentEvents, DocumentOk;
    match ds
    case NoDocument(end) => StreamEnds(c, ends, end, first);
    case Documents(d, rest) =>
      FirstOfDocuments(rest);
      var more := DocumentsTokens(rest);
      assert c.tokens == ends + (DocumentTokens(d) + more);
      var left := if d.ends == [] then [] else d.ends[1..];
      var after := c.(tokens := left + more, state := DocumentStartState);
      DocumentParses(c, ends, d, more, first, after);
      EndsLeft(d, first);
      DocumentsParse(after, left, rest, false);
      GoesOn(c, DocumentEvents(d), after, DocumentsEvents(rest), c.(tokens := [], state := EndState));
  }

  lemma EndsLeft(d: Document, first: bool)
    requires DocumentOk(d, first)
    ensures AllOf(if d.ends == [] then [] else d.ends[1..], {TDocumentEnd})
  {
  }

  lemma StreamEnds(c: Config, ends: seq<Token>, end: Token, first: bool)
    requires c.state == (if first then ImplicitDocumentStart else DocumentStartState)
    requires AllOf(ends, {TDocumentEnd}) && (first ==> ends == []) && end.kind == TStreamEnd && c.tokens == ends + [end]
    ensures Goes(c, [StreamEnd(0)], c.(tokens := [], state := EndState))
  {
    hide SkipDocumentEnds, ReadDirectives;
    EndsSkipped(ends, [end]);
    assert first ==> c.tokens == [end];
    YieldsOne(Step(c), StreamEnd(0));
  }

  lemma DocumentParses(c: Config, ends: seq<Token>, d: Document, more: seq<Token>, first: bool, after: Config)
    requires c.state == (if first then ImplicitDocumentStart else DocumentStartState) && c.states == [] && c.tags == []
    requires AllOf(ends, {TDocumentEnd}) && (first ==> ends == []) && DocumentOk(d, first)
    requires c.tokens == ends + (DocumentTokens(d) + more) && more != [] && Separates(more[0].kind)
    requires after == c.(tokens := (if d.ends == [] then [] else d.ends[1..]) + more, state := DocumentStartState)
    ensures Goes(c, DocumentEvents(d), after)
  {
    hide Goes, Step, NodeTokens, NodeEvents, NodeOk, AllOf, HasVersion, DirectivesIn, InForce, DirectivesOk;
    var tags := InForce(DirectivesIn(d.directives));
    var rest := d.ends + more;
    var root := NodeTokens(d.node) + rest;
    assert c.tokens == ends + (d.directives + (d.start + root));
    var e := DocumentStart(0, HasVersion(d.directives), DirectivesIn(d.directives));
    var c1 := c.(tokens := root, state := if d.start == [] then BlockNode else DocumentContent,
                 states := [DocumentEndState], tags := tags);
    if d.start == [] {
      assert c.tokens == root;
      NothingDirected();
      FirstOfNode(d.node, tags, true, false, rest);
      BareDocumentOpens(c);
    } else {
      DocumentOpens(c, ends, d, first, root);
    }
    FirstOfEnds(d.ends, more);
    var c2 := c1.(tokens := rest, state := DocumentEndState, states := []);
    RootParses(c1, d.node, rest);
    DocumentCloses(c2, d.ends, more);
    GoesOn(c1, NodeEvents(d.node), c2, [DocumentEnd(0, d.ends == [])], after);
    GoesOn(c, [e], c1, NodeEvents(d.node) + [DocumentEnd(0, d.ends == [])], after);
  }

  lemma NothingDirected()
    ensures DirectivesIn([]) == [] && !HasVersion([])
  {
  }

  lemma FirstOfEnds(ends: seq<Token>, more: seq<Token>)
    requires AllOf(ends, {TDocumentEnd}) && more != [] && Separates(more[0].kind)
    ensures var ts := ends + more; Follows(ts, false) && (ts[0].kind == TDocumentEnd || Separates(ts[0].kind))
  {
  }

  /**
   Every derivation of the grammar is parsed: the parser takes all of its tokens and yields exactly its events, up to
   their positions.
   */
  lemma GrammarIsParsed(start: Token, ds: Documents) returns (cs: seq<Config>, es: seq<Event>)
    requires start.kind == TStreamStart && DocumentsOk(ds, true)
    ensures IsRun([start] + DocumentsTokens(ds), cs, es) && cs[|es|].tokens == [] && cs[|es|].state == EndState
    ensures |es| == |DocumentsEvents(ds)| + 1
    ensures forall i :: 0 <= i < |es| ==> Unmarked(es[i]) == ([StreamStart(0)] + DocumentsEvents(ds))[i]
  {
    hide Goes, Step;
    var tokens := [start] + DocumentsTokens(ds);
    var c := Config(tokens, StreamStartState, [], [], []);
    var d := c.(tokens := DocumentsTokens(ds), state := ImplicitDocumentStart);
    StreamOpens(c, start, DocumentsTokens(ds));
    assert [] + DocumentsTokens(ds) == DocumentsTokens(ds);
    DocumentsParse(d, [], ds, true);
    var end := d.(tokens := [], state := EndState);
    GoesOn(c, [StreamStart(0)], d, DocumentsEvents(ds), end);
    cs, es := RunOf(c, [StreamStart(0)] + DocumentsEvents(ds), end);
  }

  lemma StreamOpens(c: Config, start: Token, more: seq<Token>)
    requires c.state == StreamStartState && start.kind == TStreamStart && c.tokens == [start] + more
    ensures Goes(c, [StreamStart(0)], c.(tokens := more, state := ImplicitDocumentStart))
  {
    assert c.tokens[1..] == more;
    YieldsOne(Step(c), StreamStart(0));
  }

  /** The configurations and events on the way. */
  lemma {:induction false} RunOf(c: Config, fs: seq<Event>, d: Config) returns (cs: seq<Config>, es: seq<Event>)
    requires Goes(c, fs, d)
    ensures |cs| == |es| + 1 == |fs| + 1 && cs[0] == c && cs[|es|] == d
    ensures forall i :: 0 <= i < |es| ==> Step(cs[i]) == Emit(es[i], cs[i + 1])
    ensures forall i :: 0 <= i < |es| ==> Unmarked(es[i]) == fs[i]
    decreases |fs|
  {
    hide Step;
    if fs == [] {
      cs, es := [c], [];
    } else {
      var o := Step(c);
      var cs', es' := RunOf(o.next, fs[1..], d);
      cs, es := [c] + cs', [o.event] + es';
    }
  }

  // ----- What the comments allow and the parser does not -----

  /** A value without a key is never taken in a block mapping. */
  lemma ValueWithoutKeyFails(c: Config)
    requires (c.state == BlockMappingKey && Is(c.tokens, 0, TValue))
             || (c.state == BlockMappingFirst && Is(c.tokens, 1, TValue))
    ensures Step(c).Fail?
  {
  }

  /** A single pair whose key is missing and whose value is not gets two empty scalars, and then the parser fails. */
  lemma PairWithoutKeyFails(c: Config)
    requires c.state == PairKey && Is(c.tokens, 0, TValue) && |c.tokens| > 1
    requires c.tokens[1].kind !in {TValue, TFlowEntry, TFlowSequenceEnd}
    ensures var d := c.(tokens := c.tokens[1..], state := FlowSequenceEntry);
            Goes(c, [EMPTY, EMPTY, MappingEnd(0)], d) && Step(d).Fail?
  {
    hide CollectionOutcome, Yields, Goes;
    var ts := c.tokens[1..];
    var d1, d2 := c.(tokens := ts, state := PairValue), c.(tokens := ts, state := PairEnd);
    EmptyMoves(c, PairKey, false, 1, c.tokens[0].end, PairValue);
    GoesInside(c, [EMPTY], d1);
    assert ts[0..] == ts;
    EmptyMoves(d1, PairValue, false, 0, ts[0].start, PairEnd);
    GoesInside(d1, [EMPTY], d2);
    PairCloses(d2);
    var d := c.(tokens := ts, state := FlowSequenceEntry);
    GoesOn(d1, [EMPTY], d2, [MappingEnd(0)], d);
    GoesOn(c, [EMPTY], d1, [EMPTY] + [MappingEnd(0)], d);
    assert [EMPTY] + ([EMPTY] + [MappingEnd(0)]) == [EMPTY, EMPTY, MappingEnd(0)];
    NoCommaFails(d);
  }

  lemma NoCommaFails(c: Config)
    requires c.state == FlowSequenceEntry && c.tokens != [] && c.tokens[0].kind !in {TFlowEntry, TFlowSequenceEnd}
    ensures Step(c).Fail?
  {
  }
}
