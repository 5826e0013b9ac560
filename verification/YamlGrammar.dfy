/**
 The productions of the YAML parser as tables: what each state of the parser does with the tokens in
 front of it. A table entry is a move; applying it yields one event and the next configuration.
 */
module YamlGrammar {
  import opened Wrappers

  type Mark = nat

  datatype TokenKind =
    | TStreamStart | TStreamEnd | TVersionDirective | TTagDirective | TDocumentStart | TDocumentEnd
    | TBlockSequenceStart | TBlockMappingStart | TBlockEnd
    | TFlowSequenceStart | TFlowSequenceEnd | TFlowMappingStart | TFlowMappingEnd
    | TBlockEntry | TFlowEntry | TKey | TValue | TAlias | TAnchor | TTag | TScalar

  datatype Style = Plain | Quoted

  datatype Token = Token(
    kind: TokenKind,
    value: string,
    suffix: string,
    prefix: string,
    style: Style,
    major: int,
    minor: int,
    start: Mark,
    end: Mark)

  datatype TagDirective = TagDirective(handle: string, prefix: string)

  const DEFAULT_TAGS := [TagDirective("!", "!"), TagDirective("!!", "tag:yaml.org,2002:")]

  datatype Event =
    | StreamStart(at: Mark)
    | StreamEnd(at: Mark)
    | DocumentStart(at: Mark, version: bool, tags: seq<TagDirective>)
    | DocumentEnd(at: Mark, implicit: bool)
    | Alias(at: Mark, anchor: string)
    | Scalar(at: Mark, anchor: string, tag: string, value: string, implicit: bool, quotedImplicit: bool, style: Style)
    | SequenceStart(at: Mark, anchor: string, tag: string, implicit: bool, flow: bool)
    | SequenceEnd(at: Mark)
    | MappingStart(at: Mark, anchor: string, tag: string, implicit: bool, flow: bool)
    | MappingEnd(at: Mark)
  {
    predicate Leaf() {
      Alias? || Scalar?
    }

    predicate Opens() {
      SequenceStart? || MappingStart?
    }
  }

  datatype State =
    | StreamStartState | ImplicitDocumentStart | DocumentStartState | DocumentContent | DocumentEndState
    | BlockNode
    | BlockSequenceFirst | BlockSequenceEntry | IndentlessEntry
    | BlockMappingFirst | BlockMappingKey | BlockMappingValue
    | FlowSequenceFirst | FlowSequenceEntry | PairKey | PairValue | PairEnd
    | FlowMappingFirst | FlowMappingKey | FlowMappingValue | FlowMappingEmptyValue
    | EndState

  /** The tokens that are still to come, and what the parser remembers. */
  datatype Config = Config(
    tokens: seq<Token>,
    state: State,
    states: seq<State>,
    marks: seq<Mark>,
    tags: seq<TagDirective>)

  datatype Outcome = Fail | Emit(event: Event, next: Config)

  // ----- Nodes -----

  /** An anchor and a tag in front of a node, in either order, and how many tokens they take. */
  datatype Properties = Properties(anchor: string, tag: Option<Token>, count: nat)

  predicate Is(ts: seq<Token>, i: nat, k: TokenKind) {
    i < |ts| && ts[i].kind == k
  }

  function PropertiesOf(ts: seq<Token>): (p: Properties)
    ensures p.count <= |ts|
  {
    if Is(ts, 0, TAnchor) then
      if Is(ts, 1, TTag) then Properties(ts[0].value, Some(ts[1]), 2) else Properties(ts[0].value, None, 1)
    else if Is(ts, 0, TTag) then
      if Is(ts, 1, TAnchor) then Properties(ts[1].value, Some(ts[0]), 2) else Properties("", Some(ts[0]), 1)
    else Properties("", None, 0)
  }

  /** The prefix of the first directive with the handle. */
  function PrefixOf(tags: seq<TagDirective>, handle: string): Option<string> {
    if tags == [] then None
    else if tags[0].handle == handle then Some(tags[0].prefix)
    else PrefixOf(tags[1..], handle)
  }

  function ResolveTag(tags: seq<TagDirective>, tag: Option<Token>): Option<string> {
    if tag.None? then Some("")
    else if tag.value.value == "" then Some(tag.value.suffix)
    else
      match PrefixOf(tags, tag.value.value)
      case None => None
      case Some(prefix) => if prefix + tag.value.suffix == "" then None else Some(prefix + tag.value.suffix)
  }

  function Pop(c: Config): Config
    requires c.states != []
  {
    c.(state := c.states[|c.states| - 1], states := c.states[..|c.states| - 1])
  }

  function Drop(c: Config, n: nat): Config
    requires n <= |c.tokens|
  {
    c.(tokens := c.tokens[n..])
  }

  /** The content behind the properties; an anchor or a tag alone stands for an empty scalar. */
  function ContentOutcome(c: Config, at: Mark, anchor: string, tag: string, block: bool, indentless: bool): Outcome
    requires c.tokens != [] && c.states != []
  {
    var t := c.tokens[0];
    if indentless && t.kind == TBlockEntry then
      Emit(SequenceStart(at, anchor, tag, tag == "", false), c.(state := IndentlessEntry))
    else if t.kind == TScalar then
      var plainImplicit := (tag == "" && t.style.Plain?) || tag == "!";
      Emit(Scalar(at, anchor, tag, t.value, plainImplicit, !plainImplicit && tag == "", t.style), Pop(Drop(c, 1)))
    else if t.kind == TFlowSequenceStart then
      Emit(SequenceStart(at, anchor, tag, tag == "", true), c.(state := FlowSequenceFirst))
    else if t.kind == TFlowMappingStart then
      Emit(MappingStart(at, anchor, tag, tag == "", true), c.(state := FlowMappingFirst))
    else if block && t.kind == TBlockSequenceStart then
      Emit(SequenceStart(at, anchor, tag, tag == "", false), c.(state := BlockSequenceFirst))
    else if block && t.kind == TBlockMappingStart then
      Emit(MappingStart(at, anchor, tag, tag == "", false), c.(state := BlockMappingFirst))
    else if anchor != "" || tag != "" then
      Emit(Scalar(at, anchor, tag, "", tag == "", false, Plain), Pop(c))
    else Fail
  }

  /** A node: an alias, or properties and content, where one of the two may be missing. */
  function NodeOutcome(c: Config, block: bool, indentless: bool): Outcome
    requires c.states != []
  {
    var ts := c.tokens;
    if Is(ts, 0, TAlias) then
      Emit(Alias(ts[0].start, ts[0].value), Pop(Drop(c, 1)))
    else
      var p := PropertiesOf(ts);
      var tag := ResolveTag(c.tags, p.tag);
      if p.count == |ts| || tag.None? then Fail
      else ContentOutcome(Drop(c, p.count), ts[0].start, p.anchor, tag.value, block, indentless)
  }

  // ----- Inside collections -----

  datatype Move =
    | Bad
    | EmptyThen(skip: nat, at: Mark, after: State)
    | NodeThen(skip: nat, after: State, block: bool, indentless: bool)
    | Close(skip: nat, at: Mark)
    | OpenPair(skip: nat, at: Mark)
    | ClosePair(at: Mark)

  predicate OneOf(ts: seq<Token>, i: nat, ks: set<TokenKind>) {
    i < |ts| && ts[i].kind in ks
  }

  /** Behind an indicator: a node, or an empty scalar if one of the given tokens follows. */
  function EntryMove(ts: seq<Token>, i: nat, at: Mark, ends: set<TokenKind>, after: State, block: bool,
                     indentless: bool): Move {
    if i >= |ts| then Bad
    else if OneOf(ts, i, ends) then EmptyThen(i, at, after)
    else NodeThen(i, after, block, indentless)
  }

  /** What a state inside a collection does; `first` if the start token of the collection has just been taken. */
  function MoveOf(s: State, first: bool, ts: seq<Token>): Move {
    if ts == [] then Bad
    else
      var t := ts[0];
      match s
      case BlockSequenceEntry =>
        if t.kind == TBlockEntry then EntryMove(ts, 1, t.end, {TBlockEntry, TBlockEnd}, BlockSequenceEntry, true, false)
        else if t.kind == TBlockEnd then Close(1, t.start)
        else Bad
      case IndentlessEntry =>
        if t.kind == TBlockEntry then EntryMove(ts, 1, t.end, {TBlockEntry, TKey, TValue, TBlockEnd}, IndentlessEntry,
                                                true, false)
        else Close(0, t.start)
      case BlockMappingKey =>
        if t.kind == TKey then EntryMove(ts, 1, t.end, {TKey, TValue, TBlockEnd}, BlockMappingValue, true, true)
        else if t.kind == TBlockEnd then Close(1, t.start)
        else Bad
      case BlockMappingValue =>
        if t.kind == TValue then EntryMove(ts, 1, t.end, {TKey, TValue, TBlockEnd}, BlockMappingKey, true, true)
        else EmptyThen(0, t.start, BlockMappingKey)
      case FlowSequenceEntry =>
        var k := if first then 0 else 1;
        if t.kind == TFlowSequenceEnd then Close(1, t.start)
        else if (!first && t.kind != TFlowEntry) || k >= |ts| then Bad
        else if ts[k].kind == TKey then OpenPair(k + 1, ts[k].start)
        else if ts[k].kind == TFlowSequenceEnd then Close(k + 1, ts[k].start)
        else NodeThen(k, FlowSequenceEntry, false, false)
      case PairKey =>
        // An indicator in place of the key is taken together with the empty key.
        if OneOf(ts, 0, {TValue, TFlowEntry, TFlowSequenceEnd}) then EmptyThen(1, t.end, PairValue)
        else NodeThen(0, PairValue, false, false)
      case PairValue =>
        if t.kind == TValue then EntryMove(ts, 1, t.start, {TFlowEntry, TFlowSequenceEnd}, PairEnd, false, false)
        else EmptyThen(0, t.start, PairEnd)
      case PairEnd => ClosePair(t.start)
      case FlowMappingKey =>
        var k := if first then 0 else 1;
        if t.kind == TFlowMappingEnd then Close(1, t.start)
        else if (!first && t.kind != TFlowEntry) || k >= |ts| then Bad
        else if ts[k].kind == TKey then
          EntryMove(ts, k + 1, if k + 1 < |ts| then ts[k + 1].start else 0, {TValue, TFlowEntry, TFlowMappingEnd},
                    FlowMappingValue, false, false)
        else if ts[k].kind == TFlowMappingEnd then Close(k + 1, ts[k].start)
        else NodeThen(k, FlowMappingEmptyValue, false, false)
      case FlowMappingValue =>
        if t.kind == TValue then
          EntryMove(ts, 1, if 1 < |ts| then ts[1].start else 0, {TFlowEntry, TFlowMappingEnd}, FlowMappingKey, false,
                    false)
        else EmptyThen(0, t.start, FlowMappingKey)
      case FlowMappingEmptyValue => EmptyThen(0, t.start, FlowMappingKey)
      case _ => Bad
  }

  predicate InMapping(s: State) {
    s == BlockMappingKey || s == FlowMappingKey
  }

  function EmptyScalar(at: Mark): Event {
    Scalar(at, "", "", "", true, false, Plain)
  }

  /** One event inside a collection. */
  function CollectionOutcome(c: Config, s: State, first: bool): Outcome {
    match MoveOf(s, first, c.tokens)
    case Bad => Fail
    case EmptyThen(skip, at, after) => if skip > |c.tokens| then Fail
      else Emit(EmptyScalar(at), Drop(c, skip).(state := after))
    case NodeThen(skip, after, block, indentless) =>
      if skip > |c.tokens| then Fail else NodeOutcome(Drop(c, skip).(states := c.states + [after]), block, indentless)
    case Close(skip, at) =>
      var marks := if s == IndentlessEntry then 0 else 1;
      if skip > |c.tokens| || c.states == [] || |c.marks| < marks then Fail
      else Emit(if InMapping(s) then MappingEnd(at) else
                  SequenceEnd(at), Pop(Drop(c, skip)).(marks := c.marks[..|c.marks| - marks]))
    case OpenPair(skip, at) =>
      if skip > |c.tokens| then Fail else Emit(MappingStart(at, "", "", true, true), Drop(c, skip).(state := PairKey))
    case ClosePair(at) => Emit(MappingEnd(at), c.(state := FlowSequenceEntry))
  }

  /** The state that follows the first one of a collection. */
  function AfterFirst(s: State): Option<State> {
    match s
    case BlockSequenceFirst => Some(BlockSequenceEntry)
    case BlockMappingFirst => Some(BlockMappingKey)
    case FlowSequenceFirst => Some(FlowSequenceEntry)
    case FlowMappingFirst => Some(FlowMappingKey)
    case _ => None
  }

  // ----- Documents -----

  function AddTag(tags: seq<TagDirective>, d: TagDirective): seq<TagDirective> {
    if PrefixOf(tags, d.handle).Some? then tags else tags + [d]
  }

  datatype Directives = BadDirectives | Directives(rest: seq<Token>, tags: seq<TagDirective>, version: bool,
                                                   own: seq<TagDirective>)

  /** Read directives: at most one version, which must be 1.1, and no handle twice. */
  function ReadDirectives(ts: seq<Token>, tags: seq<TagDirective>, version: bool,
                          own: seq<TagDirective>): (r: Directives)
    ensures r.Directives? ==> r.rest != [] && |r.rest| <= |ts|
    decreases |ts|
  {
    if ts == [] then BadDirectives
    else if ts[0].kind == TVersionDirective then
      if version || ts[0].major != 1 || ts[0].minor != 1 then BadDirectives
          else ReadDirectives(ts[1..], tags, true, own)
    else if ts[0].kind == TTagDirective then
      var d := TagDirective(ts[0].value, ts[0].prefix);
      if PrefixOf(tags, d.handle).Some? then BadDirectives else ReadDirectives(ts[1..], tags + [d], version, own + [d])
    else Directives(ts, AddTag(AddTag(tags, DEFAULT_TAGS[0]), DEFAULT_TAGS[1]), version, own)
  }

  function SkipDocumentEnds(ts: seq<Token>): seq<Token> {
    if ts != [] && ts[0].kind == TDocumentEnd then SkipDocumentEnds(ts[1..]) else ts
  }

  function DocumentStartOutcome(c: Config, implicit: bool): Outcome {
    var ts := if implicit then c.tokens else SkipDocumentEnds(c.tokens);
    if ts == [] then Fail
    else if ts[0].kind == TStreamEnd then
      Emit(StreamEnd(ts[0].start), c.(tokens := ts[1..], state := EndState))
    else
      var explicit := !implicit || ts[0].kind in {TVersionDirective, TTagDirective, TDocumentStart};
      match ReadDirectives(ts, c.tags, false, [])
      case BadDirectives => Fail
      case Directives(rest, tags, version, own) =>
        if !explicit then
          Emit(DocumentStart(ts[0].start, false, []),
               c.(tokens := rest, state := BlockNode, states := c.states + [DocumentEndState], tags := tags))
        else if rest[0].kind != TDocumentStart then Fail
        else
          Emit(DocumentStart(ts[0].start, version, own),
               c.(tokens := rest[1..], state := DocumentContent, states := c.states + [DocumentEndState], tags := tags))
  }

  /** One event, or failure. */
  function Step(c: Config): Outcome {
    var ts := c.tokens;
    match c.state
    case StreamStartState =>
      if Is(ts, 0, TStreamStart) then Emit(StreamStart(ts[0].start), Drop(c, 1).(state := ImplicitDocumentStart))
          else Fail
    case ImplicitDocumentStart => DocumentStartOutcome(c, true)
    case DocumentStartState => DocumentStartOutcome(c, false)
    case DocumentContent =>
      if ts == [] || c.states == [] then Fail
      else if OneOf(ts, 0, {TVersionDirective, TTagDirective, TDocumentStart, TDocumentEnd, TStreamEnd})
          then Emit(EmptyScalar(ts[0].start), Pop(c))
      else NodeOutcome(c, true, false)
    case DocumentEndState =>
      if ts == [] then Fail
      else
        var explicit := ts[0].kind == TDocumentEnd;
        Emit(DocumentEnd(ts[0].start, !explicit),
             Drop(c, if explicit then 1 else 0).(state := DocumentStartState, tags := []))
    case BlockNode => if c.states == [] then Fail else NodeOutcome(c, true, false)
    case EndState => Fail
    case s =>
      match AfterFirst(s)
      case Some(s') => if ts == [] then Fail
        else CollectionOutcome(Drop(c, 1).(marks := c.marks + [ts[0].start]), s', true)
      case None => CollectionOutcome(c, s, false)
  }
}
