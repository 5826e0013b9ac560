/**
 What the scanner does with the characters of a stream, as functions on values: fetching one token, fetching
 until a token can be handed out, and the tokens that a whole stream gives.
 */
module YamlFetch {
  import opened Wrappers
  import opened YamlGrammar
  import opened YamlQueue

  /** What the characters at the next token are. */
  datatype What =
    | EndOfStream
    | Directive(version: bool)
    | DocumentIndicator(start: bool)
    | FlowStart(sequence: bool)
    | FlowEnd(sequence: bool)
    | FlowEntryMark
    | BlockEntryMark
    | KeyMark
    | ValueMark
    | AnchorMark(alias: bool)
    | TagMark
    | BlockScalarMark
    | ScalarMark
    | BadCharacter

  /**
   One token's worth of characters: where it starts, whether a line has ended in front of it, what it
   is, whether its text is well formed, where it ends, and what it says.
   */
  datatype Input = Input(mark: Position, newLine: bool, what: What, wellFormed: bool, end: Position, text: Text)

  /** The tokens and what the scanner knows about them, whether a key may come next, and the position. */
  datatype Scan = Scan(core: Core, allowed: bool, mark: Position)

  datatype Fetch = Fetched(state: Scan) | Failure | Panic

  const ORIGIN := Position(0, 0, 0)

  /** The scanner with the first token in its queue. */
  const START := Scan(Core([], [Scanned(TStreamStart, ORIGIN, ORIGIN)], [NO_KEY], 0, -1, []), true, ORIGIN)

  // ----- Fetching one token -----

  /** The token that is about to be scanned may be a key. */
  function SaveKey(s: Scan): Fetch {
    if s.core.flow == 0 && s.core.indent == s.mark.column && !s.allowed then Panic
    else if s.allowed && NeedsValue(s.core) then Failure
    else Fetched(s.(core := Saved(s.core, s.allowed, s.mark)))
  }

  /** The end of the stream, a directive, or the start or the end of a document: everything is closed. */
  function Boundary(s: Scan, token: Scanned): Fetch {
    var c := CloseBlocks(s.core, -1, s.mark);
    if NeedsValue(c) then Failure else Fetched(Scan(Add(Forget(c), token), false, token.end))
  }

  /** A token that may be a key; `level` is what it does to the flow level. */
  function KeyToken(s: Scan, token: Scanned, wellFormed: bool, opens: bool): Fetch {
    match SaveKey(s)
    case Fetched(t) =>
      if !wellFormed then Failure
      else Fetched(Scan(Add(if opens then Deeper(t.core) else t.core, token), opens, token.end))
    case f => f
  }

  /** The key of the current level is given up, and a token follows. */
  function PlainToken(s: Scan, token: Scanned, allowed: bool): Fetch {
    if NeedsValue(s.core) then Failure else Fetched(Scan(Add(Forget(s.core), token), allowed, token.end))
  }

  function FlowEndToken(s: Scan, token: Scanned): Fetch {
    if NeedsValue(s.core) then Failure else Fetched(Scan(Add(Shallower(Forget(s.core)), token), false, token.end))
  }

  /** `-` or `?`: a block collection may open in front of it. */
  function Indicator(s: Scan, token: Scanned, entry: bool): Fetch {
    if s.core.flow == 0 && !s.allowed then Failure
    else
      PlainToken(s.(core := OpenBlock(s.core, if entry then TBlockSequenceStart else TBlockMappingStart, s.mark)),
                 token,
                 entry || s.core.flow == 0)
  }

  predicate HasKey(c: Core) {
    c.flow < |c.keys| && c.keys[c.flow].possible
  }

  /** `:`, behind a key that has been remembered or behind nothing. */
  function ValueToken(s: Scan, token: Scanned): Fetch {
    if HasKey(s.core) then
      if KeyInQueue(s.core) then Fetched(Scan(Add(WithKey(s.core), token), false, token.end)) else Failure
    else if s.core.flow == 0 && !s.allowed then Failure
    else Fetched(Scan(Add(OpenBlock(s.core, TBlockMappingStart, s.mark), token), s.core.flow == 0, token.end))
  }

  function LineEnd(p: Position): Position {
    if p.column == 0 then p else Position(p.index, p.line + 1, 0)
  }

  function Dispatch(s: Scan, input: Input): Fetch {
    var token := (kind: TokenKind) => Scanned(kind, s.mark, input.end, input.text);
    match input.what
    case EndOfStream => Boundary(s.(mark := LineEnd(s.mark)), Scanned(TStreamEnd, LineEnd(s.mark), LineEnd(s.mark)))
    case Directive(version) =>
      if input.wellFormed then Boundary(s, token(if version then TVersionDirective else TTagDirective)) else Failure
    case DocumentIndicator(start) => Boundary(s, token(if start then TDocumentStart else TDocumentEnd))
    case FlowStart(sequence) =>
      KeyToken(s, token(if sequence then TFlowSequenceStart else TFlowMappingStart), true, true)
    case FlowEnd(sequence) => FlowEndToken(s, token(if sequence then TFlowSequenceEnd else TFlowMappingEnd))
    case FlowEntryMark => PlainToken(s, token(TFlowEntry), true)
    case BlockEntryMark => Indicator(s, token(TBlockEntry), true)
    case KeyMark => Indicator(s, token(TKey), false)
    case ValueMark => ValueToken(s, token(TValue))
    case AnchorMark(alias) => KeyToken(s, token(if alias then TAlias else TAnchor), input.wellFormed, false)
    case TagMark => KeyToken(s, token(TTag), input.wellFormed, false)
    case ScalarMark => KeyToken(s, token(TScalar), input.wellFormed, false)
    case BlockScalarMark => if input.wellFormed then PlainToken(s, token(TScalar), true) else Failure
    case BadCharacter => Failure
  }

  /** A key that has become too old must not be given up. */
  ghost predicate KeyLost(keys: seq<SimpleKey>, at: Position) {
    exists i :: 0 <= i < |keys| && Stale(keys[i], at) && keys[i].required
  }

  /**
   White space up to the next token; keys that are too old and blocks that the token is not part of come to their end.
   */
  ghost function Approach(s: Scan, input: Input): Fetch {
    if KeyLost(s.core.keys, input.mark) then Failure
    else
      Fetched(Scan(CloseBlocks(s.core.(keys := WithoutStale(s.core.keys, input.mark)), input.mark.column, input.mark),
                   s.allowed || (input.newLine && s.core.flow == 0), input.mark))
  }

  ghost function FetchNext(s: Scan, input: Input): Fetch {
    match Approach(s, input)
    case Fetched(t) => Dispatch(t, input)
    case f => f
  }

  predicate StartsKeyMark(what: What) {
    what.FlowStart? || what.AnchorMark? || what.TagMark? || what.ScalarMark?
  }

  /**
   The panic happens exactly for a token that starts at the current indentation without being the first of its line.
   */
  lemma PanicsIff(s: Scan, input: Input)
    ensures FetchNext(s, input).Panic? <==>
              var t := Approach(s, input);
              && t.Fetched? && StartsKeyMark(input.what)
              && s.core.flow == 0 && t.state.core.indent == input.mark.column && !s.allowed && !input.newLine
  {
    if Approach(s, input).Fetched? {
      CloseKeepsFlow(s.core.(keys := WithoutStale(s.core.keys, input.mark)), input.mark.column, input.mark);
    }
  }

  lemma {:induction false} CloseKeepsFlow(c: Core, column: int, at: Position)
    ensures var d := CloseBlocks(c, column, at); d.flow == c.flow && d.keys == c.keys && d.taken == c.taken
    decreases |c.indents|
  {
    if !(c.flow > 0 || c.indent <= column || c.indents == []) {
      var n := |c.indents| - 1;
      CloseKeepsFlow(c.(queue := c.queue + [Scanned(TBlockEnd, at, at)], indents := c.indents[..n],
                        indent := c.indents[n]), column, at);
    }
  }

  // ----- Handing out tokens -----

  datatype Status = Done | Starved | Failed | Panicked

  /** A key names the first token of the queue, which therefore has to wait, or there is no token. */
  ghost predicate NeedsMore(c: Core) {
    c.queue == [] || exists i :: 0 <= i < |c.keys| && c.keys[i].possible && c.keys[i].tokenNumber == |c.taken|
  }

  ghost function Prepared(s: Scan): Fetch {
    if s.core.queue == [] then Fetched(s)
    else if KeyLost(s.core.keys, s.mark) then Failure
    else Fetched(s.(core := s.core.(keys := WithoutStale(s.core.keys, s.mark))))
  }

  /** The state when a token can be handed out, or nothing if that does not happen, and how many inputs that takes. */
  datatype More = More(status: Status, state: Scan, used: nat)

  ghost function FetchMore(s: Scan, inputs: seq<Input>): (m: More)
    ensures m.used <= |inputs|
    ensures m.status.Done? ==> m.state.core.queue != [] && (m.used == 0 ==> m.state.core.queue == s.core.queue)
    decreases |inputs|
  {
    match Prepared(s)
    case Failure => More(Failed, s, 0)
    case Panic => More(Panicked, s, 0)
    case Fetched(t) =>
      if !NeedsMore(t.core) then More(Done, t, 0)
      else if inputs == [] then More(Starved, t, 0)
      else
        match FetchNext(t, inputs[0])
        case Failure => More(Failed, t, 1)
        case Panic => More(Panicked, t, 1)
        case Fetched(u) => var m := FetchMore(u, inputs[1..]); m.(used := m.used + 1)
  }

  function Take(s: Scan): Scan
    requires s.core.queue != []
  {
    s.(core := s.core.(taken := s.core.taken + [s.core.queue[0]], queue := s.core.queue[1..]))
  }

  /** The tokens that are handed out, and how it ends. */
  datatype Run = Run(out: seq<Scanned>, status: Status)

  ghost function ScanRun(s: Scan, inputs: seq<Input>): Run
    decreases |inputs|, |s.core.queue|
  {
    var m := FetchMore(s, inputs);
    if !m.status.Done? then Run([], m.status)
    else
      var t := m.state.core.queue[0];
      if t.kind == TStreamEnd then Run([t], Done)
      else var r := ScanRun(Take(m.state), inputs[m.used..]); Run([t] + r.out, r.status)
  }
}
