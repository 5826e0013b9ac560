/**
 The events of the YAML parser are well nested: every collection is closed where it was opened, and
 every key of a mapping has a value. The stack of expectations that says so never underflows, for
 any sequence of tokens, and the parser always comes to an end.
 */
module YamlNesting {
  import opened Wrappers
  import opened YamlGrammar

  // ----- Well-nested event streams -----

  /** What a stream of events may go on with. */
  datatype Expect = XStart | XDocument | XContent | XDocumentEnd | XItem | XKey | XValue | XNothing

  /** The expectation once a node has begun. */
  function Advance(x: Expect): Option<Expect> {
    match x
    case XContent => Some(XDocumentEnd)
    case XItem => Some(XItem)
    case XKey => Some(XValue)
    case XValue => Some(XKey)
    case _ => None
  }

  function Top(xs: seq<Expect>): Expect
    requires xs != []
  {
    xs[|xs| - 1]
  }

  function Rest(xs: seq<Expect>): seq<Expect>
    requires xs != []
  {
    xs[..|xs| - 1]
  }

  /** The expectations after an event, or nothing if the event is not allowed. */
  function Accept(xs: seq<Expect>, e: Event): Option<seq<Expect>> {
    if xs == [] then None
    else
      match e
      case StreamStart(_) => if Top(xs) == XStart then Some(Rest(xs) + [XDocument]) else None
      case StreamEnd(_) => if Top(xs) == XDocument then Some(Rest(xs) + [XNothing]) else None
      case DocumentStart(_, _, _) => if Top(xs) == XDocument then Some(xs + [XContent]) else None
      case DocumentEnd(_, _) => if Top(xs) == XDocumentEnd then Some(Rest(xs)) else None
      case SequenceEnd(_) => if Top(xs) == XItem then Some(Rest(xs)) else None
      case MappingEnd(_) => if Top(xs) == XKey then Some(Rest(xs)) else None
      case _ =>
        match Advance(Top(xs))
        case None => None
        case Some(x) =>
          Some(Rest(xs) + [x] + if e.SequenceStart? then [XItem] else if e.MappingStart? then [XKey] else [])
  }

  // ----- What the parser's states expect -----

  /** A state that the parser returns to when a node inside a collection is complete. */
  predicate Inner(s: State) {
    s in {BlockSequenceEntry, IndentlessEntry, BlockMappingKey, BlockMappingValue, FlowSequenceEntry,
          PairValue, PairEnd, FlowMappingKey, FlowMappingValue, FlowMappingEmptyValue}
  }

  /** What a state expects next. */
  function Expecting(s: State): Expect {
    match s
    case DocumentEndState => XDocumentEnd
    case BlockMappingFirst => XKey
    case BlockMappingKey => XKey
    case FlowMappingFirst => XKey
    case FlowMappingKey => XKey
    case PairKey => XKey
    case PairEnd => XKey
    case BlockMappingValue => XValue
    case FlowMappingValue => XValue
    case FlowMappingEmptyValue => XValue
    case PairValue => XValue
    case _ => XItem
  }

  /** What was expected before the node after which the parser goes on in state `s`. */
  function ExpectedBefore(s: State): Expect {
    match Expecting(s)
    case XDocumentEnd => XContent
    case XKey => XValue
    case XValue => XKey
    case _ => XItem
  }

  /** A mapping of a single pair inside a flow sequence has no state of its own for the sequence. */
  function Outer(s: State): seq<Expect> {
    if s in {PairKey, PairValue, PairEnd} then [XItem] else []
  }

  function Frame(s: State): seq<Expect> {
    Outer(s) + [Expecting(s)]
  }

  function Before(s: State): seq<Expect> {
    Outer(s) + [ExpectedBefore(s)]
  }

  function Frames(states: seq<State>): (xs: seq<Expect>)
    ensures xs != []
  {
    if states == [] then [XDocument] else Frames(states[..|states| - 1]) + Frame(states[|states| - 1])
  }

  function MarkOf(s: State): nat {
    if s in {BlockSequenceEntry, BlockMappingKey, BlockMappingValue, FlowSequenceEntry, PairKey, PairValue, PairEnd,
             FlowMappingKey, FlowMappingValue, FlowMappingEmptyValue} then 1 else 0
  }

  function MarksOf(states: seq<State>): nat {
    if states == [] then 0 else MarksOf(states[..|states| - 1]) + MarkOf(states[|states| - 1])
  }

  /** How many events a state can produce without taking a token. */
  function WeightOf(s: State): nat {
    match s
    case ImplicitDocumentStart => 3
    case DocumentContent => 1
    case DocumentEndState => 1
    case BlockNode => 1
    case IndentlessEntry => 1
    case BlockMappingValue => 1
    case FlowMappingValue => 1
    case FlowMappingEmptyValue => 1
    case PairKey => 3
    case PairValue => 2
    case PairEnd => 1
    case _ => 0
  }

  function Weight(states: seq<State>): nat {
    if states == [] then 0 else Weight(states[..|states| - 1]) + WeightOf(states[|states| - 1])
  }

  ghost predicate StackOk(states: seq<State>) {
    states != [] && states[0] == DocumentEndState && forall i :: 1 <= i < |states| ==> Inner(states[i])
  }

  lemma Push(states: seq<State>, s: State)
    ensures Frames(states + [s]) == Frames(states) + Frame(s)
    ensures MarksOf(states + [s]) == MarksOf(states) + MarkOf(s)
    ensures Weight(states + [s]) == Weight(states) + WeightOf(s)
    ensures StackOk(states) && Inner(s) ==> StackOk(states + [s])
  {
    assert (states + [s])[..|states|] == states;
  }

  /** The token that opens the collection is still there. */
  predicate AtStart(s: State, ts: seq<Token>) {
    match s
    case BlockSequenceFirst => Is(ts, 0, TBlockSequenceStart)
    case BlockMappingFirst => Is(ts, 0, TBlockMappingStart)
    case FlowSequenceFirst => Is(ts, 0, TFlowSequenceStart)
    case FlowMappingFirst => Is(ts, 0, TFlowMappingStart)
    case _ => true
  }

  predicate Outside(s: State) {
    s in {StreamStartState, ImplicitDocumentStart, DocumentStartState, DocumentEndState, EndState}
  }

  predicate AtContent(s: State) {
    s == DocumentContent || s == BlockNode
  }

  /** Between two events. */
  ghost predicate Inv(c: Config) {
    if Outside(c.state) then c.states == [] && c.marks == []
    else if AtContent(c.state) then c.states == [DocumentEndState] && c.marks == []
    else StackOk(c.states) && |c.marks| == MarksOf(c.states) + MarkOf(c.state) && AtStart(c.state, c.tokens)
  }

  function Expected(c: Config): seq<Expect> {
    match c.state
    case StreamStartState => [XStart]
    case ImplicitDocumentStart => [XDocument]
    case DocumentStartState => [XDocument]
    case DocumentContent => [XDocument, XContent]
    case BlockNode => [XDocument, XContent]
    case EndState => [XNothing]
    case s => Frames(c.states) + Frame(s)
  }

  function Rank(c: Config): nat {
    Weight(c.states) + WeightOf(c.state)
  }

  /** A token was taken, or the rank went down. */
  ghost predicate Progress(c: Config, d: Config) {
    |d.tokens| < |c.tokens| || (|d.tokens| == |c.tokens| && Rank(d) < Rank(c))
  }

  /** One event that keeps the invariant and is allowed. */
  ghost predicate Good(xs: seq<Expect>, o: Outcome) {
    o.Emit? ==> Inv(o.next) && Accept(xs, o.event) == Some(Expected(o.next))
  }

  // ----- Nodes -----

  function Opened(e: Event): seq<Expect> {
    if e.SequenceStart? then [XItem] else if e.MappingStart? then [XKey] else []
  }

  lemma AcceptTop(xs: seq<Expect>, x: Expect, e: Event)
    requires (e.Leaf() || e.Opens()) && Advance(x).Some?
    ensures Accept(xs + [x], e) == Some(xs + [Advance(x).value] + Opened(e))
  {
    assert Rest(xs + [x]) == xs;
  }

  lemma AcceptNode(xs: seq<Expect>, s: State, e: Event)
    requires e.Leaf() || e.Opens()
    ensures Accept(xs + Before(s), e) == Some(xs + Frame(s) + Opened(e))
  {
    hide Accept, Expecting, ExpectedBefore, Outer;
    AdvanceBefore(s);
    AcceptTop(xs + Outer(s), ExpectedBefore(s), e);
    assert xs + Outer(s) + [ExpectedBefore(s)] == xs + Before(s);
    assert xs + Outer(s) + [Expecting(s)] == xs + Frame(s);
  }

  lemma AdvanceBefore(s: State)
    ensures Advance(ExpectedBefore(s)) == Some(Expecting(s))
  {
  }

  ghost predicate NodePost(c: Config, states: seq<State>, s: State, indentless: bool, o: Outcome) {
    o.Emit? ==>
      && o.next.marks == c.marks && |o.next.tokens| <= |c.tokens| && AtStart(o.next.state, o.next.tokens)
      && (o.event.Leaf() ==> o.next.state == s && o.next.states == states && |o.next.tokens| < |c.tokens|)
      && (!o.event.Leaf() ==>
            && o.event.Opens() && o.next.states == c.states && Frame(o.next.state) == Opened(o.event)
            && MarkOf(o.next.state) == 0
            && !Outside(o.next.state) && !AtContent(o.next.state)
            && WeightOf(o.next.state) <= if indentless then 1 else 0)
  }

  lemma ContentIs(c: Config, states: seq<State>, s: State, at: Mark, anchor: string, tag: string, block: bool,
                  indentless: bool)
    requires c.states == states + [s] && c.tokens != [] && (Inner(s) || s == DocumentEndState)
    ensures var o := ContentOutcome(c, at, anchor, tag, block, indentless);
            NodePost(c, states, s, indentless, o)
            || (o.Emit? && o.event.Scalar? && (anchor != "" || tag != "") && o.next == c.(state := s, states := states))
  {
    hide Frame, MarkOf, WeightOf, Outside, AtContent;
    assert c.states[..|states|] == states;
    FirstFrames();
  }

  lemma FirstFrames()
    ensures forall s :: s in {BlockSequenceFirst, FlowSequenceFirst, IndentlessEntry} ==> Frame(s) == [XItem]
    ensures forall s :: s in {BlockMappingFirst, FlowMappingFirst} ==> Frame(s) == [XKey]
    ensures forall s :: s in {BlockSequenceFirst, FlowSequenceFirst, BlockMappingFirst, FlowMappingFirst} ==>
              MarkOf(s) == WeightOf(s) == 0 && !Outside(s) && !AtContent(s)
    ensures MarkOf(IndentlessEntry) == 0 && WeightOf(IndentlessEntry) == 1
    ensures !Outside(IndentlessEntry) && !AtContent(IndentlessEntry)
  {
  }

  lemma PropertiesTake(ts: seq<Token>)
    ensures PropertiesOf(ts).count == 0 ==> PropertiesOf(ts).anchor == "" && PropertiesOf(ts).tag.None?
  {
  }

  lemma NodeIs(c: Config, states: seq<State>, s: State, block: bool, indentless: bool)
    requires c.states == states + [s] && (Inner(s) || s == DocumentEndState)
    ensures NodePost(c, states, s, indentless, NodeOutcome(c, block, indentless))
  {
    hide ContentOutcome, Frame, MarkOf, WeightOf, PropertiesOf;
    assert c.states[..|states|] == states;
    var p := PropertiesOf(c.tokens);
    PropertiesTake(c.tokens);
    var tag := ResolveTag(c.tags, p.tag);
    if !Is(c.tokens, 0, TAlias) && p.count < |c.tokens| && tag.Some? {
      ContentIs(Drop(c, p.count), states, s, c.tokens[0].start, p.anchor, tag.value, block, indentless);
    }
  }

  lemma StackOkBelow(states: seq<State>, s: State)
    requires StackOk(states + [s])
    ensures s == DocumentEndState ==> states == []
    ensures s != DocumentEndState ==> Inner(s) && StackOk(states)
  {
    var all := states + [s];
    assert all[|states|] == s;
    assert forall i :: 0 <= i < |states| ==> states[i] == all[i];
  }

  /** A node in front of which the stack has been pushed for what follows it. */
  lemma NodeIsGood(c: Config, states: seq<State>, s: State, block: bool, indentless: bool)
    requires c.states == states + [s] && StackOk(c.states) && |c.marks| == MarksOf(c.states)
    ensures Good(Frames(states) + Before(s), NodeOutcome(c, block, indentless))
  {
    hide NodeOutcome, Accept, Frames;
    Push(states, s);
    StackOkBelow(states, s);
    var o := NodeOutcome(c, block, indentless);
    NodeIs(c, states, s, block, indentless);
    if o.Emit? {
      AcceptNode(Frames(states), s, o.event);
      if o.event.Leaf() {
        assert Frames(states) + Frame(s) + [] == Frames(states) + Frame(s);
      }
    }
  }

  // ----- Collections -----

  /** A move fits a state: it leaves the expectations of the state as they have to be. */
  ghost predicate Fits(s: State, first: bool, ts: seq<Token>, m: Move) {
    match m
    case Bad => true
    case EmptyThen(skip, _, after) =>
      skip <= |ts| && Inner(after) && Before(after) == Frame(s) && MarkOf(after) == MarkOf(s)
          && (!first && skip == 0 ==> WeightOf(after) < WeightOf(s))
    case NodeThen(skip, after, _, indentless) =>
      && skip <= |ts| && Inner(after) && Before(after) == Frame(s) && MarkOf(after) == MarkOf(s)
      && (!first && skip == 0 ==> WeightOf(after) < WeightOf(s) && !indentless)
    case Close(skip, _) =>
      && skip <= |ts| && Frame(s) == [if InMapping(s) then XKey else XItem]
      && MarkOf(s) == (if s == IndentlessEntry then 0 else 1)
      && (skip == 0 ==> s == IndentlessEntry)
    case OpenPair(skip, _) => 0 < skip <= |ts| && s == FlowSequenceEntry
    case ClosePair(_) => s == PairEnd
  }

  lemma EntryFits(s: State, first: bool, ts: seq<Token>, i: nat, at: Mark, ends: set<TokenKind>, after: State,
                  block: bool, indentless: bool)
    requires i > 0 && Inner(after) && Before(after) == Frame(s) && MarkOf(after) == MarkOf(s)
    ensures Fits(s, first, ts, EntryMove(ts, i, at, ends, after, block, indentless))
  {
    hide Before, Frame, MarkOf, WeightOf, Inner;
  }

  lemma BlockFits(s: State, first: bool, ts: seq<Token>)
    requires s in {BlockSequenceEntry, IndentlessEntry, BlockMappingKey, BlockMappingValue}
    ensures Fits(s, first, ts, MoveOf(s, first, ts))
  {
    hide EntryMove;
    if ts != [] {
      var e := ts[0].end;
      match s
      case BlockSequenceEntry =>
        EntryFits(s, first, ts, 1, e, {TBlockEntry, TBlockEnd}, BlockSequenceEntry, true, false);
      case IndentlessEntry =>
        EntryFits(s, first, ts, 1, e, {TBlockEntry, TKey, TValue, TBlockEnd}, IndentlessEntry, true, false);
      case BlockMappingKey => EntryFits(s, first, ts, 1, e, {TKey, TValue, TBlockEnd}, BlockMappingValue, true, true);
      case BlockMappingValue => EntryFits(s, first, ts, 1, e, {TKey, TValue, TBlockEnd}, BlockMappingKey, true, true);
    }
  }

  lemma FlowSequenceFits(s: State, first: bool, ts: seq<Token>)
    requires s in {FlowSequenceEntry, PairKey, PairValue, PairEnd}
    ensures Fits(s, first, ts, MoveOf(s, first, ts))
  {
    hide EntryMove;
    if ts != [] && s == PairValue {
      EntryFits(s, first, ts, 1, ts[0].start, {TFlowEntry, TFlowSequenceEnd}, PairEnd, false, false);
    }
  }

  lemma FlowMappingFits(s: State, first: bool, ts: seq<Token>)
    requires s in {FlowMappingKey, FlowMappingValue, FlowMappingEmptyValue}
    ensures Fits(s, first, ts, MoveOf(s, first, ts))
  {
    hide EntryMove;
    if ts != [] {
      match s
      case FlowMappingKey =>
        var k := if first then 1 else 2;
        EntryFits(s, first, ts, k, if k < |ts| then ts[k].start else 0, {TValue, TFlowEntry, TFlowMappingEnd},
                  FlowMappingValue, false, false);
      case FlowMappingValue =>
        EntryFits(s, first, ts, 1, if 1 < |ts| then ts[1].start else 0, {TFlowEntry, TFlowMappingEnd}, FlowMappingKey,
                  false, false);
      case _ =>
    }
  }

  lemma MoveFits(s: State, first: bool, ts: seq<Token>)
    requires Inner(s) || s == PairKey
    ensures Fits(s, first, ts, MoveOf(s, first, ts))
  {
    if s in {BlockSequenceEntry, IndentlessEntry, BlockMappingKey, BlockMappingValue} {
      BlockFits(s, first, ts);
    } else if s in {FlowSequenceEntry, PairKey, PairValue, PairEnd} {
      FlowSequenceFits(s, first, ts);
    } else {
      FlowMappingFits(s, first, ts);
    }
  }

  /** The node that follows an indicator. */
  lemma NodeAfterIsGood(c: Config, s: State, skip: nat, after: State, block: bool, indentless: bool)
    requires StackOk(c.states) && |c.marks| == MarksOf(c.states) + MarkOf(s)
    requires skip <= |c.tokens| && Inner(after) && Before(after) == Frame(s) && MarkOf(after) == MarkOf(s)
    ensures Good(Frames(c.states) + Frame(s),
                 NodeOutcome(Drop(c, skip).(states := c.states + [after]), block, indentless))
  {
    hide NodeOutcome, Good, Frames, Frame, Before;
    Push(c.states, after);
    NodeIsGood(Drop(c, skip).(states := c.states + [after]), c.states, after, block, indentless);
  }

  /** Going on inside a collection. */
  lemma InsideIsGood(xs: seq<Expect>, e: Event, d: Config)
    requires (Inner(d.state) || d.state == PairKey) && StackOk(d.states)
             && |d.marks| == MarksOf(d.states) + MarkOf(d.state)
    requires Accept(xs, e) == Some(Frames(d.states) + Frame(d.state))
    ensures Good(xs, Emit(e, d))
  {
    hide Frames, MarksOf, MarkOf, Frame, Accept, StackOk;
  }

  lemma AcceptEnd(xs: seq<Expect>, s: State, at: Mark)
    requires Frame(s) == [if InMapping(s) then XKey else XItem]
    ensures Accept(xs + Frame(s), if InMapping(s) then MappingEnd(at) else SequenceEnd(at)) == Some(xs)
  {
    assert Rest(xs + Frame(s)) == xs;
  }

  lemma CloseIsGood(c: Config, s: State, skip: nat, at: Mark)
    requires StackOk(c.states) && |c.marks| == MarksOf(c.states) + MarkOf(s) && skip <= |c.tokens|
    requires Frame(s) == [if InMapping(s) then XKey else XItem]
    ensures var e := if InMapping(s) then MappingEnd(at) else SequenceEnd(at);
            Good(Frames(c.states) + Frame(s), Emit(e, Pop(Drop(c, skip)).(marks := c.marks[..|c.marks| - MarkOf(s)])))
  {
    hide Frames, Frame, Accept, InMapping, Good, MarksOf, StackOk;
    StackNotEmpty(c.states);
    var n := |c.states| - 1;
    var below, top := c.states[..n], c.states[n];
    assert c.states == below + [top];
    Push(below, top);
    StackOkBelow(below, top);
    AcceptEnd(Frames(c.states), s, at);
    var e := if InMapping(s) then MappingEnd(at) else SequenceEnd(at);
    var d := Pop(Drop(c, skip)).(marks := c.marks[..|c.marks| - MarkOf(s)]);
    assert d.state == top && d.states == below;
    if top != DocumentEndState {
      InsideIsGood(Frames(c.states) + Frame(s), e, d);
    } else {
      NoMarks();
      DocumentEndIsGood(Frames(c.states) + Frame(s), e, d);
    }
  }

  lemma NoMarks()
    ensures MarksOf([]) == 0
  {
  }

  lemma DocumentEndIsGood(xs: seq<Expect>, e: Event, d: Config)
    requires d.state == DocumentEndState && d.states == [] && d.marks == []
    requires Accept(xs, e) == Some(Frames([]) + Frame(DocumentEndState))
    ensures Good(xs, Emit(e, d))
  {
    hide Accept;
  }

  lemma EmptyIsGood(c: Config, s: State, skip: nat, at: Mark, after: State)
    requires StackOk(c.states) && |c.marks| == MarksOf(c.states) + MarkOf(s)
    requires skip <= |c.tokens| && Inner(after) && Before(after) == Frame(s) && MarkOf(after) == MarkOf(s)
    ensures Good(Frames(c.states) + Frame(s), Emit(EmptyScalar(at), Drop(c, skip).(state := after)))
  {
    hide Frames, Frame, Before, Accept, MarksOf, MarkOf, StackOk;
    AcceptNode(Frames(c.states), after, EmptyScalar(at));
    assert Frames(c.states) + Frame(after) + [] == Frames(c.states) + Frame(after);
    InsideIsGood(Frames(c.states) + Frame(s), EmptyScalar(at), Drop(c, skip).(state := after));
  }

  lemma OpenPairIsGood(c: Config, skip: nat, at: Mark)
    requires StackOk(c.states) && |c.marks| == MarksOf(c.states) + 1 && skip <= |c.tokens|
    ensures Good(Frames(c.states) + Frame(FlowSequenceEntry),
                 Emit(MappingStart(at, "", "", true, true), Drop(c, skip).(state := PairKey)))
  {
    hide Frames, MarksOf, StackOk, Good, Accept;
    var xs := Frames(c.states);
    AcceptTop(xs, XItem, MappingStart(at, "", "", true, true));
    assert xs + Frame(FlowSequenceEntry) == xs + [XItem];
    assert xs + [XItem] + [XKey] == xs + Frame(PairKey);
    InsideIsGood(xs + Frame(FlowSequenceEntry), MappingStart(at, "", "", true, true), Drop(c, skip).(state := PairKey));
  }

  lemma ClosePairIsGood(c: Config, at: Mark)
    requires StackOk(c.states) && |c.marks| == MarksOf(c.states) + 1
    ensures Good(Frames(c.states) + Frame(PairEnd), Emit(MappingEnd(at), c.(state := FlowSequenceEntry)))
  {
    hide Frames, MarksOf, StackOk, Good;
    var xs := Frames(c.states);
    assert Rest(xs + Frame(PairEnd)) == xs + Frame(FlowSequenceEntry);
    assert Top(xs + Frame(PairEnd)) == XKey;
    InsideIsGood(xs + Frame(PairEnd), MappingEnd(at), c.(state := FlowSequenceEntry));
  }

  lemma CollectionIsGood(c: Config, s: State, first: bool)
    requires Inner(s) || s == PairKey
    requires StackOk(c.states) && |c.marks| == MarksOf(c.states) + MarkOf(s)
    ensures Good(Frames(c.states) + Frame(s), CollectionOutcome(c, s, first))
  {
    hide MoveOf, NodeOutcome, Frames, MarksOf, StackOk, Good, Frame, Before;
    MoveFits(s, first, c.tokens);
    match MoveOf(s, first, c.tokens)
    case Bad => FailIsGood(Frames(c.states) + Frame(s));
    case EmptyThen(skip, at, after) => EmptyIsGood(c, s, skip, at, after);
    case NodeThen(skip, after, block, indentless) => NodeAfterIsGood(c, s, skip, after, block, indentless);
    case Close(skip, at) =>
      assert c.states != [] by {
        StackNotEmpty(c.states);
      }
      CloseIsGood(c, s, skip, at);
    case OpenPair(skip, at) => OpenPairIsGood(c, skip, at);
    case ClosePair(at) => ClosePairIsGood(c, at);
  }

  lemma FailIsGood(xs: seq<Expect>)
    ensures Good(xs, Fail)
  {
  }

  lemma StackNotEmpty(states: seq<State>)
    requires StackOk(states)
    ensures states != []
  {
  }

  // ----- Every step -----

  lemma {:induction false} SkippedEnds(ts: seq<Token>)
    ensures |SkipDocumentEnds(ts)| <= |ts|
  {
    if ts != [] && ts[0].kind == TDocumentEnd {
      SkippedEnds(ts[1..]);
    }
  }

  /** Every event is allowed, and it leads to a configuration in which the parser can go on. */
  lemma StepIsGood(c: Config)
    requires Inv(c)
    ensures Good(Expected(c), Step(c))
  {
    var s := c.state;
    if AtContent(s) {
      ContentIsGood(c);
    } else if Outside(s) {
      OutsideIsGood(c);
    } else {
      hide CollectionOutcome, Good, Frames, MarksOf, StackOk;
      if AfterFirst(s).Some? {
        FirstIs(s);
        CollectionIsGood(Drop(c, 1).(marks := c.marks + [c.tokens[0].start]), AfterFirst(s).value, true);
      } else {
        CollectionIsGood(c, s, false);
      }
    }
  }

  lemma FirstIs(s: State)
    requires AfterFirst(s).Some?
    ensures var t := AfterFirst(s).value;
            Frame(t) == Frame(s) && MarkOf(s) == 0 && MarkOf(t) == 1
                && t in {BlockSequenceEntry, BlockMappingKey, FlowSequenceEntry, FlowMappingKey}
  {
  }

  lemma DocumentFrames()
    ensures Frames([]) == [XDocument]
    ensures Frames([]) + Before(DocumentEndState) == [XDocument, XContent]
    ensures Frames([]) + Frame(DocumentEndState) == [XDocument, XDocumentEnd]
    ensures StackOk([DocumentEndState]) && MarksOf([DocumentEndState]) == 0
  {
  }

  lemma ContentIsGood(c: Config)
    requires Inv(c) && AtContent(c.state)
    ensures Good(Expected(c), Step(c))
  {
    hide NodeOutcome, Accept, Frames, StackOk, MarksOf, Good, Frame, Before;
    assert [DocumentEndState] == [] + [DocumentEndState];
    DocumentFrames();
    NodeIsGood(c, [], DocumentEndState, true, false);
    FailIsGood([XDocument, XContent]);
    if c.tokens != [] {
      var e := EmptyScalar(c.tokens[0].start);
      AcceptNode(Frames([]), DocumentEndState, e);
      assert [XDocument, XDocumentEnd] + [] == [XDocument, XDocumentEnd];
      assert c.states[..0] == [];
      DocumentEndIsGood([XDocument, XContent], e, Pop(c));
    }
  }

  lemma DocumentStartIsGood(c: Config, implicit: bool)
    requires c.states == [] && c.marks == []
    ensures Good([XDocument], DocumentStartOutcome(c, implicit))
  {
    hide ReadDirectives, SkipDocumentEnds;
    assert [] + [DocumentEndState] == [DocumentEndState];
    assert [XDocument] + [XContent] == [XDocument, XContent];
    assert Rest([XDocument]) + [XNothing] == [XNothing];
  }

  lemma OutsideIsGood(c: Config)
    requires Inv(c) && Outside(c.state)
    ensures Good(Expected(c), Step(c))
  {
    hide DocumentStartOutcome, Frames;
    DocumentStartIsGood(c, true);
    DocumentStartIsGood(c, false);
    DocumentFrames();
    assert Rest([XDocument, XDocumentEnd]) == [XDocument];
    assert Rest([XStart]) + [XDocument] == [XDocument];
  }

  // ----- Every step makes progress -----

  lemma NodeProgress(c: Config, states: seq<State>, s: State, block: bool, indentless: bool, limit: nat)
    requires c.states == states + [s] && (Inner(s) || s == DocumentEndState)
    requires Weight(c.states) + (if indentless then 1 else 0) < limit
    ensures var o := NodeOutcome(c, block, indentless);
            o.Emit? ==> |o.next.tokens| < |c.tokens| || (|o.next.tokens| == |c.tokens| && Rank(o.next) < limit)
  {
    NodeIs(c, states, s, block, indentless);
    hide NodeOutcome;
  }

  lemma NodeAfterProgress(c: Config, s: State, first: bool, skip: nat, after: State, block: bool, indentless: bool)
    requires skip <= |c.tokens| && Inner(after)
             && (!first && skip == 0 ==> WeightOf(after) < WeightOf(s) && !indentless)
    ensures var o := NodeOutcome(Drop(c, skip).(states := c.states + [after]), block, indentless);
            o.Emit? ==> |o.next.tokens| < |c.tokens|
                        || (|o.next.tokens| == |c.tokens| && (first || Rank(o.next) < Weight(c.states) + WeightOf(s)))
  {
    hide NodeOutcome, Weight, Rank;
    Push(c.states, after);
    var d := Drop(c, skip).(states := c.states + [after]);
    if !first && skip == 0 {
      NodeProgress(d, c.states, after, block, indentless, Weight(c.states) + WeightOf(s));
    } else {
      NodeProgress(d, c.states, after, block, indentless, Weight(d.states) + 2);
    }
  }

  lemma PopWeight(c: Config)
    requires c.states != []
    ensures Rank(Pop(c)) == Weight(c.states)
  {
  }

  lemma CollectionProgress(c: Config, s: State, first: bool)
    requires Inner(s) || s == PairKey
    ensures var o := CollectionOutcome(c, s, first);
            o.Emit? ==> |o.next.tokens| < |c.tokens|
                        || (|o.next.tokens| == |c.tokens| && (first || Rank(o.next) < Weight(c.states) + WeightOf(s)))
  {
    hide MoveOf, NodeOutcome, Weight, Frame, Before, MarkOf;
    MoveFits(s, first, c.tokens);
    match MoveOf(s, first, c.tokens)
    case NodeThen(skip, after, block, indentless) => NodeAfterProgress(c, s, first, skip, after, block, indentless);
    case Close(skip, at) =>
      if c.states != [] {
        PopWeight(c);
      }
    case _ =>
  }

  lemma DocumentStartProgress(c: Config, implicit: bool)
    requires c.states == []
    ensures var o := DocumentStartOutcome(c, implicit);
            o.Emit? ==> |o.next.tokens| < |c.tokens| || (|o.next.tokens| == |c.tokens| && implicit && Rank(o.next) == 2)
  {
    hide ReadDirectives, SkipDocumentEnds;
    SkippedEnds(c.tokens);
    assert [] + [DocumentEndState] == [DocumentEndState];
    Push([], DocumentEndState);
  }

  lemma ContentProgress(c: Config)
    requires Inv(c) && AtContent(c.state) && Step(c).Emit?
    ensures Progress(c, Step(c).next)
  {
    hide NodeOutcome;
    assert [DocumentEndState] == [] + [DocumentEndState];
    Push([], DocumentEndState);
    NodeProgress(c, [], DocumentEndState, true, false, 2);
    assert c.states[..0] == [];
  }

  /** Each event takes a token, or lowers the number of events that can come without one. */
  lemma StepProgresses(c: Config)
    requires Inv(c) && Step(c).Emit?
    ensures Progress(c, Step(c).next)
  {
    hide CollectionOutcome, DocumentStartOutcome, NodeOutcome;
    var s := c.state;
    if AtContent(s) {
      ContentProgress(c);
    } else if Outside(s) {
      DocumentStartProgress(c, true);
      DocumentStartProgress(c, false);
    } else if AfterFirst(s).Some? {
      FirstIs(s);
      CollectionProgress(Drop(c, 1).(marks := c.marks + [c.tokens[0].start]), AfterFirst(s).value, true);
    } else {
      CollectionProgress(c, s, false);
    }
  }

  // ----- Runs -----

  function AcceptAll(xs: seq<Expect>, es: seq<Event>): Option<seq<Expect>> {
    if es == [] then Some(xs)
    else
      match AcceptAll(xs, es[..|es| - 1])
      case None => None
      case Some(ys) => Accept(ys, es[|es| - 1])
  }

  /** A run of the parser over a sequence of tokens, up to some event. */
  ghost predicate IsRun(tokens: seq<Token>, cs: seq<Config>, es: seq<Event>) {
    && |cs| == |es| + 1 && cs[0] == Config(tokens, StreamStartState, [], [], [])
    && forall i :: 0 <= i < |es| ==> Step(cs[i]) == Emit(es[i], cs[i + 1])
  }

  /** Whatever the tokens are, the stacks of the parser stay sound and its events are well nested. */
  lemma {:induction false} RunIsNested(tokens: seq<Token>, cs: seq<Config>, es: seq<Event>, i: nat)
    requires IsRun(tokens, cs, es) && i < |cs|
    ensures Inv(cs[i]) && AcceptAll([XStart], es[..i]) == Some(Expected(cs[i]))
  {
    if i > 0 {
      RunIsNested(tokens, cs, es, i - 1);
      assert Step(cs[i - 1]) == Emit(es[i - 1], cs[i]);
      StepIsGood(cs[i - 1]);
      assert es[..i][..i - 1] == es[..i - 1];
      hide Step, Inv, Expected, Accept;
    }
  }
}
