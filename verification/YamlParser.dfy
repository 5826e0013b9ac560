/** The YAML parser: an object that takes tokens from a queue and yields one event at a time. */
module YamlParser {
  import opened Wrappers
  import opened YamlGrammar
  import opened YamlNesting

  /** The event and the new configuration are the ones of `o`, or both sides fail. */
  ghost predicate Matches(o: Outcome, r: Option<Event>, c: Config) {
    if r.Some? then o == Emit(r.value, c) else o.Fail?
  }

  /** The configuration after the start token of a collection, if it is still there. */
  ghost function Entered(c: Config, first: bool): Config
    requires first ==> c.tokens != []
  {
    if first then Drop(c, 1).(marks := c.marks + [c.tokens[0].start]) else c
  }

  /** Behind an indicator that has been taken. */
  ghost function EntryOutcome(c: Config, at: Mark, ends: set<TokenKind>, after: State, block: bool,
                              indentless: bool): Outcome {
    if c.tokens == [] then Fail
    else if c.tokens[0].kind in ends then Emit(EmptyScalar(at), c.(state := after))
    else NodeOutcome(c.(states := c.states + [after]), block, indentless)
  }

  lemma EntryIs(c: Config, s: State, first: bool, at: Mark, ends: set<TokenKind>, after: State, block: bool,
                indentless: bool)
    requires c.tokens != [] && MoveOf(s, first, c.tokens) == EntryMove(c.tokens, 1, at, ends, after, block, indentless)
    ensures CollectionOutcome(c, s, first) == EntryOutcome(Drop(c, 1), at, ends, after, block, indentless)
  {
    hide NodeOutcome, MoveOf;
  }

  /** Behind a comma a flow collection goes on as it does behind its start token. */
  lemma AfterCommaInSequence(c: Config)
    ensures Is(c.tokens, 0, TFlowEntry) ==> CollectionOutcome(c, FlowSequenceEntry, false)
                                            == CollectionOutcome(Drop(c, 1), FlowSequenceEntry, true)
    ensures Is(c.tokens, 0, TFlowSequenceEnd) ==> CollectionOutcome(c, FlowSequenceEntry, false)
                                                  == CollectionOutcome(c, FlowSequenceEntry, true)
  {
    hide NodeOutcome;
    var ts := c.tokens;
    assert |ts| > 1 ==> ts[1..][1..] == ts[2..];
  }

  lemma AfterCommaInMapping(c: Config)
    ensures Is(c.tokens, 0, TFlowEntry) ==> CollectionOutcome(c, FlowMappingKey, false)
                                            == CollectionOutcome(Drop(c, 1), FlowMappingKey, true)
    ensures Is(c.tokens, 0, TFlowMappingEnd) ==> CollectionOutcome(c, FlowMappingKey, false)
                                                 == CollectionOutcome(c, FlowMappingKey, true)
  {
    hide NodeOutcome;
    var ts := c.tokens;
    assert |ts| > 1 ==> ts[1..][1..] == ts[2..];
  }

  class Parser {
    var tokens: seq<Token>
    var state: State
    var states: seq<State>
    var marks: seq<Mark>
    var tagDirectives: seq<TagDirective>
    /** The last token that was taken is the end of the stream. */
    var streamEndProduced: bool
    var failed: bool

    constructor (tokens: seq<Token>)
      ensures Cfg() == Config(tokens, StreamStartState, [], [], []) && !streamEndProduced && !failed
    {
      this.tokens, state, states, marks, tagDirectives := tokens, StreamStartState, [], [], [];
      streamEndProduced, failed := false, false;
    }

    ghost function Cfg(): Config
      reads this
    {
      Config(tokens, state, states, marks, tagDirectives)
    }

    /** The next token; nothing when the scanner has failed. */
    method PeekToken() returns (t: Option<Token>)
      ensures t == if tokens == [] then None else Some(tokens[0])
    {
      t := if |tokens| == 0 then None else Some(tokens[0]);
    }

    method SkipToken()
      requires tokens != []
      modifies this`tokens, this`streamEndProduced
      ensures tokens == old(tokens[1..]) && streamEndProduced == (old(tokens[0].kind) == TStreamEnd)
    {
      streamEndProduced := tokens[0].kind == TStreamEnd;
      tokens := tokens[1..];
    }

    method PopState()
      requires states != []
      modifies this`state, this`states
      ensures state == old(states[|states| - 1]) && states == old(states[..|states| - 1])
    {
      state := states[|states| - 1];
      states := states[..|states| - 1];
    }

    /** Take an anchor and a tag, in either order. */
    method ParseProperties() returns (anchor: string, tag: Option<Token>)
      modifies this`tokens, this`streamEndProduced
      ensures var p := PropertiesOf(old(tokens)); anchor == p.anchor && tag == p.tag && tokens == old(tokens)[p.count..]
      ensures streamEndProduced ==> old(streamEndProduced)
    {
      anchor, tag := "", None;
      var token := PeekToken();
      if token.None? {
        return;
      }
      if token.value.kind == TAnchor {
        anchor := token.value.value;
        SkipToken();
        token := PeekToken();
        if token.Some? && token.value.kind == TTag {
          tag := token;
          SkipToken();
        }
      } else if token.value.kind == TTag {
        tag := token;
        SkipToken();
        token := PeekToken();
        if token.Some? && token.value.kind == TAnchor {
          anchor := token.value.value;
          SkipToken();
        }
      }
    }

    /** The full tag for a tag token. */
    method FindTag(token: Option<Token>) returns (tag: Option<string>)
      ensures tag == ResolveTag(tagDirectives, token)
    {
      if token.None? {
        return Some("");
      }
      if |token.value.value| == 0 {
        return Some(token.value.suffix);
      }
      var full := "";
      var i := 0;
      while i < |tagDirectives|
        invariant 0 <= i <= |tagDirectives| && full == ""
        invariant PrefixOf(tagDirectives, token.value.value) == PrefixOf(tagDirectives[i..], token.value.value)
      {
        if tagDirectives[i].handle == token.value.value {
          full := tagDirectives[i].prefix + token.value.suffix;
          break;
        }
        i := i + 1;
      }
      tag := if |full| == 0 then None else Some(full);
    }

    method ParseNode(block: bool, indentless: bool) returns (r: Option<Event>)
      requires states != []
      modifies this`tokens, this`state, this`states, this`streamEndProduced
      ensures Matches(NodeOutcome(old(Cfg()), block, indentless), r, Cfg())
      ensures streamEndProduced ==> old(streamEndProduced)
    {
      var token := PeekToken();
      if token.None? {
        return None;
      }
      var at := token.value.start;
      if token.value.kind == TAlias {
        PopState();
        SkipToken();
        return Some(Alias(at, token.value.value));
      }
      var anchor, tagToken := ParseProperties();
      var tag := FindTag(tagToken);
      if tag.None? {
        return None;
      }
      token := PeekToken();
      if token.None? {
        return None;
      }
      r := ParseContent(token.value, at, anchor, tag.value, block, indentless);
    }

    method ParseContent(token: Token, at: Mark, anchor: string, tag: string, block: bool, indentless: bool)
        returns (r: Option<Event>)
      requires states != [] && tokens != [] && token == tokens[0]
      modifies this`tokens, this`state, this`states, this`streamEndProduced
      ensures Matches(ContentOutcome(old(Cfg()), at, anchor, tag, block, indentless), r, Cfg())
      ensures streamEndProduced ==> old(streamEndProduced)
    {
      var implicit := |tag| == 0;
      if indentless && token.kind == TBlockEntry {
        state := IndentlessEntry;
        return Some(SequenceStart(at, anchor, tag, implicit, false));
      }
      if token.kind == TScalar {
        var plainImplicit, quotedImplicit := false, false;
        if (|tag| == 0 && token.style == Plain) || (|tag| == 1 && tag[0] == '!') {
          plainImplicit := true;
        } else if |tag| == 0 {
          quotedImplicit := true;
        }
        PopState();
        SkipToken();
        return Some(Scalar(at, anchor, tag, token.value, plainImplicit, quotedImplicit, token.style));
      }
      if token.kind == TFlowSequenceStart {
        state := FlowSequenceFirst;
        return Some(SequenceStart(at, anchor, tag, implicit, true));
      }
      if token.kind == TFlowMappingStart {
        state := FlowMappingFirst;
        return Some(MappingStart(at, anchor, tag, implicit, true));
      }
      if block && token.kind == TBlockSequenceStart {
        state := BlockSequenceFirst;
        return Some(SequenceStart(at, anchor, tag, implicit, false));
      }
      if block && token.kind == TBlockMappingStart {
        state := BlockMappingFirst;
        return Some(MappingStart(at, anchor, tag, implicit, false));
      }
      if |anchor| > 0 || |tag| > 0 {
        PopState();
        return Some(Scalar(at, anchor, tag, "", implicit, false, Plain));
      }
      return None;
    }

    method EmptyScalarEvent(at: Mark) returns (r: Option<Event>)
      ensures r == Some(EmptyScalar(at))
    {
      r := Some(Scalar(at, "", "", "", true, false, Plain));
    }

    /** A node, or an empty scalar if one of the given tokens comes next. */
    method ParseEntry(at: Mark, ends: set<TokenKind>, after: State, block: bool, indentless: bool)
        returns (r: Option<Event>)
      modifies this`tokens, this`state, this`states, this`streamEndProduced
      ensures Matches(EntryOutcome(old(Cfg()), at, ends, after, block, indentless), r, Cfg())
      ensures streamEndProduced ==> old(streamEndProduced)
    {
      hide NodeOutcome;
      var token := PeekToken();
      if token.None? {
        return None;
      }
      if token.value.kind !in ends {
        states := states + [after];
        r := ParseNode(block, indentless);
      } else {
        state := after;
        r := EmptyScalarEvent(at);
      }
    }

    method PushMark()
      requires tokens != [] && tokens[0].kind != TStreamEnd
      modifies this`tokens, this`marks, this`streamEndProduced
      ensures Cfg() == Entered(old(Cfg()), true) && !streamEndProduced
    {
      var token := tokens[0];
      marks := marks + [token.start];
      SkipToken();
    }

    method ParseBlockSequenceEntry(first: bool) returns (r: Option<Event>)
      requires states != [] && (if first then tokens != [] && tokens[0].kind != TStreamEnd else marks != [])
      modifies this
      ensures Matches(CollectionOutcome(Entered(old(Cfg()), first), BlockSequenceEntry, first), r, Cfg())
      ensures streamEndProduced ==> old(streamEndProduced)
    {
      hide CollectionOutcome;
      if first {
        PushMark();
      }
      r := BlockSequenceRest(first);
    }

    method BlockSequenceRest(first: bool) returns (r: Option<Event>)
      requires states != [] && marks != []
      modifies this
      ensures Matches(CollectionOutcome(old(Cfg()), BlockSequenceEntry, first), r, Cfg())
      ensures streamEndProduced ==> old(streamEndProduced)
    {
      hide NodeOutcome;
      var token := PeekToken();
      if token.None? {
        return None;
      }
      if token.value.kind == TBlockEntry {
        var ends := {TBlockEntry, TBlockEnd};
        EntryIs(Cfg(), BlockSequenceEntry, first, token.value.end, ends, BlockSequenceEntry, true, false);
        SkipToken();
        hide CollectionOutcome;
        r := ParseEntry(token.value.end, ends, BlockSequenceEntry, true, false);
        return;
      }
      if token.value.kind == TBlockEnd {
        PopState();
        marks := marks[..|marks| - 1];
        SkipToken();
        return Some(SequenceEnd(token.value.start));
      }
      return None;
    }

    method ParseIndentlessSequenceEntry() returns (r: Option<Event>)
      requires states != []
      modifies this
      ensures Matches(CollectionOutcome(old(Cfg()), IndentlessEntry, false), r, Cfg())
      ensures streamEndProduced ==> old(streamEndProduced)
    {
      hide NodeOutcome;
      var token := PeekToken();
      if token.None? {
        return None;
      }
      if token.value.kind == TBlockEntry {
        var ends := {TBlockEntry, TKey, TValue, TBlockEnd};
        EntryIs(Cfg(), IndentlessEntry, false, token.value.end, ends, IndentlessEntry, true, false);
        SkipToken();
        hide CollectionOutcome;
        r := ParseEntry(token.value.end, ends, IndentlessEntry, true, false);
        return;
      }
      PopState();
      return Some(SequenceEnd(token.value.start));
    }

    method ParseBlockMappingKey(first: bool) returns (r: Option<Event>)
      requires states != [] && (if first then tokens != [] && tokens[0].kind != TStreamEnd else marks != [])
      modifies this
      ensures Matches(CollectionOutcome(Entered(old(Cfg()), first), BlockMappingKey, first), r, Cfg())
      ensures streamEndProduced ==> old(streamEndProduced)
    {
      hide CollectionOutcome;
      if first {
        PushMark();
      }
      r := BlockMappingRest(first);
    }

    method BlockMappingRest(first: bool) returns (r: Option<Event>)
      requires states != [] && marks != []
      modifies this
      ensures Matches(CollectionOutcome(old(Cfg()), BlockMappingKey, first), r, Cfg())
      ensures streamEndProduced ==> old(streamEndProduced)
    {
      hide NodeOutcome;
      var token := PeekToken();
      if token.None? {
        return None;
      }
      if token.value.kind == TKey {
        var ends := {TKey, TValue, TBlockEnd};
        EntryIs(Cfg(), BlockMappingKey, first, token.value.end, ends, BlockMappingValue, true, true);
        SkipToken();
        hide CollectionOutcome;
        r := ParseEntry(token.value.end, ends, BlockMappingValue, true, true);
        return;
      } else if token.value.kind == TBlockEnd {
        PopState();
        marks := marks[..|marks| - 1];
        SkipToken();
        return Some(MappingEnd(token.value.start));
      }
      return None;
    }

    method ParseBlockMappingValue() returns (r: Option<Event>)
      modifies this
      ensures Matches(CollectionOutcome(old(Cfg()), BlockMappingValue, false), r, Cfg())
      ensures streamEndProduced ==> old(streamEndProduced)
    {
      hide NodeOutcome;
      var token := PeekToken();
      if token.None? {
        return None;
      }
      if token.value.kind == TValue {
        var ends := {TKey, TValue, TBlockEnd};
        EntryIs(Cfg(), BlockMappingValue, false, token.value.end, ends, BlockMappingKey, true, true);
        SkipToken();
        hide CollectionOutcome;
        r := ParseEntry(token.value.end, ends, BlockMappingKey, true, true);
        return;
      }
      state := BlockMappingKey;
      r := EmptyScalarEvent(token.value.start);
    }

    method ParseFlowSequenceEntry(first: bool) returns (r: Option<Event>)
      requires states != [] && (if first then tokens != [] && tokens[0].kind != TStreamEnd else marks != [])
      modifies this
      ensures Matches(CollectionOutcome(Entered(old(Cfg()), first), FlowSequenceEntry, first), r, Cfg())
      ensures streamEndProduced ==> old(streamEndProduced)
    {
      hide CollectionOutcome;
      if first {
        PushMark();
      }
      r := FlowSequenceRest(first);
    }

    method FlowSequenceRest(first: bool) returns (r: Option<Event>)
      requires states != [] && marks != []
      modifies this
      ensures Matches(CollectionOutcome(old(Cfg()), FlowSequenceEntry, first), r, Cfg())
      ensures streamEndProduced ==> old(streamEndProduced)
    {
      AfterCommaInSequence(Cfg());
      var token := PeekToken();
      if token.None? {
        return None;
      }
      if token.value.kind != TFlowSequenceEnd && !first {
        if token.value.kind != TFlowEntry {
          return None;
        }
        SkipToken();
      }
      hide CollectionOutcome;
      r := FlowSequenceItem();
    }

    method FlowSequenceItem() returns (r: Option<Event>)
      requires states != [] && marks != []
      modifies this
      ensures Matches(CollectionOutcome(old(Cfg()), FlowSequenceEntry, true), r, Cfg())
      ensures streamEndProduced ==> old(streamEndProduced)
    {
      hide NodeOutcome;
      var token := PeekToken();
      if token.None? {
        return None;
      }
      if token.value.kind == TKey {
        state := PairKey;
        SkipToken();
        return Some(MappingStart(token.value.start, "", "", true, true));
      } else if token.value.kind != TFlowSequenceEnd {
        states := states + [FlowSequenceEntry];
        r := ParseNode(false, false);
        return;
      }
      PopState();
      marks := marks[..|marks| - 1];
      SkipToken();
      return Some(SequenceEnd(token.value.start));
    }

    method ParsePairKey() returns (r: Option<Event>)
      modifies this
      ensures Matches(CollectionOutcome(old(Cfg()), PairKey, false), r, Cfg())
      ensures streamEndProduced ==> old(streamEndProduced)
    {
      hide NodeOutcome;
      var token := PeekToken();
      if token.None? {
        return None;
      }
      if token.value.kind != TValue && token.value.kind != TFlowEntry && token.value.kind != TFlowSequenceEnd {
        assert tokens[0..] == tokens;
        states := states + [PairValue];
        r := ParseNode(false, false);
        return;
      }
      SkipToken();
      state := PairValue;
      r := EmptyScalarEvent(token.value.end);
    }

    method ParsePairValue() returns (r: Option<Event>)
      modifies this
      ensures Matches(CollectionOutcome(old(Cfg()), PairValue, false), r, Cfg())
      ensures streamEndProduced ==> old(streamEndProduced)
    {
      hide NodeOutcome;
      var token := PeekToken();
      if token.None? {
        return None;
      }
      if token.value.kind == TValue {
        var ends := {TFlowEntry, TFlowSequenceEnd};
        EntryIs(Cfg(), PairValue, false, token.value.start, ends, PairEnd, false, false);
        SkipToken();
        hide CollectionOutcome;
        r := ParseEntry(token.value.start, ends, PairEnd, false, false);
        return;
      }
      state := PairEnd;
      r := EmptyScalarEvent(token.value.start);
    }

    method ParsePairEnd() returns (r: Option<Event>)
      modifies this
      ensures Matches(CollectionOutcome(old(Cfg()), PairEnd, false), r, Cfg())
      ensures streamEndProduced ==> old(streamEndProduced)
    {
      hide NodeOutcome;
      var token := PeekToken();
      if token.None? {
        return None;
      }
      state := FlowSequenceEntry;
      return Some(MappingEnd(token.value.start));
    }

    method ParseFlowMappingKey(first: bool) returns (r: Option<Event>)
      requires states != [] && (if first then tokens != [] && tokens[0].kind != TStreamEnd else marks != [])
      modifies this
      ensures Matches(CollectionOutcome(Entered(old(Cfg()), first), FlowMappingKey, first), r, Cfg())
      ensures streamEndProduced ==> old(streamEndProduced)
    {
      hide CollectionOutcome;
      if first {
        PushMark();
      }
      r := FlowMappingRest(first);
    }

    method FlowMappingRest(first: bool) returns (r: Option<Event>)
      requires states != [] && marks != []
      modifies this
      ensures Matches(CollectionOutcome(old(Cfg()), FlowMappingKey, first), r, Cfg())
      ensures streamEndProduced ==> old(streamEndProduced)
    {
      AfterCommaInMapping(Cfg());
      var token := PeekToken();
      if token.None? {
        return None;
      }
      if token.value.kind != TFlowMappingEnd && !first {
        if token.value.kind != TFlowEntry {
          return None;
        }
        SkipToken();
      }
      hide CollectionOutcome;
      r := FlowMappingItem();
    }

    method FlowMappingItem() returns (r: Option<Event>)
      requires states != [] && marks != []
      modifies this
      ensures Matches(CollectionOutcome(old(Cfg()), FlowMappingKey, true), r, Cfg())
      ensures streamEndProduced ==> old(streamEndProduced)
    {
      hide NodeOutcome;
      var token := PeekToken();
      if token.None? {
        return None;
      }
      if token.value.kind == TKey {
        var ends := {TValue, TFlowEntry, TFlowMappingEnd};
        EntryIs(Cfg(), FlowMappingKey, true, if |tokens| > 1 then tokens[1].start else 0, ends, FlowMappingValue, false,
                false);
        SkipToken();
        token := PeekToken();
        if token.None? {
          return None;
        }
        hide CollectionOutcome;
        r := ParseEntry(token.value.start, ends, FlowMappingValue, false, false);
        return;
      } else if token.value.kind != TFlowMappingEnd {
        states := states + [FlowMappingEmptyValue];
        r := ParseNode(false, false);
        return;
      }
      PopState();
      marks := marks[..|marks| - 1];
      SkipToken();
      return Some(MappingEnd(token.value.start));
    }

    method ParseFlowMappingValue(empty: bool) returns (r: Option<Event>)
      modifies this
      ensures Matches(CollectionOutcome(old(Cfg()), if empty then FlowMappingEmptyValue else FlowMappingValue, false),
                      r, Cfg())
      ensures streamEndProduced ==> old(streamEndProduced)
    {
      hide NodeOutcome;
      var token := PeekToken();
      if token.None? {
        return None;
      }
      if empty {
        state := FlowMappingKey;
        r := EmptyScalarEvent(token.value.start);
        return;
      }
      if token.value.kind == TValue {
        var ends := {TFlowEntry, TFlowMappingEnd};
        EntryIs(Cfg(), FlowMappingValue, false, if |tokens| > 1 then tokens[1].start else
                  0, ends, FlowMappingKey, false, false);
        SkipToken();
        token := PeekToken();
        if token.None? {
          return None;
        }
        hide CollectionOutcome;
        r := ParseEntry(token.value.start, ends, FlowMappingKey, false, false);
        return;
      }
      state := FlowMappingKey;
      r := EmptyScalarEvent(token.value.start);
    }

    // ----- Documents -----

    /** Remember a tag directive, unless there is one with its handle. */
    method AppendTagDirective(value: TagDirective, allowDuplicates: bool) returns (ok: bool)
      modifies this`tagDirectives
      ensures ok == (allowDuplicates || PrefixOf(old(tagDirectives), value.handle).None?)
      ensures tagDirectives == if ok then AddTag(old(tagDirectives), value) else old(tagDirectives)
    {
      var i := 0;
      while i < |tagDirectives|
        invariant 0 <= i <= |tagDirectives| && tagDirectives == old(tagDirectives)
        invariant PrefixOf(tagDirectives, value.handle) == PrefixOf(tagDirectives[i..], value.handle)
      {
        if value.handle == tagDirectives[i].handle {
          return allowDuplicates;
        }
        i := i + 1;
      }
      tagDirectives := tagDirectives + [value];
      return true;
    }

    method ProcessDirectives() returns (ok: bool, version: bool, own: seq<TagDirective>)
      modifies this`tokens, this`tagDirectives, this`streamEndProduced
      ensures var d := ReadDirectives(old(tokens), old(tagDirectives), false, []);
              if ok then d == Directives(tokens, tagDirectives, version, own) else d.BadDirectives?
      ensures streamEndProduced ==> old(streamEndProduced)
    {
      ok, version, own := false, false, [];
      var token := PeekToken();
      if token.None? {
        return;
      }
      while token.value.kind == TVersionDirective || token.value.kind == TTagDirective
        invariant !ok && tokens != [] && token == Some(tokens[0]) && (streamEndProduced ==> old(streamEndProduced))
        invariant ReadDirectives(tokens, tagDirectives, version, own)
                  == ReadDirectives(old(tokens), old(tagDirectives), false, [])
        decreases |tokens|
      {
        if token.value.kind == TVersionDirective {
          if version || token.value.major != 1 || token.value.minor != 1 {
            return;
          }
          version := true;
        } else {
          var value := TagDirective(token.value.value, token.value.prefix);
          var appended := AppendTagDirective(value, false);
          if !appended {
            return;
          }
          own := own + [value];
        }
        SkipToken();
        token := PeekToken();
        if token.None? {
          return;
        }
      }
      ok := AppendTagDirective(DEFAULT_TAGS[0], true);
      ok := AppendTagDirective(DEFAULT_TAGS[1], true);
    }

    method SkipExtraEnds() returns (token: Option<Token>)
      modifies this`tokens, this`streamEndProduced
      ensures tokens == SkipDocumentEnds(old(tokens)) && token == if tokens == [] then None else Some(tokens[0])
      ensures streamEndProduced ==> old(streamEndProduced)
    {
      token := PeekToken();
      while token.Some? && token.value.kind == TDocumentEnd
        invariant SkipDocumentEnds(tokens) == SkipDocumentEnds(old(tokens))
        invariant token == if tokens == [] then None else Some(tokens[0])
        invariant streamEndProduced ==> old(streamEndProduced)
        decreases |tokens|
      {
        SkipToken();
        token := PeekToken();
      }
    }

    method ParseDocumentStart(implicit: bool) returns (r: Option<Event>)
      modifies this
      ensures Matches(DocumentStartOutcome(old(Cfg()), implicit), r, Cfg())
      ensures streamEndProduced ==> old(streamEndProduced) || (r.Some? && r.value.StreamEnd?)
    {
      hide ReadDirectives, SkipDocumentEnds;
      var token := PeekToken();
      if !implicit {
        token := SkipExtraEnds();
      }
      if token.None? {
        return None;
      }
      var at := token.value.start;
      if token.value.kind == TStreamEnd {
        state := EndState;
        SkipToken();
        return Some(StreamEnd(at));
      }
      var explicit :=
        !implicit || token.value.kind == TVersionDirective || token.value.kind == TTagDirective
            || token.value.kind == TDocumentStart;
      var ok, version, own := ProcessDirectives();
      if !ok {
        return None;
      }
      if !explicit {
        states := states + [DocumentEndState];
        state := BlockNode;
        return Some(DocumentStart(at, false, []));
      }
      token := PeekToken();
      if token.None? || token.value.kind != TDocumentStart {
        return None;
      }
      states := states + [DocumentEndState];
      state := DocumentContent;
      SkipToken();
      return Some(DocumentStart(at, version, own));
    }

    method ParseStreamStart() returns (r: Option<Event>)
      requires state == StreamStartState
      modifies this
      ensures Matches(Step(old(Cfg())), r, Cfg())
      ensures streamEndProduced ==> old(streamEndProduced)
    {
      var token := PeekToken();
      if token.None? || token.value.kind != TStreamStart {
        return None;
      }
      state := ImplicitDocumentStart;
      SkipToken();
      return Some(StreamStart(token.value.start));
    }

    method ParseDocumentContent() returns (r: Option<Event>)
      requires state == DocumentContent && states != []
      modifies this
      ensures Matches(Step(old(Cfg())), r, Cfg())
      ensures streamEndProduced ==> old(streamEndProduced)
    {
      var token := PeekToken();
      if token.None? {
        return None;
      }
      var kind := token.value.kind;
      if kind == TVersionDirective || kind == TTagDirective || kind == TDocumentStart || kind == TDocumentEnd
          || kind == TStreamEnd {
        PopState();
        r := EmptyScalarEvent(token.value.start);
        return;
      }
      r := ParseNode(true, false);
    }

    method ParseDocumentEnd() returns (r: Option<Event>)
      requires state == DocumentEndState
      modifies this
      ensures Matches(Step(old(Cfg())), r, Cfg())
      ensures streamEndProduced ==> old(streamEndProduced)
    {
      var token := PeekToken();
      if token.None? {
        return None;
      }
      var implicit := true;
      if token.value.kind == TDocumentEnd {
        SkipToken();
        implicit := false;
      }
      tagDirectives := [];
      state := DocumentStartState;
      return Some(DocumentEnd(token.value.start, implicit));
    }

    // ----- The state machine -----

    method StateMachine() returns (r: Option<Event>)
      requires Inv(Cfg()) && state != EndState
      modifies this
      ensures Matches(Step(old(Cfg())), r, Cfg())
      ensures streamEndProduced ==> old(streamEndProduced) || (r.Some? && r.value.StreamEnd?)
    {
      hide CollectionOutcome, DocumentStartOutcome, NodeOutcome;
      match state
      case StreamStartState => r := ParseStreamStart();
      case ImplicitDocumentStart => r := ParseDocumentStart(true);
      case DocumentStartState => r := ParseDocumentStart(false);
      case DocumentContent => r := ParseDocumentContent();
      case DocumentEndState => r := ParseDocumentEnd();
      case BlockNode => r := ParseNode(true, false);
      case BlockSequenceFirst => r := ParseBlockSequenceEntry(true);
      case BlockSequenceEntry => r := ParseBlockSequenceEntry(false);
      case IndentlessEntry => r := ParseIndentlessSequenceEntry();
      case BlockMappingFirst => r := ParseBlockMappingKey(true);
      case BlockMappingKey => r := ParseBlockMappingKey(false);
      case BlockMappingValue => r := ParseBlockMappingValue();
      case FlowSequenceFirst => r := ParseFlowSequenceEntry(true);
      case FlowSequenceEntry => r := ParseFlowSequenceEntry(false);
      case PairKey => r := ParsePairKey();
      case PairValue => r := ParsePairValue();
      case PairEnd => r := ParsePairEnd();
      case FlowMappingFirst => r := ParseFlowMappingKey(true);
      case FlowMappingKey => r := ParseFlowMappingKey(false);
      case FlowMappingValue => r := ParseFlowMappingValue(false);
      case FlowMappingEmptyValue => r := ParseFlowMappingValue(true);
    }

    /** The parser can go on; it has taken the end of the stream only if it is at its end. */
    ghost predicate Ready()
      reads this
    {
      Inv(Cfg()) && (streamEndProduced ==> state == EndState)
    }

    /**
     The next event, for any tokens. It is one that the events before it allow, and the parser gets closer
     to its end. There is no event behind the end of the stream or a failure.
     */
    method Parse() returns (ok: bool, event: Option<Event>)
      requires failed || Ready()
      modifies this
      ensures failed == (old(failed) || !ok)
      ensures old(failed) || old(state) == EndState ==> ok && event.None? && Cfg() == old(Cfg()) && (failed || Ready())
      ensures !old(failed) && old(state) != EndState ==>
                Matches(Step(old(Cfg())), event, Cfg()) && ok == event.Some?
                && (ok ==> Ready() && Accept(Expected(old(Cfg())), event.value) == Some(Expected(Cfg()))
                           && Progress(old(Cfg()), Cfg()))
    {
      if streamEndProduced || failed || state == EndState {
        return true, None;
      }
      StepIsGood(Cfg());
      ghost var before := Cfg();
      event := StateMachine();
      ok := event.Some?;
      if ok {
        StepProgresses(before);
        EndsAtStreamEnd(before);
      }
      hide Step, Accept, Expected, Inv, Progress;
      failed := !ok;
    }
  }

  lemma EndsAtStreamEnd(c: Config)
    requires Inv(c)
    ensures Step(c).Emit? && Step(c).event.StreamEnd? ==> Step(c).next.state == EndState
  {
    StepIsGood(c);
    hide Step, Frames, Inv;
  }
}
