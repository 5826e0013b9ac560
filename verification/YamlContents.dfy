/**
 What the events of the YAML parser say: the tokens that have been taken can be cut into one piece for each event, and
 each piece spells its event. Nothing is lost, made up or moved to another event, for any sequence of tokens.
 */
module YamlContents {
  import opened Wrappers
  import opened YamlGrammar
  import opened YamlNesting

  // ----- How an event is spelled -----

  predicate Indicators(ts: seq<Token>) {
    forall i :: 0 <= i < |ts| ==> ts[i].kind in {TBlockEntry, TFlowEntry, TKey, TValue}
  }

  function Last(ts: seq<Token>): Token
    requires ts != []
  {
    ts[|ts| - 1]
  }

  function Front(ts: seq<Token>): seq<Token>
    requires ts != []
  {
    ts[..|ts| - 1]
  }

  /** A tag is its suffix behind the prefix that its handle stands for; without a handle it is the suffix alone. */
  ghost predicate Joined(tags: seq<TagDirective>, t: Token, tag: string) {
    if t.value == "" then tag == t.suffix
    else exists i :: && 0 <= i < |tags| && tags[i].handle == t.value && tag == tags[i].prefix + t.suffix
                     && forall j :: 0 <= j < i ==> tags[j].handle != t.value
  }

  /** At most one anchor and at most one tag, in either order. */
  ghost predicate Named(ts: seq<Token>, tags: seq<TagDirective>, anchor: string, tag: string) {
    match |ts|
    case 0 => anchor == "" && tag == ""
    case 1 =>
      || (ts[0].kind == TAnchor && anchor == ts[0].value && tag == "")
      || (ts[0].kind == TTag && anchor == "" && Joined(tags, ts[0], tag))
    case 2 =>
      || (ts[0].kind == TAnchor && ts[1].kind == TTag && anchor == ts[0].value && Joined(tags, ts[1], tag))
      || (ts[0].kind == TTag && ts[1].kind == TAnchor && anchor == ts[1].value && Joined(tags, ts[0], tag))
    case _ => false
  }

  /** Properties, and a token of the given kind behind them. */
  ghost predicate NamedThen(ts: seq<Token>, tags: seq<TagDirective>, anchor: string, tag: string, kind: TokenKind) {
    ts != [] && Last(ts).kind == kind && Named(Front(ts), tags, anchor, tag)
  }

  /** The tokens of a node, as far as they belong to its first event. */
  ghost predicate SpellsNode(e: Event, ts: seq<Token>, tags: seq<TagDirective>) {
    (ts != [] ==> e.at == ts[0].start) &&
    match e
    case Alias(_, name) => |ts| == 1 && ts[0].kind == TAlias && ts[0].value == name
    case Scalar(_, anchor, tag, value, implicit, quotedImplicit, style) =>
      if NamedThen(ts, tags, anchor, tag, TScalar) then
        && value == Last(ts).value && style == Last(ts).style
        && (implicit <==> (tag == "" && style.Plain?) || tag == "!") && (quotedImplicit <==> tag == "" && style.Quoted?)
      else
        // Nothing stands for a scalar that is empty.
        && Named(ts, tags, anchor, tag) && value == "" && style.Plain?
        && (implicit <==> tag == "") && !quotedImplicit
    case SequenceStart(_, anchor, tag, implicit, flow) =>
      && (implicit <==> tag == "")
      && (|| NamedThen(ts, tags, anchor, tag, if flow then TFlowSequenceStart else TBlockSequenceStart)
          // Entries of a block sequence may follow without a start.
          || (!flow && Named(ts, tags, anchor, tag)))
    case MappingStart(_, anchor, tag, implicit, flow) =>
      && (implicit <==> tag == "")
      && (|| NamedThen(ts, tags, anchor, tag, if flow then TFlowMappingStart else TBlockMappingStart)
          // A single pair in a flow sequence has no start.
          || (flow && ts == [] && anchor == "" && tag == ""))
    case _ => false
  }

  function DirectivesIn(ts: seq<Token>): seq<TagDirective> {
    if ts == [] then []
    else (if ts[0].kind == TTagDirective then [TagDirective(ts[0].value, ts[0].prefix)] else []) + DirectivesIn(ts[1..])
  }

  predicate HasVersion(ts: seq<Token>) {
    exists i :: 0 <= i < |ts| && ts[i].kind == TVersionDirective
  }

  predicate AllOf(ts: seq<Token>, kinds: set<TokenKind>) {
    forall i :: 0 <= i < |ts| ==> ts[i].kind in kinds
  }

  ghost predicate Spells(e: Event, ts: seq<Token>, tags: seq<TagDirective>) {
    match e
    case StreamStart(_) => |ts| == 1 && ts[0].kind == TStreamStart
    case StreamEnd(_) => ts != [] && Last(ts).kind == TStreamEnd && AllOf(Front(ts), {TDocumentEnd})
    case DocumentStart(_, version, own) =>
      && version == HasVersion(ts) && own == DirectivesIn(ts)
      && (ts == [] || (&& Last(ts).kind == TDocumentStart
                       && AllOf(Front(ts), {TDocumentEnd, TVersionDirective, TTagDirective})))
    case DocumentEnd(_, implicit) => if implicit then ts == [] else |ts| == 1 && ts[0].kind == TDocumentEnd
    case SequenceEnd(_) => ts == [] || (Indicators(Front(ts)) && Last(ts).kind in {TFlowSequenceEnd, TBlockEnd})
    case MappingEnd(_) => ts == [] || (Indicators(Front(ts)) && Last(ts).kind in {TFlowMappingEnd, TBlockEnd})
    case _ =>
      || (exists k :: 0 <= k <= |ts| && Indicators(ts[..k]) && SpellsNode(e, ts[k..], tags))
      // In place of the key of a pair, the end of the sequence is taken as well.
      || (|ts| == 1 && ts[0].kind == TFlowSequenceEnd && SpellsNode(e, [], tags))
  }

  // ----- One step -----

  /** A state that the parser goes on in when a node is complete. */
  predicate Returns(s: State) {
    Inner(s) || s == DocumentEndState
  }

  /** A state in front of a document. */
  predicate Begins(s: State) {
    s in {StreamStartState, ImplicitDocumentStart, DocumentStartState}
  }

  lemma ReturnsIs(s: State)
    requires Returns(s)
    ensures AfterFirst(s).None? && !Begins(s)
  {
  }

  lemma StatesAre()
    ensures forall s :: s in {BlockSequenceFirst, BlockMappingFirst, FlowSequenceFirst, FlowMappingFirst} ==>
              AfterFirst(s).Some? && !Begins(s)
    ensures forall s :: s in {IndentlessEntry, PairKey, FlowSequenceEntry, BlockNode, DocumentContent} ==>
              AfterFirst(s).None? && !Begins(s)
  {
  }

  /** The tokens that no event has been made of; the start of a collection belongs to its first event. */
  function Left(c: Config): seq<Token> {
    if AfterFirst(c.state).Some? && c.tokens != [] then c.tokens[1..] else c.tokens
  }

  /** The first `k` of some tokens spell the event, and the others are left. */
  ghost predicate Cuts(ts: seq<Token>, k: nat, e: Event, tags: seq<TagDirective>, c: Config) {
    k <= |ts| && Left(c) == ts[k..] && Spells(e, ts[..k], tags)
  }

  ghost predicate CutsNode(ts: seq<Token>, k: nat, e: Event, tags: seq<TagDirective>, c: Config) {
    k <= |ts| && Left(c) == ts[k..] && SpellsNode(e, ts[..k], tags)
  }

  lemma {:induction false} PrefixIsJoined(tags: seq<TagDirective>, t: Token)
    requires t.value != "" && PrefixOf(tags, t.value).Some?
    ensures Joined(tags, t, PrefixOf(tags, t.value).value + t.suffix)
  {
    var tag := PrefixOf(tags, t.value).value + t.suffix;
    if tags[0].handle != t.value {
      PrefixIsJoined(tags[1..], t);
      var i :| && 0 <= i < |tags[1..]| && tags[1..][i].handle == t.value && tag == tags[1..][i].prefix + t.suffix
               && forall j :: 0 <= j < i ==> tags[1..][j].handle != t.value;
      assert tags[i + 1] == tags[1..][i] && forall j :: 1 <= j <= i ==> tags[j] == tags[1..][j - 1];
    }
  }

  lemma PropertiesAreNamed(ts: seq<Token>, tags: seq<TagDirective>)
    ensures var p := PropertiesOf(ts);
            ResolveTag(tags, p.tag).Some? ==> Named(ts[..p.count], tags, p.anchor, ResolveTag(tags, p.tag).value)
  {
    hide Joined;
    var p := PropertiesOf(ts);
    if p.tag.Some? && ResolveTag(tags, p.tag).Some? {
      if p.tag.value.value != "" {
        PrefixIsJoined(tags, p.tag.value);
      } else {
        SuffixIsJoined(tags, p.tag.value);
      }
    }
  }

  lemma SuffixIsJoined(tags: seq<TagDirective>, t: Token)
    requires t.value == ""
    ensures Joined(tags, t, t.suffix)
  {
  }

  lemma NodeIsCut(c: Config, block: bool, indentless: bool, states: seq<State>, s: State)
      returns (k: nat)
    requires c.states == states + [s] && Returns(s) && NodeOutcome(c, block, indentless).Emit?
    ensures var o := NodeOutcome(c, block, indentless);
            CutsNode(c.tokens, k, o.event, c.tags, o.next) && o.next.tags == c.tags && !Begins(o.next.state)
  {
    hide PropertiesOf, ResolveTag, Named, ContentOutcome, Returns, Begins, AfterFirst;
    ReturnsIs(s);
    var ts, o := c.tokens, NodeOutcome(c, block, indentless);
    if Is(ts, 0, TAlias) {
      k := 1;
    } else {
      var p := PropertiesOf(ts);
      PropertiesAreNamed(ts, c.tags);
      k := ContentIsCut(Drop(c, p.count), ts, p.count, p.anchor, ResolveTag(c.tags, p.tag).value, block, indentless,
                        states, s);
    }
  }

  lemma ContentIsCut(c: Config, ts: seq<Token>, n: nat, anchor: string, tag: string, block: bool, indentless: bool,
                     states: seq<State>, s: State)
      returns (k: nat)
    requires c.states == states + [s] && Returns(s) && n < |ts| && c.tokens == ts[n..] && ts != []
    requires Named(ts[..n], c.tags, anchor, tag)
    requires ContentOutcome(c, ts[0].start, anchor, tag, block, indentless).Emit?
    ensures var o := ContentOutcome(c, ts[0].start, anchor, tag, block, indentless);
            CutsNode(ts, k, o.event, c.tags, o.next) && o.next.tags == c.tags && !Begins(o.next.state)
  {
    hide Named, SpellsNode, Returns, Begins, AfterFirst;
    ReturnsIs(s);
    StatesAre();
    var o := ContentOutcome(c, ts[0].start, anchor, tag, block, indentless);
    if Left(o.next) == ts[n + 1..] {
      TakenIsSpelled(ts, n, c.tags, anchor, tag, o.event);
      k := n + 1;
    } else {
      AloneIsSpelled(ts, n, c.tags, anchor, tag, o.event);
      k := n;
    }
  }

  /** Properties with a token of content behind them. */
  lemma TakenIsSpelled(ts: seq<Token>, n: nat, tags: seq<TagDirective>, anchor: string, tag: string, e: Event)
    requires n < |ts| && Named(ts[..n], tags, anchor, tag) && (e.Scalar? || e.Opens()) && e.at == ts[0].start
    requires e.anchor == anchor && e.tag == tag
    requires e.Opens() ==>
               && (e.implicit <==> tag == "")
               && ts[n].kind == if e.SequenceStart? then (if e.flow then TFlowSequenceStart else TBlockSequenceStart)
                  else if e.flow then TFlowMappingStart
                  else TBlockMappingStart
    requires e.Scalar? ==>
               && ts[n].kind == TScalar && e.value == ts[n].value && e.style == ts[n].style
               && (e.implicit <==> (tag == "" && e.style.Plain?) || tag == "!")
               && (e.quotedImplicit <==> tag == "" && e.style.Quoted?)
    ensures SpellsNode(e, ts[..n + 1], tags)
  {
    hide Named;
    assert Front(ts[..n + 1]) == ts[..n] && Last(ts[..n + 1]) == ts[n] && ts[..n + 1][0] == ts[0];
  }

  /** Properties alone. */
  lemma AloneIsSpelled(ts: seq<Token>, n: nat, tags: seq<TagDirective>, anchor: string, tag: string, e: Event)
    requires n < |ts| && Named(ts[..n], tags, anchor, tag) && e.at == ts[0].start
    requires e == Scalar(e.at, anchor, tag, "", tag == "", false, Plain) || e
             == SequenceStart(e.at, anchor, tag, tag == "", false)
    ensures SpellsNode(e, ts[..n], tags)
  {
    hide Named;
    NamedLength(ts[..n], tags, anchor, tag);
    assert n > 0 ==> ts[..n][0] == ts[0];
  }

  lemma NamedLength(ts: seq<Token>, tags: seq<TagDirective>, anchor: string, tag: string)
    requires Named(ts, tags, anchor, tag)
    ensures forall i :: 0 <= i < |ts| ==> ts[i].kind in {TAnchor, TTag}
  {
  }

  /** The tokens that a move takes before it looks for a node. */
  ghost predicate Takes(s: State, ts: seq<Token>, m: Move) {
    match m
    case Bad => true
    case EmptyThen(skip, _, after) =>
      && skip <= |ts| && Returns(after)
      && (Indicators(ts[..skip]) || (skip == 1 && ts[0].kind == TFlowSequenceEnd))
    case NodeThen(skip, after, _, _) => skip <= |ts| && Returns(after) && Indicators(ts[..skip])
    case Close(skip, _) =>
      && skip <= |ts|
      && (skip > 0 ==> Indicators(ts[..skip - 1])
                       && ts[skip - 1].kind in {TBlockEnd, if InMapping(s) then TFlowMappingEnd else TFlowSequenceEnd})
    case OpenPair(skip, _) => skip <= |ts| && Indicators(ts[..skip])
    case ClosePair(_) => true
  }

  lemma MoveTakes(s: State, first: bool, ts: seq<Token>)
    ensures Takes(s, ts, MoveOf(s, first, ts))
  {
    assert ts != [] ==> ts[..1] == [ts[0]];
    assert |ts| > 1 ==> ts[..2] == [ts[0], ts[1]];
  }

  lemma CollectionIsCut(c: Config, s: State, first: bool)
      returns (k: nat)
    requires CollectionOutcome(c, s, first).Emit? && (c.states != [] ==> Returns(c.states[|c.states| - 1]))
    ensures var o := CollectionOutcome(c, s, first);
            Cuts(c.tokens, k, o.event, c.tags, o.next) && o.next.tags == c.tags && !Begins(o.next.state)
            && !o.event.DocumentStart? && !o.event.DocumentEnd?
  {
    hide MoveOf, NodeOutcome, Indicators, Spells, Returns, Begins, AfterFirst;
    var ts, o := c.tokens, CollectionOutcome(c, s, first);
    MoveTakes(s, first, ts);
    StatesAre();
    if c.states != [] {
      ReturnsIs(c.states[|c.states| - 1]);
    }
    match MoveOf(s, first, ts)
    case EmptyThen(skip, at, after) =>
      ReturnsIs(after);
      EmptyIsSpelled(ts[..skip], at, c.tags);
      k := skip;
    case NodeThen(skip, after, block, indentless) =>
      k := NodeAfterIsCut(c, skip, after, block, indentless);
    case Close(skip, at) =>
      CloseIsSpelled(ts, skip, o.event, c.tags);
      k := skip;
    case OpenPair(skip, at) =>
      PairIsSpelled(ts[..skip], at, c.tags);
      k := skip;
    case ClosePair(at) =>
      CloseIsSpelled(ts, 0, o.event, c.tags);
      k := 0;
  }

  lemma NodeAfterIsCut(c: Config, skip: nat, after: State, block: bool, indentless: bool)
      returns (k: nat)
    requires skip <= |c.tokens| && Indicators(c.tokens[..skip]) && Returns(after)
    requires NodeOutcome(Drop(c, skip).(states := c.states + [after]), block, indentless).Emit?
    ensures var o := NodeOutcome(Drop(c, skip).(states := c.states + [after]), block, indentless);
            Cuts(c.tokens, k, o.event, c.tags, o.next) && o.next.tags == c.tags && !Begins(o.next.state)
            && (o.event.Leaf() || o.event.Opens())
  {
    hide NodeOutcome, SpellsNode, Indicators, Returns, Begins, AfterFirst;
    var ts, d := c.tokens, Drop(c, skip).(states := c.states + [after]);
    var o := NodeOutcome(d, block, indentless);
    var n := NodeIsCut(d, block, indentless, c.states, after);
    k := skip + n;
    assert ts[skip..][..n] == ts[..k][skip..] && ts[skip..][n..] == ts[k..];
    assert ts[..k][..skip] == ts[..skip];
    SpelledIsNode(o.event, ts[skip..][..n], c.tags);
  }

  lemma SpelledIsNode(e: Event, ts: seq<Token>, tags: seq<TagDirective>)
    requires SpellsNode(e, ts, tags)
    ensures e.Leaf() || e.Opens()
  {
  }

  lemma CloseIsSpelled(ts: seq<Token>, skip: nat, e: Event, tags: seq<TagDirective>)
    requires skip <= |ts| && (e.SequenceEnd? || e.MappingEnd?)
    requires skip > 0 ==>
               && Indicators(ts[..skip - 1])
               && ts[skip - 1].kind in {TBlockEnd, if e.MappingEnd? then TFlowMappingEnd else TFlowSequenceEnd}
    ensures Spells(e, ts[..skip], tags)
  {
    hide Indicators;
    assert skip > 0 ==> Front(ts[..skip]) == ts[..skip - 1] && Last(ts[..skip]) == ts[skip - 1];
  }

  lemma PairIsSpelled(ts: seq<Token>, at: Mark, tags: seq<TagDirective>)
    requires Indicators(ts)
    ensures Spells(MappingStart(at, "", "", true, true), ts, tags)
  {
    assert SpellsNode(MappingStart(at, "", "", true, true), [], tags);
    assert ts[..|ts|] == ts && ts[|ts|..] == [];
  }

  lemma NoIndicators()
    ensures Indicators([])
  {
  }

  lemma EmptyIsSpelled(ts: seq<Token>, at: Mark, tags: seq<TagDirective>)
    requires Indicators(ts) || (|ts| == 1 && ts[0].kind == TFlowSequenceEnd)
    ensures Spells(EmptyScalar(at), ts, tags)
  {
    assert SpellsNode(EmptyScalar(at), [], tags);
    assert ts[..|ts|] == ts && ts[|ts|..] == [];
  }

  // ----- Documents -----

  ghost predicate HasHandle(tags: seq<TagDirective>, handle: string) {
    exists i :: 0 <= i < |tags| && tags[i].handle == handle
  }

  /** The directives in force in a document: its own, and the default ones that it does not replace. */
  ghost function InForce(own: seq<TagDirective>): seq<TagDirective> {
    own + (if HasHandle(own, "!") then [] else [DEFAULT_TAGS[0]])
    + if HasHandle(own, "!!") then [] else [DEFAULT_TAGS[1]]
  }

  ghost function TagsAfter(tags: seq<TagDirective>, e: Event): seq<TagDirective> {
    if e.DocumentStart? then InForce(e.tags) else if e.DocumentEnd? then [] else tags
  }

  lemma {:induction false} PrefixIff(tags: seq<TagDirective>, handle: string)
    ensures PrefixOf(tags, handle).Some? <==> HasHandle(tags, handle)
  {
    if tags != [] && tags[0].handle != handle {
      PrefixIff(tags[1..], handle);
      if HasHandle(tags, handle) {
        var i :| 0 <= i < |tags| && tags[i].handle == handle;
        assert tags[1..][i - 1].handle == handle;
      }
      if HasHandle(tags[1..], handle) {
        var i :| 0 <= i < |tags[1..]| && tags[1..][i].handle == handle;
        assert tags[i + 1].handle == handle;
      }
    }
  }

  lemma DefaultsAreAdded(own: seq<TagDirective>)
    ensures AddTag(AddTag(own, DEFAULT_TAGS[0]), DEFAULT_TAGS[1]) == InForce(own)
  {
    var one := AddTag(own, DEFAULT_TAGS[0]);
    PrefixIff(own, "!");
    PrefixIff(own, "!!");
    PrefixIff(one, "!!");
    assert HasHandle(one, "!!") <==> HasHandle(own, "!!") by {
      if HasHandle(own, "!!") {
        var i :| 0 <= i < |own| && own[i].handle == "!!";
        assert one[i].handle == "!!";
      }
      if HasHandle(one, "!!") {
        var i :| 0 <= i < |one| && one[i].handle == "!!";
        assert i < |own| ==> own[i].handle == "!!";
      }
    }
  }

  /** The first `k` tokens are directives, and `r` is what comes of them. */
  ghost predicate ReadAre(ts: seq<Token>, k: nat, version: bool, own: seq<TagDirective>, r: Directives) {
    && r.Directives? && k < |ts| && r.rest == ts[k..] && AllOf(ts[..k], {TVersionDirective, TTagDirective})
    && r.own == own + DirectivesIn(ts[..k]) && r.tags == InForce(r.own)
    && (r.version <==> version || HasVersion(ts[..k]))
  }

  lemma {:induction false} DirectivesAre(ts: seq<Token>, version: bool, own: seq<TagDirective>) returns (k: nat)
    requires ReadDirectives(ts, own, version, own).Directives?
    ensures ReadAre(ts, k, version, own, ReadDirectives(ts, own, version, own))
    decreases |ts|
  {
    hide ReadAre;
    if ts[0].kind == TVersionDirective {
      k := DirectivesAre(ts[1..], true, own);
      FirstIsRead(ts, k, version, own, ReadDirectives(ts, own, version, own));
      k := k + 1;
    } else if ts[0].kind == TTagDirective {
      var own' := own + [TagDirective(ts[0].value, ts[0].prefix)];
      k := DirectivesAre(ts[1..], version, own');
      FirstIsRead(ts, k, version, own, ReadDirectives(ts, own, version, own));
      k := k + 1;
    } else {
      k := 0;
      NoneIsRead(ts, version, own);
    }
  }

  lemma NoneIsRead(ts: seq<Token>, version: bool, own: seq<TagDirective>)
    requires ts != [] && ts[0].kind !in {TVersionDirective, TTagDirective}
    ensures ReadAre(ts, 0, version, own, ReadDirectives(ts, own, version, own))
  {
    DefaultsAreAdded(own);
    assert ts[..0] == [] && own + [] == own;
  }

  lemma FirstIsRead(ts: seq<Token>, k: nat, version: bool, own: seq<TagDirective>, r: Directives)
    requires ts != [] && ts[0].kind in {TVersionDirective, TTagDirective}
    requires var isTag := ts[0].kind == TTagDirective;
             ReadAre(ts[1..], k, version || !isTag,
                     if isTag then own + [TagDirective(ts[0].value, ts[0].prefix)] else own, r)
    ensures ReadAre(ts, k + 1, version, own, r)
  {
    hide InForce, HasVersion, DirectivesIn;
    var rest := ts[1..][..k];
    assert ts[..k + 1] == [ts[0]] + rest && ts[1..][k..] == ts[k + 1..];
    VersionIn(ts[0], rest);
    DirectiveFirst(ts[0], rest);
    var d := TagDirective(ts[0].value, ts[0].prefix);
    assert own + ([d] + DirectivesIn(rest)) == own + [d] + DirectivesIn(rest);
  }

  lemma DirectiveFirst(t: Token, ts: seq<Token>)
    ensures DirectivesIn([t] + ts)
            == (if t.kind == TTagDirective then [TagDirective(t.value, t.prefix)] else []) + DirectivesIn(ts)
  {
    assert ([t] + ts)[1..] == ts;
  }

  lemma NoVersion()
    ensures !HasVersion([])
  {
  }

  lemma VersionIn(t: Token, ts: seq<Token>)
    ensures HasVersion([t] + ts) <==> t.kind == TVersionDirective || HasVersion(ts)
  {
    if HasVersion(ts) {
      var i :| 0 <= i < |ts| && ts[i].kind == TVersionDirective;
      assert ([t] + ts)[i + 1] == ts[i];
    }
    if t.kind == TVersionDirective {
      assert ([t] + ts)[0] == t;
    }
  }

  lemma {:induction false} EndsAreSkipped(ts: seq<Token>)
    ensures var rest := SkipDocumentEnds(ts);
            |rest| <= |ts| && rest == ts[|ts| - |rest|..] && AllOf(ts[..|ts| - |rest|], {TDocumentEnd})
  {
    if ts != [] && ts[0].kind == TDocumentEnd {
      EndsAreSkipped(ts[1..]);
      var k := |ts| - |SkipDocumentEnds(ts)|;
      assert ts[..k] == [ts[0]] + ts[1..][..k - 1] && ts[1..][k - 1..] == ts[k..];
    } else {
      assert ts[..0] == [];
    }
  }

  /** Ends of documents in front of directives are no directives. */
  lemma {:induction false} EndsSayNothing(a: seq<Token>, b: seq<Token>, last: Token)
    requires AllOf(a, {TDocumentEnd}) && last.kind == TDocumentStart
    ensures DirectivesIn(a + b + [last]) == DirectivesIn(b) && (HasVersion(a + b + [last]) <==> HasVersion(b))
    decreases |a|, |b|
  {
    hide HasVersion;
    NoVersion();
    if a != [] {
      assert a + b + [last] == [a[0]] + (a[1..] + b + [last]);
      EndsSayNothing(a[1..], b, last);
      VersionIn(a[0], a[1..] + b + [last]);
    } else if b != [] {
      assert a + b + [last] == [b[0]] + ([] + b[1..] + [last]);
      EndsSayNothing([], b[1..], last);
      VersionIn(b[0], [] + b[1..] + [last]);
      assert b == [b[0]] + b[1..];
      VersionIn(b[0], b[1..]);
    } else {
      assert a + b + [last] == [last] + [];
      VersionIn(last, []);
    }
  }

  lemma DocumentStartIsCut(c: Config, implicit: bool)
      returns (k: nat)
    requires DocumentStartOutcome(c, implicit).Emit? && c.tags == []
    ensures var o := DocumentStartOutcome(c, implicit);
            Cuts(c.tokens, k, o.event, c.tags, o.next) && o.next.tags == TagsAfter(c.tags, o.event)
  {
    hide SkipDocumentEnds, ReadDirectives, InForce, Spells, AllOf, DirectivesIn, HasVersion;
    var o, all := DocumentStartOutcome(c, implicit), c.tokens;
    EndsAreSkipped(all);
    NoneSkipped(all);
    var ts := if implicit then all else SkipDocumentEnds(all);
    var n := |all| - |ts|;
    if ts[0].kind == TStreamEnd {
      StreamEndIsSpelled(all, n, c.tags);
      k := n + 1;
    } else {
      k := DirectivesAreCut(c, implicit, all, n);
    }
  }

  lemma OutcomeOfDirectives(c: Config, implicit: bool, ts: seq<Token>)
    requires DocumentStartOutcome(c, implicit).Emit? && c.tags == []
    requires ts == (if implicit then c.tokens else SkipDocumentEnds(c.tokens)) && ts != [] && ts[0].kind != TStreamEnd
    ensures var o, r := DocumentStartOutcome(c, implicit), ReadDirectives(ts, [], false, []);
            && r.Directives? && o.next.tags == r.tags
            && (|| (&& implicit && o.next.state == BlockNode && o.next.tokens == r.rest
                    && ts[0].kind !in {TVersionDirective, TTagDirective}
                    && o.event == DocumentStart(ts[0].start, false, []))
                || (&& o.next.state == DocumentContent && r.rest[0].kind == TDocumentStart
                    && o.next.tokens == r.rest[1..] && o.event == DocumentStart(ts[0].start, r.version, r.own)))
  {
    hide SkipDocumentEnds, ReadDirectives;
  }

  lemma DirectivesAreCut(c: Config, implicit: bool, all: seq<Token>, n: nat)
      returns (k: nat)
    requires DocumentStartOutcome(c, implicit).Emit? && c.tags == [] && c.tokens == all
    requires n < |all| && AllOf(all[..n], {TDocumentEnd}) && all[n].kind != TStreamEnd
    requires all[n..] == (if implicit then all else SkipDocumentEnds(all)) && (implicit ==> n == 0)
    ensures var o := DocumentStartOutcome(c, implicit);
            Cuts(all, k, o.event, c.tags, o.next) && o.next.tags == TagsAfter(c.tags, o.event)
  {
    hide DocumentStartOutcome, SkipDocumentEnds, ReadDirectives, InForce, Spells, AllOf, DirectivesIn, HasVersion,
         AfterFirst;
    StatesAre();
    var o, ts := DocumentStartOutcome(c, implicit), all[n..];
    OutcomeOfDirectives(c, implicit, ts);
    var m := DirectivesAre(ts, false, []);
    NothingBefore(DirectivesIn(ts[..m]));
    Slices(all, n, m);
    if o.next.state == BlockNode {
      NothingRead(ts, m, o.event.at, c.tags);
      k := 0;
    } else {
      DocumentStartIsSpelled(all, n, m, o.event, c.tags);
      k := n + m + 1;
    }
  }

  lemma NothingBefore(tags: seq<TagDirective>)
    ensures [] + tags == tags
  {
  }

  lemma Slices(ts: seq<Token>, n: nat, m: nat)
    requires n <= |ts| && m < |ts[n..]|
    ensures ts[n..][m..][0] == ts[n + m] && ts[n..][m..][1..] == ts[n + m + 1..]
  {
  }

  lemma NoneSkipped(ts: seq<Token>)
    ensures AllOf(ts[..0], {TDocumentEnd})
  {
  }

  lemma StreamEndIsSpelled(ts: seq<Token>, n: nat, tags: seq<TagDirective>)
    requires n < |ts| && ts[n].kind == TStreamEnd && AllOf(ts[..n], {TDocumentEnd})
    ensures Spells(StreamEnd(ts[n].start), ts[..n + 1], tags)
  {
    assert Front(ts[..n + 1]) == ts[..n] && Last(ts[..n + 1]) == ts[n];
  }

  lemma DocumentStartIsSpelled(ts: seq<Token>, n: nat, k: nat, e: Event, tags: seq<TagDirective>)
    requires n + k < |ts| && ts[n + k].kind == TDocumentStart && AllOf(ts[..n], {TDocumentEnd})
    requires AllOf(ts[n..][..k], {TVersionDirective, TTagDirective}) && e.DocumentStart?
    requires e.tags == DirectivesIn(ts[n..][..k]) && e.version == HasVersion(ts[n..][..k])
    ensures Spells(e, ts[..n + k + 1], tags)
  {
    hide DirectivesIn, HasVersion;
    var a, b, m := ts[..n], ts[n..][..k], n + k + 1;
    EndsSayNothing(a, b, ts[n + k]);
    assert ts[..m] == a + b + [ts[n + k]];
    assert Front(ts[..m]) == a + b && Last(ts[..m]) == ts[n + k];
  }

  lemma NothingRead(ts: seq<Token>, k: nat, at: Mark, tags: seq<TagDirective>)
    requires k <= |ts| && AllOf(ts[..k], {TVersionDirective, TTagDirective})
    requires ts != [] && ts[0].kind !in {TVersionDirective, TTagDirective}
    ensures k == 0 && DirectivesIn([]) == [] && Spells(DocumentStart(at, false, []), [], tags)
  {
  }

  // ----- Every run -----

  /** No directive is in force in front of a document. */
  ghost predicate TagsOk(c: Config) {
    Begins(c.state) ==> c.tags == []
  }

  lemma StackReturns(c: Config)
    requires Inv(c) && c.states != []
    ensures Returns(c.states[|c.states| - 1])
  {
  }

  lemma StepIsCut(c: Config)
      returns (k: nat)
    requires Inv(c) && TagsOk(c) && Step(c).Emit?
    ensures var o := Step(c);
            Cuts(Left(c), k, o.event, c.tags, o.next) && o.next.tags == TagsAfter(c.tags, o.event) && TagsOk(o.next)
  {
    hide CollectionOutcome, NodeOutcome, DocumentStartOutcome, Spells, InForce;
    var s := c.state;
    if AtContent(s) {
      k := ContentStepIsCut(c);
    } else if Outside(s) {
      k := OutsideIsCut(c);
    } else {
      if c.states != [] {
        StackReturns(c);
      }
      if AfterFirst(s).Some? {
        k := CollectionIsCut(Drop(c, 1).(marks := c.marks + [c.tokens[0].start]), AfterFirst(s).value, true);
      } else {
        k := CollectionIsCut(c, s, false);
      }
    }
  }

  lemma OutsideIsCut(c: Config)
      returns (k: nat)
    requires Outside(c.state) && TagsOk(c) && Step(c).Emit?
    ensures var o := Step(c);
            Cuts(Left(c), k, o.event, c.tags, o.next) && o.next.tags == TagsAfter(c.tags, o.event) && TagsOk(o.next)
  {
    hide DocumentStartOutcome, Spells, InForce;
    if c.state == ImplicitDocumentStart || c.state == DocumentStartState {
      k := DocumentStartIsCut(c, c.state == ImplicitDocumentStart);
      DocumentIsOpen(c, c.state == ImplicitDocumentStart);
    } else {
      SimplySpelled(c.tokens, c.tags);
      k := |c.tokens| - |Step(c).next.tokens|;
    }
  }

  lemma SimplySpelled(ts: seq<Token>, tags: seq<TagDirective>)
    requires ts != []
    ensures ts[0].kind == TStreamStart ==> Spells(StreamStart(ts[0].start), ts[..1], tags)
    ensures ts[0].kind == TDocumentEnd ==> Spells(DocumentEnd(ts[0].start, false), ts[..1], tags)
    ensures Spells(DocumentEnd(ts[0].start, true), ts[..0], tags)
  {
  }

  lemma DocumentIsOpen(c: Config, implicit: bool)
    requires DocumentStartOutcome(c, implicit).Emit?
    ensures !Begins(DocumentStartOutcome(c, implicit).next.state)
  {
  }

  lemma ContentStepIsCut(c: Config)
      returns (k: nat)
    requires Inv(c) && AtContent(c.state) && Step(c).Emit?
    ensures var o := Step(c);
            && Cuts(Left(c), k, o.event, c.tags, o.next) && o.next.tags == c.tags
            && (o.event.Leaf() || o.event.Opens()) && !Begins(o.next.state)
  {
    hide NodeOutcome, Spells, SpellsNode;
    var ts, o := c.tokens, Step(c);
    assert c.states == [] + [DocumentEndState];
    if c.state == DocumentContent
       && OneOf(ts, 0, {TVersionDirective, TTagDirective, TDocumentStart, TDocumentEnd, TStreamEnd}) {
      NoIndicators();
      EmptyIsSpelled(ts[..0], o.event.at, c.tags);
      k := 0;
    } else {
      k := NodeIsCut(c, true, false, [], DocumentEndState);
      SpelledIsNode(o.event, ts[..k], c.tags);
      NodeIsSpelled(o.event, ts[..k], c.tags);
    }
  }

  lemma NodeIsSpelled(e: Event, ts: seq<Token>, tags: seq<TagDirective>)
    requires SpellsNode(e, ts, tags)
    ensures Spells(e, ts, tags)
  {
    assert ts[..0] == [] && ts[0..] == ts;
  }

  /** The directives that are in force behind some events. */
  ghost function TagsIn(es: seq<Event>): seq<TagDirective> {
    if es == [] then [] else TagsAfter(TagsIn(es[..|es| - 1]), es[|es| - 1])
  }

  /** How many of the tokens have been made into events. */
  function Cut(tokens: seq<Token>, c: Config): int {
    |tokens| - |Left(c)|
  }

  /** The tokens between two cuts spell the event between them. */
  ghost predicate SpelledAt(tokens: seq<Token>, cs: seq<Config>, es: seq<Event>, j: nat)
    requires j < |es| < |cs|
  {
    && 0 <= Cut(tokens, cs[j]) <= Cut(tokens, cs[j + 1]) <= |tokens|
    && Spells(es[j], tokens[Cut(tokens, cs[j])..Cut(tokens, cs[j + 1])], TagsIn(es[..j]))
  }

  /** For every run over every sequence of tokens: the tokens fall into pieces, and each piece spells its event. */
  lemma {:induction false} EventsSpellTokens(tokens: seq<Token>, cs: seq<Config>, es: seq<Event>, i: nat)
    requires IsRun(tokens, cs, es) && i <= |es|
    ensures Cut(tokens, cs[0]) == 0 && forall j :: 0 <= j < i ==> SpelledAt(tokens, cs, es, j)
    ensures 0 <= Cut(tokens, cs[i]) <= |tokens| && Left(cs[i]) == tokens[Cut(tokens, cs[i])..]
    ensures cs[i].tags == TagsIn(es[..i]) && TagsOk(cs[i])
  {
    hide Step, Inv, Spells, TagsAfter, SpelledAt, Left, Cut, TagsOk, TagsIn;
    if i == 0 {
      StartIsUncut(tokens);
      assert es[..0] == [];
    } else {
      EventsSpellTokens(tokens, cs, es, i - 1);
      RunIsNested(tokens, cs, es, i - 1);
      assert Step(cs[i - 1]) == Emit(es[i - 1], cs[i]);
      var k := StepIsCut(cs[i - 1]);
      TagsNext(es, i - 1);
      PieceIsSpelled(tokens, cs, es, i - 1, k);
    }
  }

  lemma StartIsUncut(tokens: seq<Token>)
    ensures var c := Config(tokens, StreamStartState, [], [], []);
            Cut(tokens, c) == 0 && Left(c) == tokens[0..] && TagsIn([]) == [] && TagsOk(c)
  {
  }

  lemma TagsNext(es: seq<Event>, i: nat)
    requires i < |es|
    ensures TagsIn(es[..i + 1]) == TagsAfter(TagsIn(es[..i]), es[i])
  {
    assert es[..i + 1][..i] == es[..i];
  }

  lemma PieceIsSpelled(tokens: seq<Token>, cs: seq<Config>, es: seq<Event>, j: nat, k: nat)
    requires j < |es| < |cs| && 0 <= Cut(tokens, cs[j]) <= |tokens| && Left(cs[j]) == tokens[Cut(tokens, cs[j])..]
    requires Cuts(Left(cs[j]), k, es[j], TagsIn(es[..j]), cs[j + 1])
    ensures SpelledAt(tokens, cs, es, j)
    ensures 0 <= Cut(tokens, cs[j + 1]) <= |tokens| && Left(cs[j + 1]) == tokens[Cut(tokens, cs[j + 1])..]
  {
    hide Spells, TagsIn, Left;
    var from, left := Cut(tokens, cs[j]), Left(cs[j]);
    assert left[..k] == tokens[from..from + k] && left[k..] == tokens[from + k..];
  }

  // ----- Anchors, aliases and values in order -----

  datatype Item = AnchorItem(name: string) | AliasItem(name: string) | ValueItem(value: string, style: Style)

  /** An anchor without a name says nothing, and neither does an empty plain scalar, which may stand for nothing. */
  function AnchorSays(name: string): seq<Item> {
    if name == "" then [] else [AnchorItem(name)]
  }

  function ValueSays(value: string, style: Style): seq<Item> {
    if value == "" && style.Plain? then [] else [ValueItem(value, style)]
  }

  function TokenSays(t: Token): seq<Item> {
    match t.kind
    case TAnchor => AnchorSays(t.value)
    case TAlias => [AliasItem(t.value)]
    case TScalar => ValueSays(t.value, t.style)
    case _ => []
  }

  function TokensSay(ts: seq<Token>): seq<Item> {
    if ts == [] then [] else TokensSay(ts[..|ts| - 1]) + TokenSays(ts[|ts| - 1])
  }

  function EventSays(e: Event): seq<Item> {
    match e
    case Alias(_, name) => [AliasItem(name)]
    case Scalar(_, anchor, _, value, _, _, style) => AnchorSays(anchor) + ValueSays(value, style)
    case SequenceStart(_, anchor, _, _, _) => AnchorSays(anchor)
    case MappingStart(_, anchor, _, _, _) => AnchorSays(anchor)
    case _ => []
  }

  function EventsSay(es: seq<Event>): seq<Item> {
    if es == [] then [] else EventsSay(es[..|es| - 1]) + EventSays(es[|es| - 1])
  }

  lemma {:induction false} TokensSayParts(a: seq<Token>, b: seq<Token>)
    ensures TokensSay(a + b) == TokensSay(a) + TokensSay(b)
    decreases |b|
  {
    hide TokenSays;
    if b == [] {
      assert a + b == a && TokensSay(a) + [] == TokensSay(a);
    } else {
      var n := |b| - 1;
      assert (a + b)[..|a + b| - 1] == a + b[..n] && (a + b)[|a + b| - 1] == b[n];
      TokensSayParts(a, b[..n]);
      assert TokensSay(a) + TokensSay(b[..n]) + TokenSays(b[n]) == TokensSay(a) + (TokensSay(b[..n]) + TokenSays(b[n]));
    }
  }

  lemma {:induction false} NothingSaid(ts: seq<Token>)
    requires forall i :: 0 <= i < |ts| ==> TokenSays(ts[i]) == []
    ensures TokensSay(ts) == []
  {
    if ts != [] {
      NothingSaid(ts[..|ts| - 1]);
    }
  }

  lemma NamedSays(ts: seq<Token>, tags: seq<TagDirective>, anchor: string, tag: string)
    requires Named(ts, tags, anchor, tag)
    ensures TokensSay(ts) == AnchorSays(anchor)
  {
    hide Joined, TokensSay, AnchorSays;
    NoTokens();
    if |ts| == 1 {
      assert ts == [ts[0]];
      OneSays(ts[0]);
    } else if |ts| == 2 {
      assert ts == [ts[0], ts[1]];
      TwoSay(ts[0], ts[1]);
    }
  }

  lemma NoTokens()
    ensures TokensSay([]) == [] == AnchorSays("")
  {
  }

  lemma TwoSay(a: Token, b: Token)
    ensures TokensSay([a, b]) == TokenSays(a) + TokenSays(b)
  {
    hide TokenSays, TokensSay;
    assert [a, b] == [a] + [b];
    TokensSayParts([a], [b]);
    OneSays(a);
    OneSays(b);
  }

  lemma OneSays(t: Token)
    ensures TokensSay([t]) == TokenSays(t)
  {
    assert [t][..0] == [] && [] + TokenSays(t) == TokenSays(t);
  }

  lemma ThenSays(ts: seq<Token>, tags: seq<TagDirective>, anchor: string, tag: string)
    requires ts != [] && Named(Front(ts), tags, anchor, tag)
    ensures TokensSay(ts) == AnchorSays(anchor) + TokenSays(Last(ts))
  {
    hide Named, TokenSays;
    NamedSays(Front(ts), tags, anchor, tag);
  }

  lemma Nameless(tags: seq<TagDirective>)
    ensures Named([], tags, "", "")
  {
  }

  lemma NodeSays(e: Event, ts: seq<Token>, tags: seq<TagDirective>)
    requires SpellsNode(e, ts, tags)
    ensures TokensSay(ts) == EventSays(e)
  {
    hide Named, TokensSay, AnchorSays;
    Nameless(tags);
    if e.Alias? {
      assert ts == [ts[0]];
      OneSays(ts[0]);
    } else if Named(ts, tags, e.anchor, e.tag) {
      NamedSays(ts, tags, e.anchor, e.tag);
      NamedLength(ts, tags, e.anchor, e.tag);
      assert AnchorSays(e.anchor) + [] == AnchorSays(e.anchor);
    } else {
      ThenSays(ts, tags, e.anchor, e.tag);
      assert AnchorSays(e.anchor) + [] == AnchorSays(e.anchor);
    }
  }

  lemma NodePieceSays(e: Event, ts: seq<Token>, k: nat, tags: seq<TagDirective>)
    requires k <= |ts| && Indicators(ts[..k]) && SpellsNode(e, ts[k..], tags)
    ensures TokensSay(ts) == EventSays(e)
  {
    hide SpellsNode, TokensSay, EventSays, Indicators;
    assert ts == ts[..k] + ts[k..];
    TokensSayParts(ts[..k], ts[k..]);
    IndicatorsSayNothing(ts[..k]);
    NodeSays(e, ts[k..], tags);
  }

  lemma IndicatorsSayNothing(ts: seq<Token>)
    requires Indicators(ts)
    ensures TokensSay(ts) == []
  {
    NothingSaid(ts);
  }

  lemma OtherPieceSays(e: Event, ts: seq<Token>, tags: seq<TagDirective>)
    requires Spells(e, ts, tags) && !e.Leaf() && !e.Opens()
    ensures TokensSay(ts) == []
  {
    hide HasVersion, DirectivesIn;
    forall i | 0 <= i < |ts| ensures TokenSays(ts[i]) == [] {
      assert i < |ts| - 1 ==> ts[i] == Front(ts)[i];
    }
    NothingSaid(ts);
  }

  lemma PieceSays(e: Event, ts: seq<Token>, tags: seq<TagDirective>)
    requires Spells(e, ts, tags)
    ensures TokensSay(ts) == EventSays(e)
  {
    hide SpellsNode, Indicators, HasVersion, DirectivesIn, TokensSay;
    if !e.Leaf() && !e.Opens() {
      OtherPieceSays(e, ts, tags);
    } else if exists k :: 0 <= k <= |ts| && Indicators(ts[..k]) && SpellsNode(e, ts[k..], tags) {
      var k :| 0 <= k <= |ts| && Indicators(ts[..k]) && SpellsNode(e, ts[k..], tags);
      NodePieceSays(e, ts, k, tags);
    } else {
      NothingSaid(ts);
      NothingSaid([]);
      NodeSays(e, [], tags);
    }
  }

  /**
   For every run over every sequence of tokens: the anchors, aliases and values of the events are those of the tokens
   taken so far, in the same order.
   */
  lemma {:induction false} EventsSayTokens(tokens: seq<Token>, cs: seq<Config>, es: seq<Event>, i: nat)
    requires IsRun(tokens, cs, es) && i <= |es|
    ensures 0 <= Cut(tokens, cs[i]) <= |tokens| && TokensSay(tokens[..Cut(tokens, cs[i])]) == EventsSay(es[..i])
  {
    hide Step, Cut, SpelledAt;
    EventsSpellTokens(tokens, cs, es, i);
    if i == 0 {
      assert tokens[..0] == [] && es[..0] == [];
    } else {
      EventsSayTokens(tokens, cs, es, i - 1);
      SpelledSays(tokens, cs, es, i - 1);
      assert es[..i][..i - 1] == es[..i - 1] && es[..i][i - 1] == es[i - 1];
    }
  }

  lemma SpelledSays(tokens: seq<Token>, cs: seq<Config>, es: seq<Event>, j: nat)
    requires j < |es| < |cs| && SpelledAt(tokens, cs, es, j)
    ensures TokensSay(tokens[..Cut(tokens, cs[j + 1])]) == TokensSay(tokens[..Cut(tokens, cs[j])]) + EventSays(es[j])
  {
    hide Spells, Cut;
    var a, b := Cut(tokens, cs[j]), Cut(tokens, cs[j + 1]);
    assert tokens[..b] == tokens[..a] + tokens[a..b];
    TokensSayParts(tokens[..a], tokens[a..b]);
    PieceSays(es[j], tokens[a..b], TagsIn(es[..j]));
  }
}
