/** Fetching tokens into the queue and handing them out. */
module YamlScanner {
  import opened Wrappers
  import opened YamlGrammar
  import opened YamlQueue
  import opened YamlFetch
  import opened YamlTokens

  /** The queue after an insertion. */
  function Inserted(queue: seq<Scanned>, pos: int, t: Scanned): seq<Scanned>
    requires -1 <= pos <= |queue|
  {
    if pos < 0 then queue + [t] else queue[..pos] + [t] + queue[pos..]
  }

  class Scanner {
    // Tokens in front of `head` have been handed out.
    var tokens: seq<Scanned>
    var head: nat
    var tokensParsed: nat
    var tokenAvailable: bool
    var simpleKeys: seq<SimpleKey>
    var simpleKeyAllowed: bool
    var flowLevel: nat
    var indent: int
    var indents: seq<int>
    var mark: Position
    var started: bool
    /** The tokens that have been handed out. */
    ghost var taken: seq<Scanned>

    constructor ()
      ensures Valid() && !started && !tokenAvailable
    {
      tokens, head, tokensParsed, tokenAvailable := [], 0, 0, false;
      simpleKeys, simpleKeyAllowed, flowLevel := [], false, 0;
      indent, indents := 0, [];
      mark, started, taken := ORIGIN, false, [];
    }

    ghost function Now(): Core
      reads this
      requires head <= |tokens|
    {
      Core(taken, tokens[head..], simpleKeys, flowLevel, indent, indents)
    }

    ghost function View(): Scan
      reads this
      requires head <= |tokens|
    {
      Scan(Now(), simpleKeyAllowed, mark)
    }

    /** The invariant, for the time when `pending` is about to join the queue. */
    ghost predicate Sound(pending: seq<Scanned>)
      reads this
    {
      && head <= |tokens| && tokensParsed == |taken| && started
      && Ok(Now(), pending) && |simpleKeys| == flowLevel + 1
    }

    ghost predicate Valid()
      reads this
    {
      if started then Sound([])
      else head <= |tokens| && tokensParsed == 0 && Now() == Core([], [], [], 0, indent, []) && mark == ORIGIN
    }

    /** A fetching method has done what the function says. */
    ghost predicate Follows(f: Fetch, status: Status)
      reads this
    {
      match f
      case Fetched(s) => status == Done && started && Valid() && View() == s
      case Failure => status == Failed
      case Panic => status == Panicked
    }

    /** Put a token into the queue at a position, or behind it. */
    method InsertToken(pos: int, token: Scanned)
      requires head <= |tokens| && -1 <= pos <= |tokens| - head
      modifies this`tokens, this`head
      ensures head <= |tokens| && tokens[head..] == Inserted(old(tokens[head..]), pos, token)
    {
      var full: bool := *;  // the slice has no room left
      if head > 0 && full {
        tokens := tokens[head..];
        head := 0;
      }
      tokens := tokens + [token];
      if pos < 0 {
        return;
      }
      var at := head + pos;
      tokens := tokens[..at + 1] + tokens[at..|tokens| - 1];
      tokens := tokens[at := token];
    }

    method AppendToken(token: Scanned)
      requires Sound([token]) && Weight(token.kind) == 0
      modifies this`tokens, this`head
      ensures Valid() && Now() == Add(old(Now()), token)
    {
      hide Ok;
      OkAppend(Now(), token);
      InsertToken(-1, token);
    }

    /** Give up the keys that have become too old; it is an error if one of them was required. */
    method StaleSimpleKeys() returns (ok: bool)
      requires Valid() && started
      modifies this`simpleKeys
      ensures Valid() && ok == !KeyLost(old(simpleKeys), mark)
      ensures ok ==> simpleKeys == WithoutStale(old(simpleKeys), mark)
    {
      hide Ok;
      var i := 0;
      while i < |simpleKeys|
        invariant 0 <= i <= |simpleKeys| == |old(simpleKeys)| && Valid()
        invariant simpleKeys[..i] == WithoutStale(old(simpleKeys)[..i], mark) && simpleKeys[i..] == old(simpleKeys)[i..]
        invariant forall j :: 0 <= j < i ==> !(Stale(old(simpleKeys)[j], mark) && old(simpleKeys)[j].required)
      {
        var key := simpleKeys[i];
        assert key == old(simpleKeys)[i];
        if key.possible && (key.mark.line < mark.line || key.mark.index + 1024 < mark.index) {
          if key.required {
            return false;
          }
          OkForget(Now(), [], i);
          simpleKeys := simpleKeys[i := key.(possible := false)];
        }
        i := i + 1;
      }
      return true;
    }

    /** Give up the key of the current flow level; it is an error if one was required. */
    method RemoveSimpleKey() returns (ok: bool)
      requires Valid() && started
      modifies this`simpleKeys
      ensures Valid() && ok == !NeedsValue(old(Now())) && Now() == if ok then Forget(old(Now())) else old(Now())
    {
      hide Ok;
      var n := |simpleKeys| - 1;
      if simpleKeys[n].possible && simpleKeys[n].required {
        return false;
      }
      OkForget(Now(), [], n);
      simpleKeys := simpleKeys[n := simpleKeys[n].(possible := false)];
      return true;
    }

    /** The token that is about to be scanned may be a key. */
    method SaveSimpleKey(ghost token: Scanned) returns (status: Status)
      requires Valid() && started && token.start == mark && StartsKey(token.kind)
      modifies this`simpleKeys
      ensures match SaveKey(old(View()))
              case Fetched(s) => status == Done && Sound([token]) && View() == s
              case Failure => status == Failed
              case Panic => status == Panicked
    {
      hide Ok;
      var required := flowLevel == 0 && indent == mark.column;
      if required && !simpleKeyAllowed {
        return Panicked;
      }
      if simpleKeyAllowed {
        var key := SimpleKey(true, required, tokensParsed + (|tokens| - head), mark);
        var ok := RemoveSimpleKey();
        if !ok {
          return Failed;
        }
        OkSave(Now(), token, key);
        simpleKeys := simpleKeys[|simpleKeys| - 1 := key];
      } else {
        OkPending(Now(), token);
      }
      return Done;
    }

    method IncreaseFlowLevel(ghost token: Scanned)
      requires Sound([token])
      modifies this`simpleKeys, this`flowLevel
      ensures Sound([token]) && Now() == Deeper(old(Now()))
    {
      hide Ok;
      OkDeeper(Now(), token);
      simpleKeys := simpleKeys + [NO_KEY];
      flowLevel := flowLevel + 1;
    }

    method DecreaseFlowLevel()
      requires Valid() && started
      modifies this`simpleKeys, this`flowLevel
      ensures Valid() && Now() == Shallower(old(Now()))
    {
      hide Ok;
      if flowLevel > 0 {
        OkShallower(Now());
        flowLevel := flowLevel - 1;
        simpleKeys := simpleKeys[..|simpleKeys| - 1];
      }
    }

    /** Open a block collection if the column is deeper than the current indentation level. */
    method RollIndent(column: nat, number: Option<nat>, kind: TokenKind, at: Position)
      requires head <= |tokens| && (number.Some? ==> tokensParsed <= number.value <= tokensParsed + |tokens| - head)
      modifies this`tokens, this`head, this`indent, this`indents
      ensures head <= |tokens|
      ensures if flowLevel > 0 || old(indent) >= column then
                tokens[head..] == old(tokens[head..]) && indent == old(indent) && indents == old(indents)
              else
                && indent == column && indents == old(indents) + [old(indent)]
                && tokens[head..] == Inserted(old(tokens[head..]), if number.Some? then number.value - tokensParsed else
                                                -1, Scanned(kind, at, at))
    {
      if flowLevel > 0 {
        return;
      }
      if indent < column {
        indents := indents + [indent];
        indent := column;
        InsertToken(if number.Some? then number.value - tokensParsed else -1, Scanned(kind, at, at));
      }
    }

    /** Open a block collection behind the queue. */
    method RollAtMark(kind: TokenKind)
      requires Valid() && started && Weight(kind) == 1
      modifies this`tokens, this`head, this`indent, this`indents
      ensures Valid() && Now() == OpenBlock(old(Now()), kind, mark)
    {
      hide Ok;
      if flowLevel == 0 && indent < mark.column {
        OkOpen(Now(), Scanned(kind, mark, mark), mark.column);
      }
      RollIndent(mark.column, None, kind, mark);
    }

    /** Close the block collections that are deeper than the column. */
    method UnrollIndent(column: int)
      requires Valid() && started && column >= -1
      modifies this`tokens, this`head, this`indent, this`indents
      ensures Valid() && Now() == CloseBlocks(old(Now()), column, mark)
    {
      hide Ok;
      if flowLevel > 0 {
        return;
      }
      while indent > column
        invariant Valid() && CloseBlocks(Now(), column, mark) == CloseBlocks(old(Now()), column, mark)
        decreases |indents|
      {
        var token := Scanned(TBlockEnd, mark, mark);
        OkClose(Now(), token);
        InsertToken(-1, token);
        indent := indents[|indents| - 1];
        indents := indents[..|indents| - 1];
      }
    }

    // ----- Fetching -----

    method FetchStreamStart()
      requires Valid() && !started
      modifies this
      ensures Valid() && started && View() == START && tokenAvailable == old(tokenAvailable)
    {
      hide Ok;
      indent := -1;
      simpleKeys := simpleKeys + [NO_KEY];
      simpleKeyAllowed := true;
      started := true;
      OkStart(Scanned(TStreamStart, mark, mark));
      InsertToken(-1, Scanned(TStreamStart, mark, mark));
      assert Now() == Core([], [Scanned(TStreamStart, mark, mark)], [NO_KEY], 0, -1, []);
    }

    /** The end of the stream, a directive, or the start or the end of a document: everything is closed. */
    method FetchBoundary(kind: TokenKind, end: Position, text: Text) returns (status: Status)
      requires Valid() && started
               && kind in {TStreamEnd, TVersionDirective, TTagDirective, TDocumentStart, TDocumentEnd}
      modifies this
      ensures Follows(Boundary(old(View()), Scanned(kind, old(mark), end, text)), status)
              && tokenAvailable == old(tokenAvailable)
    {
      hide Ok;
      UnrollIndent(-1);
      var ok := RemoveSimpleKey();
      if !ok {
        return Failed;
      }
      simpleKeyAllowed := false;
      var token := Scanned(kind, mark, end, text);
      mark := end;
      OkPending(Now(), token);
      AppendToken(token);
      return Done;
    }

    method FetchStreamEnd() returns (status: Status)
      requires Valid() && started
      modifies this
      ensures var at := LineEnd(old(mark));
              Follows(Boundary(old(View()).(mark := at), Scanned(TStreamEnd, at, at)), status)
      ensures tokenAvailable == old(tokenAvailable)
    {
      hide Ok, Boundary;
      if mark.column != 0 {
        mark := Position(mark.index, mark.line + 1, 0);
      }
      status := FetchBoundary(TStreamEnd, mark, NO_TEXT);
    }

    method FetchFlowCollectionStart(sequence: bool, end: Position, text: Text) returns (status: Status)
      requires Valid() && started
      modifies this
      ensures var token := Scanned(if sequence then TFlowSequenceStart else TFlowMappingStart, old(mark), end, text);
              Follows(KeyToken(old(View()), token, true, true), status)
      ensures tokenAvailable == old(tokenAvailable)
    {
      hide Ok;
      var token := Scanned(if sequence then TFlowSequenceStart else TFlowMappingStart, mark, end, text);
      status := SaveSimpleKey(token);
      if !status.Done? {
        return;
      }
      IncreaseFlowLevel(token);
      simpleKeyAllowed := true;
      mark := end;
      AppendToken(token);
    }

    /** An anchor, an alias, a tag or a scalar. */
    method FetchKeyToken(kind: TokenKind, wellFormed: bool, end: Position, text: Text) returns (status: Status)
      requires Valid() && started && kind in {TAnchor, TAlias, TTag, TScalar}
      modifies this
      ensures Follows(KeyToken(old(View()), Scanned(kind, old(mark), end, text), wellFormed, false), status)
      ensures tokenAvailable == old(tokenAvailable)
    {
      hide Ok;
      var token := Scanned(kind, mark, end, text);
      status := SaveSimpleKey(token);
      if !status.Done? {
        return;
      }
      simpleKeyAllowed := false;
      if !wellFormed {
        return Failed;
      }
      mark := end;
      AppendToken(token);
    }

    /** The key of the current level is given up, and a token follows. */
    method FetchPlain(kind: TokenKind, end: Position, text: Text, allowed: bool) returns (status: Status)
      requires Valid() && started && Weight(kind) == 0
      modifies this
      ensures Follows(PlainToken(old(View()), Scanned(kind, old(mark), end, text), allowed), status)
              && tokenAvailable == old(tokenAvailable)
    {
      hide Ok;
      var ok := RemoveSimpleKey();
      if !ok {
        return Failed;
      }
      simpleKeyAllowed := allowed;
      var token := Scanned(kind, mark, end, text);
      mark := end;
      OkPending(Now(), token);
      AppendToken(token);
      return Done;
    }

    method FetchFlowCollectionEnd(sequence: bool, end: Position, text: Text) returns (status: Status)
      requires Valid() && started
      modifies this
      ensures var token := Scanned(if sequence then TFlowSequenceEnd else TFlowMappingEnd, old(mark), end, text);
              Follows(FlowEndToken(old(View()), token), status)
      ensures tokenAvailable == old(tokenAvailable)
    {
      hide Ok;
      var ok := RemoveSimpleKey();
      if !ok {
        return Failed;
      }
      DecreaseFlowLevel();
      simpleKeyAllowed := false;
      var token := Scanned(if sequence then TFlowSequenceEnd else TFlowMappingEnd, mark, end, text);
      mark := end;
      OkPending(Now(), token);
      AppendToken(token);
      return Done;
    }

    /** `-` or `?`: a block collection may open in front of it. */
    method FetchIndicator(entry: bool, end: Position, text: Text) returns (status: Status)
      requires Valid() && started
      modifies this
      ensures Follows(Indicator(old(View()), Scanned(if entry then TBlockEntry else TKey, old(mark), end, text), entry),
                      status)
      ensures tokenAvailable == old(tokenAvailable)
    {
      hide Ok, PlainToken;
      if flowLevel == 0 {
        if !simpleKeyAllowed {
          return Failed;
        }
        RollAtMark(if entry then TBlockSequenceStart else TBlockMappingStart);
      }
      status := FetchPlain(if entry then TBlockEntry else TKey, end, text, entry || flowLevel == 0);
    }

    /** The key that was possible has been found: its tokens go just in front of it. */
    method InsertKey()
      requires Valid() && started && simpleKeys[flowLevel].possible
      modifies this
      ensures Valid() && started && !simpleKeyAllowed && mark == old(mark) && tokenAvailable == old(tokenAvailable)
      ensures KeyInQueue(old(Now())) && Now() == WithKey(old(Now()))
    {
      hide Ok, KeyTokens, Inserted;
      var n := |simpleKeys| - 1;
      var key := simpleKeys[n];
      OkKey(Now());
      InsertedTwice(tokens[head..], key.tokenNumber - tokensParsed, key);
      InsertToken(key.tokenNumber - tokensParsed, Scanned(TKey, key.mark, key.mark));
      RollIndent(key.mark.column, Some(key.tokenNumber), TBlockMappingStart, key.mark);
      simpleKeys := simpleKeys[n := key.(possible := false)];
      simpleKeyAllowed := false;
    }

    method FetchValue(end: Position, text: Text) returns (status: Status)
      requires Valid() && started
      modifies this
      ensures Follows(ValueToken(old(View()), Scanned(TValue, old(mark), end, text)), status)
              && tokenAvailable == old(tokenAvailable)
    {
      hide Ok, KeyTokens, WithKey;
      if simpleKeys[|simpleKeys| - 1].possible {
        InsertKey();
      } else {
        if flowLevel == 0 {
          if !simpleKeyAllowed {
            return Failed;
          }
          RollAtMark(TBlockMappingStart);
        }
        simpleKeyAllowed := flowLevel == 0;
      }
      var token := Scanned(TValue, mark, end, text);
      mark := end;
      OkPending(Now(), token);
      AppendToken(token);
      return Done;
    }

    /** White space and comments up to the next token. */
    method ScanToNextToken(to: Position, newLine: bool)
      requires Valid() && started
      modifies this`mark, this`simpleKeyAllowed
      ensures Valid() && mark == to && simpleKeyAllowed == (old(simpleKeyAllowed) || (newLine && flowLevel == 0))
    {
      mark := to;
      if newLine && flowLevel == 0 {
        simpleKeyAllowed := true;
      }
    }

    /** Go to the next token, and close the blocks that it is not part of. */
    method GoToNextToken(input: Input) returns (status: Status)
      requires Valid() && started
      modifies this
      ensures Follows(Approach(old(View()), input), status) && tokenAvailable == old(tokenAvailable)
    {
      hide Ok, KeyLost;
      ScanToNextToken(input.mark, input.newLine);
      var ok := StaleSimpleKeys();
      if !ok {
        return Failed;
      }
      UnrollIndent(mark.column);
      return Done;
    }

    method FetchToken(input: Input) returns (status: Status)
      requires Valid() && started && mark == input.mark
      modifies this
      ensures Follows(Dispatch(old(View()), input), status) && tokenAvailable == old(tokenAvailable)
    {
      hide Ok, Boundary, PlainToken, FlowEndToken, Indicator, ValueToken, KeyToken;
      match input.what {
        case EndOfStream => status := FetchStreamEnd();
        case Directive(version) =>
          status := FetchBoundary(if version then TVersionDirective else TTagDirective, input.end, input.text);
          if !input.wellFormed {
            return Failed;
          }
        case DocumentIndicator(start) =>
          status := FetchBoundary(if start then TDocumentStart else TDocumentEnd, input.end, input.text);
        case FlowStart(sequence) => status := FetchFlowCollectionStart(sequence, input.end, input.text);
        case FlowEnd(sequence) => status := FetchFlowCollectionEnd(sequence, input.end, input.text);
        case FlowEntryMark => status := FetchPlain(TFlowEntry, input.end, input.text, true);
        case BlockEntryMark => status := FetchIndicator(true, input.end, input.text);
        case KeyMark => status := FetchIndicator(false, input.end, input.text);
        case ValueMark => status := FetchValue(input.end, input.text);
        case AnchorMark(alias) =>
          status := FetchKeyToken(if alias then TAlias else TAnchor, input.wellFormed, input.end, input.text);
        case TagMark => status := FetchKeyToken(TTag, input.wellFormed, input.end, input.text);
        case ScalarMark => status := FetchKeyToken(TScalar, input.wellFormed, input.end, input.text);
        case BlockScalarMark =>
          status := FetchPlain(TScalar, input.end, input.text, true);
          if !input.wellFormed {
            return Failed;
          }
        case BadCharacter => status := Failed;
      }
    }

    method FetchNextToken(input: Input) returns (status: Status)
      requires Valid() && started
      modifies this
      ensures Follows(FetchNext(old(View()), input), status) && tokenAvailable == old(tokenAvailable)
    {
      hide Ok, Approach, Dispatch;
      status := GoToNextToken(input);
      if status.Done? {
        ApproachMark(old(View()), input);
        status := FetchToken(input);
      }
    }

    // ----- Handing out -----

    /** The first token of the queue can be handed out: no key names it. */
    ghost predicate Ready()
      reads this
    {
      Valid() && started && !NeedsMore(Now())
    }

    method NeedMoreTokens() returns (ok: bool, need: bool)
      requires Valid() && started
      modifies this`simpleKeys
      ensures Valid() && ok == Prepared(old(View())).Fetched?
      ensures ok ==> View() == Prepared(old(View())).state && need == NeedsMore(Now())
    {
      hide Ok, KeyLost;
      if head == |tokens| {
        return true, true;
      }
      ok := StaleSimpleKeys();
      need := false;
      var i := 0;
      while i < |simpleKeys|
        invariant 0 <= i <= |simpleKeys|
        invariant !need && forall j :: 0 <= j < i && simpleKeys[j].possible
                                       ==> simpleKeys[j].tokenNumber != tokensParsed
      {
        if simpleKeys[i].possible && simpleKeys[i].tokenNumber == tokensParsed {
          need := true;
          return;
        }
        i := i + 1;
      }
    }

    /** The state, with the start of the stream in the queue. */
    ghost function Begun(): Scan
      reads this
      requires head <= |tokens|
    {
      if started then View() else START
    }

    /** Fetch until a token can be handed out, or the inputs are used up. */
    method FetchMoreTokens(inputs: seq<Input>) returns (status: Status, used: nat)
      requires Valid()
      modifies this
      ensures var m := FetchMore(old(Begun()), inputs);
              && status == m.status && used == m.used
              && (status.Done? ==> tokenAvailable && Ready() && View() == m.state)
    {
      hide Ok, FetchNext, NeedsMore, Prepared;
      used := 0;
      ghost var all := FetchMore(Begun(), inputs);
      if !started {
        FetchStreamStart();
      }
      assert inputs[0..] == inputs;
      while true
        invariant used <= |inputs| && Valid() && started && tokenAvailable == old(tokenAvailable)
        invariant var m := FetchMore(View(), inputs[used..]); all == m.(used := m.used + used)
        decreases |inputs| - used
      {
        ghost var s := View();
        MoreStep(s, inputs[used..]);
        var ok, need := NeedMoreTokens();
        if !ok {
          return Failed, used;
        }
        if !need {
          tokenAvailable := true;
          return Done, used;
        }
        if used == |inputs| {
          return Starved, used;
        }
        assert inputs[used..][0] == inputs[used] && inputs[used..][1..] == inputs[used + 1..];
        status := FetchNextToken(inputs[used]);
        used := used + 1;
        if !status.Done? {
          return;
        }
      }
    }

    method TakeToken() returns (t: Scanned)
      requires Ready()
      modifies this`head, this`tokensParsed, this`tokenAvailable, this`taken
      ensures Valid() && !tokenAvailable && t == old(tokens[head]) && View() == Take(old(View()))
    {
      hide Ok;
      OkTake(Now());
      t := tokens[head];
      tokenAvailable := false;
      tokensParsed := tokensParsed + 1;
      head := head + 1;
      taken := taken + [t];
    }
  }

  lemma ApproachMark(s: Scan, input: Input)
    requires Approach(s, input).Fetched?
    ensures Approach(s, input).state.mark == input.mark
  {
  }

  /** One round of fetching more tokens. */
  lemma MoreStep(s: Scan, inputs: seq<Input>)
    ensures var m := FetchMore(s, inputs);
            match Prepared(s)
            case Failure => m == More(Failed, s, 0)
            case Panic => false
            case Fetched(t) =>
              if !NeedsMore(t.core) then m == More(Done, t, 0)
              else if inputs == [] then m == More(Starved, t, 0)
              else
                match FetchNext(t, inputs[0])
                case Failure => m == More(Failed, t, 1)
                case Panic => m == More(Panicked, t, 1)
                case Fetched(u) => var n := FetchMore(u, inputs[1..]); m == n.(used := n.used + 1)
  {
  }

  /** One round of handing out. */
  lemma RunStep(s: Scan, inputs: seq<Input>)
    ensures var m := FetchMore(s, inputs);
            if !m.status.Done? then ScanRun(s, inputs) == Run([], m.status)
            else
              var t := m.state.core.queue[0];
              && (m.used == 0 ==> |Take(m.state).core.queue| < |s.core.queue|)
              && if t.kind == TStreamEnd then ScanRun(s, inputs) == Run([t], Done)
                 else var r := ScanRun(Take(m.state), inputs[m.used..]);
                     ScanRun(s, inputs) == Run([t] + r.out, r.status)
  {
  }

  /** All tokens for the given characters, in the order in which the parser gets them. */
  method ScanAll(inputs: seq<Input>) returns (out: seq<Scanned>, status: Status)
    ensures Run(out, status) == ScanRun(START, inputs)
    ensures Balanced(out) && out != [] && out[0].kind == TStreamStart && Own(out) <= START.core.queue + TokensOf(inputs)
    ensures status.Done? <==> out[|out| - 1].kind == TStreamEnd
    ensures status.Done? && FlowFrom(0, out) == 0 ==> Depth(out) == 0
  {
    hide Ok, Balanced, Depth, FetchMore, FlowFrom, Own, TokensOf, ScanRun, START, NeedsMore;
    TokensAreSound(inputs);
    var scanner := new Scanner();
    out, status := [], Done;
    var i := 0;
    assert inputs[0..] == inputs;
    while true
      invariant i <= |inputs| && scanner.Valid() && !scanner.tokenAvailable
      invariant var rest := ScanRun(scanner.Begun(), inputs[i..]);
                ScanRun(START, inputs) == Run(out + rest.out, rest.status)
      decreases |inputs| - i, |scanner.Begun().core.queue|
    {
      ghost var s := scanner.Begun();
      RunStep(s, inputs[i..]);
      var used;
      status, used := scanner.FetchMoreTokens(inputs[i..]);
      if !status.Done? {
        assert out + [] == out;
        return;
      }
      assert inputs[i..][used..] == inputs[i + used..];
      i := i + used;
      var t := scanner.TakeToken();
      ghost var rest := ScanRun(scanner.View(), inputs[i..]);
      assert out + ([t] + rest.out) == out + [t] + rest.out;
      out := out + [t];
      if t.kind == TStreamEnd {
        return;
      }
    }
  }

  lemma InsertedTwice(queue: seq<Scanned>, p: nat, key: SimpleKey)
    requires p <= |queue|
    ensures Inserted(queue, p, Scanned(TKey, key.mark, key.mark)) == queue[..p] + KeyTokens(key, false) + queue[p..]
    ensures Inserted(Inserted(queue, p, Scanned(TKey, key.mark, key.mark)), p,
                     Scanned(TBlockMappingStart, key.mark, key.mark))
         == queue[..p] + KeyTokens(key, true) + queue[p..]
  {
    var once := Inserted(queue, p, Scanned(TKey, key.mark, key.mark));
    assert once[..p] == queue[..p];
    assert once[p..] == [Scanned(TKey, key.mark, key.mark)] + queue[p..];
  }
}
