/** From the pieces of a text to the tree of its first document: the scanner's tokens are what the parser reads. */
module YamlStream {
  import opened Wrappers
  import opened YamlGrammar
  import opened YamlQueue
  import opened YamlFetch
  import opened YamlTokens
  import opened YamlScanner
  import opened YamlNesting
  import opened YamlTree

  function ToToken(t: Scanned): Token {
    Token(t.kind, t.text.value, t.text.suffix, t.text.prefix, t.text.style, t.text.major, t.text.minor, t.start.index,
          t.end.index)
  }

  function ToTokens(ts: seq<Scanned>): (r: seq<Token>)
    ensures |r| == |ts| && forall i :: 0 <= i < |ts| ==> r[i] == ToToken(ts[i])
  {
    seq(|ts|, i requires 0 <= i < |ts| => ToToken(ts[i]))
  }

  /** The tree of the first document of a text. */
  method LoadStream(inputs: seq<Input>) returns (r: Loaded, status: Status)
    ensures status == ScanRun(START, inputs).status
    ensures exists t :: LoadPost(ToTokens(ScanRun(START, inputs).out), t, r)
  {
    hide LoadPost, ScanRun, START;
    var out;
    out, status := ScanAll(inputs);
    r := Load(ToTokens(out));
  }

  /** The text determines the result. */
  lemma StreamResultIsUnique(inputs: seq<Input>, t: Trace, r: Loaded, u: Trace, s: Loaded)
    requires var tokens := ToTokens(ScanRun(START, inputs).out); LoadPost(tokens, t, r) && LoadPost(tokens, u, s)
    ensures r == s
  {
    hide LoadPost, ScanRun, START;
    ResultIsUnique(ToTokens(ScanRun(START, inputs).out), t, r, u, s);
  }

  lemma StreamEndNeedsToken(c: Config)
    requires c.state == ImplicitDocumentStart && Step(c).Emit? && Step(c).event.StreamEnd?
    ensures c.tokens != [] && c.tokens[0].kind == TStreamEnd
  {
  }

  lemma StreamStartIsFirst(c: Config)
    requires c.state == StreamStartState && Step(c).Emit?
    ensures c.tokens != [] && Step(c).next.state == ImplicitDocumentStart && Step(c).next.tokens == c.tokens[1..]
  {
  }

  /** A text is empty only if the scanner got to its end. */
  lemma EmptyIsDone(inputs: seq<Input>, t: Trace)
    requires LoadPost(ToTokens(ScanRun(START, inputs).out), t, Empty)
    ensures ScanRun(START, inputs).status == Done
  {
    hide ScanRun, START, Step, FlowFrom, Own, Depth, Balanced, TokensOf;
    var out := ScanRun(START, inputs).out;
    TokensAreSound(inputs);
    assert Step(t.cs[0]) == Emit(t.log[0], t.cs[1]) && Step(t.cs[1]) == Emit(t.log[1], t.cs[2]);
    StreamStartIsFirst(t.cs[0]);
    StreamEndNeedsToken(t.cs[1]);
    assert out[1].kind == TStreamEnd;
  }
}
