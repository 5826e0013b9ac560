/**
 Building the tree of a document from the parser's events, for any tokens. Each event is an opening,
 a closing or a leaf of the tree, and the tree is the only one with these events.
 */
module YamlTree {
  import opened Wrappers
  import opened YamlGrammar
  import opened YamlNesting
  import opened YamlParser

  datatype Kind = DocumentNode | MappingNode | SequenceNode | ScalarNode | AliasNode

  /** A node is known by the number of the event that it begins with. */
  datatype Node = Node(id: nat, kind: Kind, at: Mark, value: string, tag: string, implicit: bool, children: seq<Node>)

  // ----- Trees and events -----

  predicate LeafKind(k: Kind) {
    k == ScalarNode || k == AliasNode
  }

  /** Leaves have no children, a document has one, and each key of a mapping has a value. */
  ghost predicate WellFormed(n: Node) {
    && (LeafKind(n.kind) ==> n.children == [])
    && (n.kind == DocumentNode ==> |n.children| == 1)
    && (n.kind == MappingNode ==> |n.children| % 2 == 0)
    && AllWellFormed(n.children)
  }

  ghost predicate AllWellFormed(ns: seq<Node>) {
    forall i :: 0 <= i < |ns| ==> WellFormed(ns[i])
  }

  datatype Shape =
    | Begin(id: nat, kind: Kind, at: Mark, value: string, tag: string, implicit: bool)
    | End(kind: Kind)
    | NoShape

  function ShapeOf(e: Event, i: nat): Shape {
    match e
    case DocumentStart(at, _, _) => Begin(i, DocumentNode, at, "", "", false)
    case SequenceStart(at, _, _, _, _) => Begin(i, SequenceNode, at, "", "", false)
    case MappingStart(at, _, _, _, _) => Begin(i, MappingNode, at, "", "", false)
    case Scalar(at, _, tag, value, implicit, _, _) => Begin(i, ScalarNode, at, value, tag, implicit)
    case Alias(at, anchor) => Begin(i, AliasNode, at, anchor, "", false)
    case DocumentEnd(_, _) => End(DocumentNode)
    case SequenceEnd(_) => End(SequenceNode)
    case MappingEnd(_) => End(MappingNode)
    case _ => NoShape
  }

  /** The events `from..to`. */
  function Shapes(es: seq<Event>, from: nat, to: nat): (r: seq<Shape>)
    requires from <= to <= |es|
    ensures |r| == to - from && forall k :: 0 <= k < to - from ==> r[k] == ShapeOf(es[from + k], from + k)
  {
    seq(to - from, k requires 0 <= k < to - from => ShapeOf(es[from + k], from + k))
  }

  function BeginOf(n: Node): Shape {
    Begin(n.id, n.kind, n.at, n.value, n.tag, n.implicit)
  }

  /** What a tree looks like when it is walked from its root, front to back. */
  function Flatten(n: Node): seq<Shape> {
    if LeafKind(n.kind) then [BeginOf(n)] else [BeginOf(n)] + FlattenAll(n.children) + [End(n.kind)]
  }

  function FlattenAll(ns: seq<Node>): seq<Shape> {
    if ns == [] then [] else Flatten(ns[0]) + FlattenAll(ns[1..])
  }

  lemma {:induction false} FlattenAppend(ns: seq<Node>, n: Node)
    ensures FlattenAll(ns + [n]) == FlattenAll(ns) + Flatten(n)
  {
    if ns == [] {
      assert FlattenAll([n]) == Flatten(n) + [];
    } else {
      assert (ns + [n])[1..] == ns[1..] + [n];
      FlattenAppend(ns[1..], n);
    }
  }

  // ----- A tree is determined by its events -----

  lemma {:induction false} TreeIsUnique(a: Node, b: Node, x: seq<Shape>, y: seq<Shape>)
    requires WellFormed(a) && WellFormed(b) && Flatten(a) + x == Flatten(b) + y
    ensures a == b && x == y
    decreases a, 1
  {
    assert (Flatten(a) + x)[0] == BeginOf(a) && (Flatten(b) + y)[0] == BeginOf(b);
    if LeafKind(a.kind) {
      assert x == (Flatten(a) + x)[1..] == (Flatten(b) + y)[1..] == y;
    } else {
      assert (Flatten(a) + x)[1..] == FlattenAll(a.children) + ([End(a.kind)] + x);
      assert (Flatten(b) + y)[1..] == FlattenAll(b.children) + ([End(b.kind)] + y);
      ChildrenAreUnique(a.children, b.children, a.kind, x, y);
    }
  }

  lemma FlattenBegins(ns: seq<Node>, k: Kind, x: seq<Shape>)
    ensures var s := FlattenAll(ns) + ([End(k)] + x);
            s != [] && (s[0].End? <==> ns == []) && (ns == [] ==> s == [End(k)] + x)
  {
    if ns != [] {
      assert FlattenAll(ns)[0] == BeginOf(ns[0]);
    }
  }

  lemma {:induction false} ChildrenAreUnique(left: seq<Node>, right: seq<Node>, k: Kind, x: seq<Shape>, y: seq<Shape>)
    requires AllWellFormed(left) && AllWellFormed(right)
    requires FlattenAll(left) + ([End(k)] + x) == FlattenAll(right) + ([End(k)] + y)
    ensures left == right && x == y
    decreases left, 0
  {
    FlattenBegins(left, k, x);
    FlattenBegins(right, k, y);
    if left == [] {
      assert x == ([End(k)] + x)[1..] == ([End(k)] + y)[1..] == y;
    } else {
      var x', y' := FlattenAll(left[1..]) + ([End(k)] + x), FlattenAll(right[1..]) + ([End(k)] + y);
      assert FlattenAll(left) + ([End(k)] + x) == Flatten(left[0]) + x';
      assert FlattenAll(right) + ([End(k)] + y) == Flatten(right[0]) + y';
      TreeIsUnique(left[0], right[0], x', y');
      ChildrenAreUnique(left[1..], right[1..], k, x, y);
    }
  }

  // ----- Anchors -----

  function AnchorOf(e: Event): string {
    match e
    case Scalar(_, anchor, _, _, _, _, _) => anchor
    case SequenceStart(_, anchor, _, _, _) => anchor
    case MappingStart(_, anchor, _, _, _) => anchor
    case _ => ""
  }

  function AddAnchor(m: map<string, nat>, anchor: string, id: nat): map<string, nat> {
    if anchor == "" then m else m[anchor := id]
  }

  /** The last node with each anchor, among the events from `from` on. */
  function LastAnchors(es: seq<Event>, from: nat): map<string, nat> {
    if |es| <= from then map[] else AddAnchor(LastAnchors(es[..|es| - 1], from), AnchorOf(es[|es| - 1]), |es| - 1)
  }

  /** An anchor is known if and only if some event has it, and it stands for the last one. */
  lemma {:induction false} AnchorIsLast(es: seq<Event>, from: nat, name: string)
    requires name != ""
    ensures name in LastAnchors(es, from) <==> exists i :: from <= i < |es| && AnchorOf(es[i]) == name
    ensures name in LastAnchors(es, from) ==>
              var i := LastAnchors(es, from)[name];
              from <= i < |es| && AnchorOf(es[i]) == name && forall j :: i < j < |es| ==> AnchorOf(es[j]) != name
  {
    if |es| > from {
      var n := |es| - 1;
      AnchorIsLast(es[..n], from, name);
      assert forall i :: 0 <= i < n ==> es[..n][i] == es[i];
      if AnchorOf(es[n]) == name {
        assert from <= n < |es|;
      }
    }
  }

  lemma {:induction false} NoEmptyAnchor(es: seq<Event>, from: nat)
    ensures "" !in LastAnchors(es, from)
  {
    if |es| > from {
      NoEmptyAnchor(es[..|es| - 1], from);
    }
  }

  /** A node of the tree. */
  ghost predicate Within(m: Node, n: Node) {
    m == n || exists i :: 0 <= i < |n.children| && Within(m, n.children[i])
  }

  lemma {:induction false} BeginsWithin(n: Node, k: nat) returns (m: Node)
    requires WellFormed(n) && k < |Flatten(n)| && Flatten(n)[k].Begin?
    ensures Within(m, n) && BeginOf(m) == Flatten(n)[k]
    decreases n, 1
  {
    if k == 0 {
      m := n;
    } else {
      assert Flatten(n)[k] == FlattenAll(n.children)[k - 1];
      var i;
      m, i := BeginsWithinAll(n.children, k - 1);
    }
  }

  lemma {:induction false} BeginsWithinAll(ns: seq<Node>, k: nat) returns (m: Node, i: nat)
    requires AllWellFormed(ns) && k < |FlattenAll(ns)| && FlattenAll(ns)[k].Begin?
    ensures i < |ns| && Within(m, ns[i]) && BeginOf(m) == FlattenAll(ns)[k]
    decreases ns, 0
  {
    if k < |Flatten(ns[0])| {
      m := BeginsWithin(ns[0], k);
      i := 0;
    } else {
      m, i := BeginsWithinAll(ns[1..], k - |Flatten(ns[0])|);
      i := i + 1;
    }
  }

  // ----- Runs of the parser -----

  /** What has come out of the parser. */
  datatype Trace = Trace(cs: seq<Config>, log: seq<Event>)

  ghost predicate IsTrace(tokens: seq<Token>, t: Trace) {
    IsRun(tokens, t.cs, t.log)
  }

  function Now(t: Trace): Config
    requires t.cs != []
  {
    t.cs[|t.cs| - 1]
  }

  /** The expectations in front of the last event. */
  function Ctx(t: Trace): seq<Expect>
    requires t.log != [] && |t.cs| == |t.log| + 1
  {
    Expected(t.cs[|t.log| - 1])
  }

  /** No document has ended in front of the last event. */
  ghost predicate OneDocument(t: Trace) {
    forall i :: 0 <= i < |t.log| - 1 ==> !t.log[i].DocumentEnd?
  }

  lemma TraceSize(tokens: seq<Token>, t: Trace)
    requires IsTrace(tokens, t)
    ensures |t.cs| == |t.log| + 1 && t.cs[0] == Config(tokens, StreamStartState, [], [], [])
  {
  }

  lemma StepAt(tokens: seq<Token>, t: Trace, i: nat)
    requires IsTrace(tokens, t) && i < |t.log|
    ensures |t.cs| == |t.log| + 1 && Step(t.cs[i]) == Emit(t.log[i], t.cs[i + 1])
  {
    hide Step;
  }

  lemma Grow(tokens: seq<Token>, t: Trace, e: Event, c: Config)
    requires IsTrace(tokens, t) && t.cs != [] && Step(Now(t)) == Emit(e, c)
    ensures IsTrace(tokens, Trace(t.cs + [c], t.log + [e]))
  {
    hide Step;
  }

  /** The last event of a run is allowed where it stands. */
  lemma LastIsAccepted(tokens: seq<Token>, t: Trace)
    requires IsTrace(tokens, t) && t.log != []
    ensures |t.cs| == |t.log| + 1 && Accept(Ctx(t), t.log[|t.log| - 1]) == Some(Expected(Now(t)))
  {
    var i := |t.log| - 1;
    RunIsNested(tokens, t.cs, t.log, i);
    assert Step(t.cs[i]) == Emit(t.log[i], t.cs[i + 1]);
    StepIsGood(t.cs[i]);
    hide Step, Expected, Accept, Inv;
  }

  predicate StartsNode(e: Event) {
    e.Leaf() || e.Opens()
  }

  /** The expectations when the node in front of which they were `xs` is complete. */
  function Advanced(xs: seq<Expect>): seq<Expect> {
    if xs == [] || Advance(Top(xs)).None? then [] else Rest(xs) + [Advance(Top(xs)).value]
  }

  /** Where a node may stand, only a node or the end of the collection or the document comes. */
  lemma OnlyNodes(xs: seq<Expect>, e: Event)
    requires xs != [] && Accept(xs, e).Some?
    ensures Top(xs) == XItem ==> StartsNode(e) || e.SequenceEnd?
    ensures Top(xs) == XKey ==> StartsNode(e) || e.MappingEnd?
    ensures Top(xs) == XValue || Top(xs) == XContent ==> StartsNode(e)
    ensures Top(xs) == XDocumentEnd ==> e.DocumentEnd?
    ensures Top(xs) == XDocument ==> e.DocumentStart? || e.StreamEnd?
  {
  }

  /** From `t` to `u` the builder has read a tree, which leaves the expectations `xs`. */
  ghost predicate ReadTree(t: Trace, n: Node, xs: seq<Expect>, u: Trace) {
    && |t.cs| == |t.log| + 1 && |u.cs| == |u.log| + 1 && 0 < |t.log| < |u.log| && t.log <= u.log
    && Shapes(u.log, |t.log| - 1, |u.log| - 1) == Flatten(n) && WellFormed(n)
    && Ctx(u) == xs && Progress(Now(t), Now(u))
  }

  ghost predicate Read(t: Trace, n: Node, u: Trace) {
    t.log != [] && |t.cs| == |t.log| + 1 && ReadTree(t, n, Advanced(Ctx(t)), u)
  }

  /** From `t` to `u` the builder has read the opening of a collection and some of its children. */
  ghost predicate Reading(t: Trace, ns: seq<Node>, xs: seq<Expect>, u: Trace) {
    && |t.cs| == |t.log| + 1 && |u.cs| == |u.log| + 1 && 0 < |t.log| < |u.log| && t.log <= u.log
    && Shapes(u.log, |t.log|, |u.log| - 1) == FlattenAll(ns) && AllWellFormed(ns)
    && Ctx(u) == xs && Progress(Now(t), Now(u))
  }

  lemma OneMore(t: Trace, ns: seq<Node>, xs: seq<Expect>, u: Trace, n: Node, v: Trace)
    requires Reading(t, ns, xs, u) && Read(u, n, v)
    ensures Reading(t, ns + [n], Advanced(xs), v) && Progress(Now(u), Now(v))
  {
    hide Ctx, Advanced, Flatten, FlattenAll, WellFormed, ShapeOf, Rank;
    FlattenAppend(ns, n);
    assert Shapes(v.log, |t.log|, |v.log| - 1)
           == Shapes(u.log, |t.log|, |u.log| - 1) + Shapes(v.log, |u.log| - 1, |v.log| - 1);
  }

  /** The opening event, the children and the closing event make a node. */
  lemma Closed(t: Trace, ns: seq<Node>, xs: seq<Expect>, u: Trace, e: Event, c: Config, n: Node)
    requires Reading(t, ns, xs, u) && Progress(Now(u), c)
    requires BeginOf(n) == ShapeOf(t.log[|t.log| - 1], |t.log| - 1)
             && End(n.kind) == ShapeOf(u.log[|u.log| - 1], |u.log| - 1)
    requires n.children == ns && !LeafKind(n.kind) && WellFormed(n)
    ensures ReadTree(t, n, Expected(Now(u)), Trace(u.cs + [c], u.log + [e]))
  {
    hide Expected, FlattenAll, WellFormed, ShapeOf, Rank;
    var v := Trace(u.cs + [c], u.log + [e]);
    var b := |t.log| - 1;
    assert Shapes(v.log, b, |v.log| - 1)
        == [ShapeOf(v.log[b], b)] + Shapes(u.log, |t.log|, |u.log| - 1) + [ShapeOf(v.log[|u.log| - 1], |u.log| - 1)];
  }

  lemma AcceptStart(xs: seq<Expect>, e: Event)
    requires StartsNode(e) && Accept(xs, e).Some?
    ensures xs != [] && Advance(Top(xs)).Some? && Accept(xs, e) == Some(Advanced(xs) + Opened(e))
  {
  }

  lemma LeafIs(n: Node)
    requires LeafKind(n.kind) && n.children == []
    ensures Flatten(n) == [BeginOf(n)] && WellFormed(n)
  {
  }

  lemma LeafRead(tokens: seq<Token>, t: Trace, e: Event, c: Config, n: Node)
    requires IsTrace(tokens, t) && t.log != [] && t.log[|t.log| - 1].Leaf() && t.cs != [] && Progress(Now(t), c)
    requires BeginOf(n) == ShapeOf(t.log[|t.log| - 1], |t.log| - 1) && LeafKind(n.kind) && n.children == []
    ensures Read(t, n, Trace(t.cs + [c], t.log + [e]))
  {
    LastIsAccepted(tokens, t);
    hide IsTrace, Expected, ShapeOf, Rank, Accept, Advanced, Progress, Flatten, WellFormed, LeafKind;
    LeafIs(n);
    AcceptStart(Ctx(t), t.log[|t.log| - 1]);
    var u := Trace(t.cs + [c], t.log + [e]);
    assert Ctx(u) == Expected(Now(t)) == Advanced(Ctx(t)) + [];
    assert Shapes(u.log, |t.log| - 1, |t.log|) == [BeginOf(n)];
  }

  lemma OpenRead(tokens: seq<Token>, t: Trace, e: Event, c: Config)
    requires IsTrace(tokens, t) && t.log != [] && t.log[|t.log| - 1].Opens() && t.cs != [] && Progress(Now(t), c)
    ensures |t.cs| == |t.log| + 1 && Advance(Top(Ctx(t))).Some?
    ensures Reading(t, [], Advanced(Ctx(t)) + Opened(t.log[|t.log| - 1]), Trace(t.cs + [c], t.log + [e]))
  {
    LastIsAccepted(tokens, t);
    hide IsTrace, Expected, ShapeOf, Rank, Accept, Advanced, Progress;
    AcceptStart(Ctx(t), t.log[|t.log| - 1]);
    assert Ctx(Trace(t.cs + [c], t.log + [e])) == Expected(Now(t));
  }

  /** The closing event takes back what the opening event has added. */
  lemma ClosesTop(xs: seq<Expect>, e: Event)
    requires e.SequenceEnd? || e.MappingEnd? || e.DocumentEnd?
    ensures forall x :: Accept(xs + [x], e).Some? ==> Accept(xs + [x], e) == Some(xs)
  {
    assert forall x :: Rest(xs + [x]) == xs;
  }

  lemma AdvancedTop(xs: seq<Expect>)
    ensures Advanced(xs + [XItem]) == xs + [XItem] && Advanced(xs + [XKey]) == xs + [XValue]
            && Advanced(xs + [XValue]) == xs + [XKey]
    ensures Advanced(xs + [XContent]) == xs + [XDocumentEnd]
  {
    assert forall x :: Rest(xs + [x]) == xs;
  }

  lemma NoAnchor(es: seq<Event>, from: nat)
    requires es != [] && AnchorOf(es[|es| - 1]) == ""
    ensures LastAnchors(es, from) == LastAnchors(es[..|es| - 1], from)
  {
  }

  /** Inside a collection, a node comes next unless it is its end. */
  lemma Inside(tokens: seq<Token>, t: Trace, ns: seq<Node>, xs: seq<Expect>, u: Trace)
    requires IsTrace(tokens, u) && Reading(t, ns, xs, u) && xs != []
    ensures |t.cs| == |t.log| + 1 && |u.cs| == |u.log| + 1 && Progress(Now(t), Now(u)) && u.log != []
    ensures var e := u.log[|u.log| - 1];
            && (Top(xs) == XItem ==> StartsNode(e) || e.SequenceEnd?)
            && (Top(xs) == XKey ==> StartsNode(e) || e.MappingEnd?)
            && (Top(xs) == XValue || Top(xs) == XContent ==> StartsNode(e))
            && (Top(xs) == XDocumentEnd ==> e.DocumentEnd?)
  {
    LastIsAccepted(tokens, u);
    OnlyNodes(xs, u.log[|u.log| - 1]);
  }

  /** The whole collection or document, when its closing event has been taken. */
  lemma Ends(tokens: seq<Token>, t: Trace, ns: seq<Node>, xs: seq<Expect>, x: Expect, u: Trace, e: Event, c: Config,
             n: Node)
    requires IsTrace(tokens, u) && Reading(t, ns, xs + [x], u) && Progress(Now(u), c)
    requires BeginOf(n) == ShapeOf(t.log[|t.log| - 1], |t.log| - 1) && n.children == ns && !LeafKind(n.kind)
    requires End(n.kind) == ShapeOf(u.log[|u.log| - 1], |u.log| - 1)
    requires (n.kind == MappingNode ==> |ns| % 2 == 0) && (n.kind == DocumentNode ==> |ns| == 1)
    ensures ReadTree(t, n, xs, Trace(u.cs + [c], u.log + [e]))
  {
    LastIsAccepted(tokens, u);
    hide IsTrace, Accept, Expected, ReadTree, FlattenAll, Rank;
    ClosesTop(xs, u.log[|u.log| - 1]);
    Closed(t, ns, xs + [x], u, e, c, n);
  }

  lemma DocumentOpens(tokens: seq<Token>, t: Trace, e: Event, c: Config)
    requires IsTrace(tokens, t) && t.log != [] && t.log[|t.log| - 1].DocumentStart? && t.cs != [] && Progress(Now(t), c)
    ensures |t.cs| == |t.log| + 1
    ensures Reading(t, [], Ctx(t) + [XContent], Trace(t.cs + [c], t.log + [e]))
  {
    LastIsAccepted(tokens, t);
    hide IsTrace, Expected, ShapeOf, Rank, Progress;
    assert Ctx(Trace(t.cs + [c], t.log + [e])) == Expected(Now(t));
  }

  lemma EndHasNoAnchor(e: Event, i: nat)
    requires ShapeOf(e, i).End?
    ensures AnchorOf(e) == "" && !e.StreamEnd? && (ShapeOf(e, i).kind != DocumentNode ==> !e.DocumentEnd?)
  {
  }

  lemma FreshAnchors(es: seq<Event>)
    requires es != [] && AnchorOf(es[|es| - 1]) == ""
    ensures LastAnchors(es, |es| - 1) == map[]
  {
  }

  class Builder {
    const parser: Parser
    /** The last event, and how many there have been. */
    var event: Option<Event>
    var count: nat
    /** The anchors of the document that is being read. */
    var anchors: map<string, nat>
    ghost const tokens: seq<Token>
    ghost var trace: Trace
    /** The first event of the document. */
    ghost var first: nat

    constructor (parser: Parser)
      requires parser.Cfg() == Config(parser.tokens, StreamStartState, [], [], []) && !parser.streamEndProduced
               && !parser.failed
      ensures this.parser == parser && tokens == parser.tokens && Sound() && trace == Trace([parser.Cfg()], [])
              && anchors == map[]
    {
      this.parser, tokens := parser, parser.tokens;
      event, count, anchors, first := None, 0, map[], 0;
      trace := Trace([parser.Cfg()], []);
    }

    /** The parser has produced the trace, and it can go on. */
    ghost predicate Sound()
      reads this, parser
    {
      && !parser.failed && parser.Ready() && IsTrace(tokens, trace) && trace.cs != [] && Now(trace) == parser.Cfg()
      && count == |trace.log| && event == if count == 0 then None else Some(trace.log[count - 1])
    }

    /** An event is there to be looked at, and the anchors in front of it are known. */
    ghost predicate Valid()
      reads this, parser
    {
      Sound() && OneDocument(trace) && first < count && anchors == LastAnchors(trace.log[..count - 1], first)
    }

    /** The parser has failed on what follows the trace. */
    ghost predicate Stuck()
      reads this
    {
      IsTrace(tokens, trace) && OneDocument(trace) && trace.cs != [] && Step(Now(trace)).Fail?
          && Now(trace).state != EndState
    }

    /** Fetch the next event. */
    method Skip() returns (ok: bool)
      requires Sound() && OneDocument(trace) && (event.Some? ==> !event.value.StreamEnd?)
      modifies this`event, this`count, this`trace, parser
      ensures ok ==> Sound() && event.Some? && |trace.cs| == |trace.log| + 1
                     && trace == Trace(old(trace).cs + [parser.Cfg()], old(trace).log + [event.value])
                     && Progress(old(Now(trace)), Now(trace))
      ensures !ok ==> Stuck()
    {
      NotAtEnd(tokens, trace);
      TraceSize(tokens, trace);
      ghost var c := parser.Cfg();
      var e;
      ok, e := parser.Parse();
      if ok {
        Grow(tokens, trace, e.value, parser.Cfg());
        trace := Trace(trace.cs + [parser.Cfg()], trace.log + [e.value]);
        event, count := e, count + 1;
      }
      hide IsTrace, Step, Progress;
    }

    function NewNode(kind: Kind): (n: Node)
      reads this
      requires event.Some? && count > 0
      ensures n == Node(count - 1, kind, event.value.at, "", "", false, [])
    {
      Node(count - 1, kind, event.value.at, "", "", false, [])
    }

    /** Remember the anchor of the current event, if it has one. */
    method Anchor(anchor: string)
      requires Valid() && anchor == AnchorOf(event.value)
      modifies this`anchors
      ensures Sound() && OneDocument(trace) && anchors == LastAnchors(trace.log, first)
    {
      hide IsTrace, AnchorOf, Inv;
      if |anchor| > 0 {
        anchors := anchors[anchor := count - 1];
      }
    }

    /** The next event, once the anchor of the current one is known. */
    method Next() returns (ok: bool)
      requires Sound() && OneDocument(trace) && first < count && !event.value.StreamEnd? && !event.value.DocumentEnd?
      requires anchors == LastAnchors(trace.log, first)
      modifies this`event, this`count, this`trace, parser
      ensures ok ==> Valid() && |trace.cs| == |trace.log| + 1
                     && trace == Trace(old(trace).cs + [parser.Cfg()], old(trace).log + [event.value])
                     && Progress(old(Now(trace)), Now(trace))
      ensures !ok ==> Stuck()
    {
      hide IsTrace, LastAnchors, Inv, Progress, Step;
      ok := Skip();
      if ok {
        assert trace.log[..count - 1] == old(trace).log;
      }
    }

    method Scalar() returns (ok: bool, n: Node)
      requires Valid() && event.value.Scalar?
      modifies this`event, this`count, this`trace, this`anchors, parser
      ensures if ok then Valid() && Read(old(trace), n, trace) else Stuck()
    {
      hide IsTrace, LastAnchors, Inv, Progress, Step, Read;
      ghost var t := trace;
      n := NewNode(ScalarNode).(value := event.value.value, tag := event.value.tag, implicit := event.value.implicit);
      Anchor(event.value.anchor);
      ok := Next();
      if ok {
        LeafRead(tokens, t, event.value, parser.Cfg(), n);
      }
    }

    method Alias() returns (ok: bool, n: Node)
      requires Valid() && event.value.Alias?
      modifies this`event, this`count, this`trace, parser
      ensures if ok then Valid() && Read(old(trace), n, trace) else Stuck()
    {
      hide IsTrace, LastAnchors, Inv, Progress, Step, Read;
      ghost var t := trace;
      n := NewNode(AliasNode).(value := event.value.anchor);
      NoAnchor(trace.log, first);
      ok := Next();
      if ok {
        LeafRead(tokens, t, event.value, parser.Cfg(), n);
      }
    }

    /** The opening event of a collection. */
    method Enter(kind: Kind) returns (ok: bool, n: Node)
      requires Valid() && event.value.Opens()
      modifies this`event, this`count, this`trace, this`anchors, parser
      ensures if ok then
                && Valid() && n == old(NewNode(kind)) && old(trace.log) != [] && |old(trace).cs| == |old(trace).log| + 1
                && Reading(old(trace), [], Advanced(old(Ctx(trace))) + Opened(old(event.value)), trace)
                && Progress(old(Now(trace)), Now(trace))
              else Stuck()
    {
      hide IsTrace, LastAnchors, Inv, Step, Reading, Advanced, Ctx, Progress;
      n := NewNode(kind);
      Anchor(AnchorOf(event.value));
      ok := Next();
      if ok {
        OpenRead(tokens, old(trace), event.value, parser.Cfg());
      }
    }

    /** The closing event of a collection, whose children have been read since `t`. */
    method Leave(ghost t: Trace, ghost xs: seq<Expect>, ghost x: Expect, ghost n: Node) returns (ok: bool)
      requires Valid() && Reading(t, n.children, xs + [x], trace)
      requires BeginOf(n) == ShapeOf(t.log[|t.log| - 1], |t.log| - 1) && !LeafKind(n.kind) && n.kind != DocumentNode
      requires End(n.kind) == ShapeOf(event.value, count - 1) && (n.kind == MappingNode ==> |n.children| % 2 == 0)
      modifies this`event, this`count, this`trace, this`anchors, parser
      ensures if ok then Valid() && ReadTree(t, n, xs, trace) else Stuck()
    {
      hide IsTrace, LastAnchors, Inv, Step, Reading, ReadTree, Ctx, Progress, ShapeOf, AnchorOf, WellFormed;
      EndHasNoAnchor(event.value, count - 1);
      NoAnchor(trace.log, first);
      ok := Next();
      if ok {
        Ends(tokens, t, n.children, xs, x, old(trace), event.value, parser.Cfg(), n);
      }
    }

    method Sequence() returns (ok: bool, n: Node)
      requires Valid() && event.value.SequenceStart?
      modifies this`event, this`count, this`trace, this`anchors, parser
      ensures if ok then Valid() && Read(old(trace), n, trace) else Stuck()
      decreases |parser.tokens|, Rank(parser.Cfg()), 0
    {
      hide IsTrace, LastAnchors, Inv, Step, ReadTree, Reading, Advanced, Accept, Ctx, WellFormed, Rank;
      ghost var t := trace;
      ok, n := Enter(SequenceNode);
      if !ok {
        return;
      }
      ghost var xs := Advanced(Ctx(t));
      AdvancedTop(xs);
      while !event.value.SequenceEnd?
        invariant Valid() && Reading(t, n.children, xs + [XItem], trace)
                  && n == old(NewNode(SequenceNode)).(children := n.children)
        decreases |parser.tokens|, Rank(parser.Cfg())
      {
        Inside(tokens, t, n.children, xs + [XItem], trace);
        ghost var u := trace;
        var child;
        ok, child := Parse();
        if !ok {
          return;
        }
        OneMore(t, n.children, xs + [XItem], u, child, trace);
        n := n.(children := n.children + [child]);
      }
      ok := Leave(t, xs, XItem, n);
    }

    method Parse() returns (ok: bool, n: Node)
      requires Valid() && StartsNode(event.value)
      modifies this`event, this`count, this`trace, this`anchors, parser
      ensures if ok then Valid() && Read(old(trace), n, trace) else Stuck()
      decreases |parser.tokens|, Rank(parser.Cfg()), 1
    {
      hide IsTrace, LastAnchors, Inv, Step, Read, Rank;
      match event.value
      case Scalar(_, _, _, _, _, _, _) => ok, n := Scalar();
      case Alias(_, _) => ok, n := Alias();
      case MappingStart(_, _, _, _, _) => ok, n := Mapping();
      case SequenceStart(_, _, _, _, _) => ok, n := Sequence();
    }

    /** A key and its value. */
    method Pair(ghost t: Trace, ghost ns: seq<Node>, ghost xs: seq<Expect>) returns (ok: bool, key: Node, value: Node)
      requires Valid() && Reading(t, ns, xs + [XKey], trace) && !event.value.MappingEnd?
      modifies this`event, this`count, this`trace, this`anchors, parser
      ensures if ok then Valid() && Reading(t, ns + [key, value], xs + [XKey], trace)
              && Progress(old(Now(trace)), Now(trace)) else Stuck()
      decreases |parser.tokens|, Rank(parser.Cfg()), 2
    {
      hide IsTrace, LastAnchors, Inv, Step, ReadTree, Reading, Advanced, Accept, Ctx, WellFormed, Rank;
      Inside(tokens, t, ns, xs + [XKey], trace);
      AdvancedTop(xs);
      ok, key := Parse();
      value := key;
      if !ok {
        return;
      }
      OneMore(t, ns, xs + [XKey], old(trace), key, trace);
      Inside(tokens, t, ns + [key], xs + [XValue], trace);
      ghost var u := trace;
      ok, value := Parse();
      if ok {
        OneMore(t, ns + [key], xs + [XValue], u, value, trace);
        assert ns + [key] + [value] == ns + [key, value];
      }
    }

    method Mapping() returns (ok: bool, n: Node)
      requires Valid() && event.value.MappingStart?
      modifies this`event, this`count, this`trace, this`anchors, parser
      ensures if ok then Valid() && Read(old(trace), n, trace) else Stuck()
      decreases |parser.tokens|, Rank(parser.Cfg()), 0
    {
      hide IsTrace, LastAnchors, Inv, Step, ReadTree, Reading, Advanced, Accept, Ctx, WellFormed, Rank;
      ghost var t := trace;
      ok, n := Enter(MappingNode);
      if !ok {
        return;
      }
      ghost var xs := Advanced(Ctx(t));
      while !event.value.MappingEnd?
        invariant Valid() && Reading(t, n.children, xs + [XKey], trace)
                  && n == old(NewNode(MappingNode)).(children := n.children)
        invariant |n.children| % 2 == 0
        decreases |parser.tokens|, Rank(parser.Cfg())
      {
        Inside(tokens, t, n.children, xs + [XKey], trace);
        var key, value;
        ok, key, value := Pair(t, n.children, xs);
        if !ok {
          return;
        }
        n := n.(children := n.children + [key, value]);
      }
      ok := Leave(t, xs, XKey, n);
    }

    /** The only child of a document. */
    method Content(ghost t: Trace, ghost xs: seq<Expect>) returns (ok: bool, child: Node)
      requires Valid() && Reading(t, [], xs + [XContent], trace)
      modifies this`event, this`count, this`trace, this`anchors, parser
      ensures if ok then Valid() && Reading(t, [] + [child], xs + [XDocumentEnd], trace)
              && event.value.DocumentEnd? else Stuck()
    {
      hide IsTrace, LastAnchors, Inv, Step, Read, Reading, Advanced, Accept, Ctx, WellFormed, Rank, Progress;
      Inside(tokens, t, [], xs + [XContent], trace);
      ok, child := Parse();
      if ok {
        AdvancedTop(xs);
        OneMore(t, [], xs + [XContent], old(trace), child, trace);
        Inside(tokens, t, [] + [child], xs + [XDocumentEnd], trace);
      }
    }

    /** A whole document, whose anchors are the ones of its own events. */
    method Document() returns (ok: bool, n: Node)
      requires Sound() && OneDocument(trace) && event.Some? && event.value.DocumentStart?
      modifies this, parser
      ensures if ok then
                Sound() && count > 0 && anchors == LastAnchors(trace.log[..count - 1], first)
                && first == old(count) - 1 && old(trace.log) != [] && |old(trace).cs| == |old(trace).log| + 1
                && n.kind == DocumentNode && ReadTree(old(trace), n, old(Ctx(trace)), trace)
              else Stuck()
    {
      hide IsTrace, LastAnchors, Inv, Step, ReadTree, Reading, Advanced, Accept, Ctx, WellFormed, Rank, Progress;
      ghost var t := trace;
      TraceSize(tokens, t);
      FreshAnchors(t.log);
      n := NewNode(DocumentNode);
      anchors, first := map[], count - 1;
      ok := Next();
      if !ok {
        return;
      }
      DocumentOpens(tokens, t, event.value, parser.Cfg());
      ghost var xs := Ctx(t);
      var child;
      ok, child := Content(t, xs);
      if !ok {
        return;
      }
      n := n.(children := n.children + [child]);
      ghost var u := trace;
      if !event.value.DocumentEnd? {
        assert false;
      }
      NoAnchor(trace.log, first);
      ok := Skip();
      if ok {
        assert trace.log[..count - 1] == u.log;
        Ends(tokens, t, n.children, xs, XDocumentEnd, u, event.value, parser.Cfg(), n);
      }
    }
  }

  lemma NotAtEnd(tokens: seq<Token>, t: Trace)
    requires IsTrace(tokens, t) && t.cs != [] && (t.log != [] ==> !t.log[|t.log| - 1].StreamEnd?)
    ensures Now(t).state != EndState
  {
    TraceSize(tokens, t);
    if t.log != [] {
      LastIsAccepted(tokens, t);
      RunIsNested(tokens, t.cs, t.log, |t.log| - 1);
      BottomIs(t.cs[|t.log| - 1]);
      hide IsTrace, Expected, Inv;
      if Now(t).state == EndState {
        assert Expected(Now(t)) == [XNothing] by {
          EndExpects(Now(t));
        }
        OnlyAtEnd(Ctx(t), t.log[|t.log| - 1]);
      }
    }
  }

  lemma EndExpects(c: Config)
    requires c.state == EndState
    ensures Expected(c) == [XNothing]
  {
  }

  lemma {:induction false} FramesBottom(states: seq<State>)
    ensures Frames(states)[0] == XDocument
  {
    if states != [] {
      FramesBottom(states[..|states| - 1]);
    }
  }

  lemma BottomIs(c: Config)
    ensures Expected(c) != [] && (Expected(c)[0] == XDocument || |Expected(c)| == 1)
  {
    FramesBottom(c.states);
  }

  lemma OnlyAtEnd(xs: seq<Expect>, e: Event)
    requires xs != [] && (xs[0] == XDocument || |xs| == 1) && Accept(xs, e) == Some([XNothing])
    ensures e.StreamEnd?
  {
    assert Accept(xs, e).value[0] == XNothing;
    assert Rest(xs) != [] ==> Rest(xs)[0] == XDocument;
  }

  // ----- Loading the first document -----

  datatype Loaded =
    | Empty                                                // there is no document
    | Broken                                               // the tokens are not a document
    | Loaded(document: Node, anchors: map<string, nat>)

  /** The parser's events up to the one behind the first document, and what they amount to. */
  ghost predicate LoadPost(tokens: seq<Token>, t: Trace, r: Loaded) {
    && IsTrace(tokens, t) && t.cs != []
    && match r
       case Broken => Step(Now(t)).Fail? && Now(t).state != EndState && OneDocument(t)
       case Empty => |t.log| == 2 && t.log[1].StreamEnd?
       case Loaded(doc, anchors) =>
         && |t.log| > 2 && Shapes(t.log, 1, |t.log| - 1) == Flatten(doc) && WellFormed(doc) && doc.kind == DocumentNode
         && anchors == LastAnchors(t.log[..|t.log| - 1], 1)
  }

  method Load(tokens: seq<Token>) returns (r: Loaded)
    ensures exists t :: LoadPost(tokens, t, r)
  {
    hide Inv, Step, IsTrace, Accept, Expected;
    var parser := new Parser(tokens);
    var b := new Builder(parser);
    var ok := b.Skip();
    if !ok {
      assert LoadPost(tokens, b.trace, Broken);
      return Broken;
    }
    StreamStartsFirst(tokens, b.trace);
    if !b.event.value.StreamStart? {
      assert false;
    }
    ok := b.Skip();
    if !ok {
      assert LoadPost(tokens, b.trace, Broken);
      return Broken;
    }
    DocumentComesSecond(tokens, b.trace);
    if b.event.value.StreamEnd? {
      assert LoadPost(tokens, b.trace, Empty);
      return Empty;
    }
    var document;
    ok, document := b.Document();
    r := if ok then Loaded(document, b.anchors) else Broken;
    assert LoadPost(tokens, b.trace, r);
  }

  lemma StreamStartsFirst(tokens: seq<Token>, t: Trace)
    requires IsTrace(tokens, t) && |t.log| >= 1
    ensures t.log[0].StreamStart?
  {
    assert Step(t.cs[0]) == Emit(t.log[0], t.cs[1]);
  }

  lemma DocumentComesSecond(tokens: seq<Token>, t: Trace)
    requires IsTrace(tokens, t) && |t.log| == 2
    ensures t.log[1].DocumentStart? || t.log[1].StreamEnd?
  {
    StreamStartsFirst(tokens, t);
    assert Step(t.cs[0]) == Emit(t.log[0], t.cs[1]);
    assert Step(t.cs[1]) == Emit(t.log[1], t.cs[2]);
  }

  /** A run is determined by its tokens. */
  lemma {:induction false} RunsAgree(tokens: seq<Token>, t: Trace, u: Trace, i: nat)
    requires IsTrace(tokens, t) && IsTrace(tokens, u) && i <= |t.log| && i <= |u.log|
    ensures |t.cs| == |t.log| + 1 && |u.cs| == |u.log| + 1 && t.cs[i] == u.cs[i] && t.log[..i] == u.log[..i]
  {
    hide IsTrace, Step;
    TraceSize(tokens, t);
    TraceSize(tokens, u);
    if i > 0 {
      RunsAgree(tokens, t, u, i - 1);
      StepAt(tokens, t, i - 1);
      StepAt(tokens, u, i - 1);
      assert t.log[..i] == t.log[..i - 1] + [t.log[i - 1]];
      assert u.log[..i] == u.log[..i - 1] + [u.log[i - 1]];
    }
  }

  lemma AnchoredBegins(e: Event, i: nat)
    requires AnchorOf(e) != ""
    ensures ShapeOf(e, i).Begin? && ShapeOf(e, i).id == i
  {
  }

  /** Every anchor of a loaded document names a node of its tree: the last one that carries it. */
  lemma AnchorsResolve(tokens: seq<Token>, t: Trace, document: Node, anchors: map<string, nat>, name: string)
      returns (m: Node)
    requires LoadPost(tokens, t, Loaded(document, anchors)) && name in anchors
    ensures Within(m, document) && m.id == anchors[name] < |t.log| - 1 && AnchorOf(t.log[m.id]) == name
    ensures forall j :: m.id < j < |t.log| - 1 ==> AnchorOf(t.log[j]) != name
  {
    hide IsTrace, Flatten, WellFormed, Within, ShapeOf, AnchorOf, LastAnchors;
    var es := t.log[..|t.log| - 1];
    NoEmptyAnchor(es, 1);
    AnchorIsLast(es, 1, name);
    var i := anchors[name];
    AnchoredBegins(t.log[i], i);
    assert Flatten(document)[i - 1] == ShapeOf(t.log[i], i);
    m := BeginsWithin(document, i - 1);
  }

  lemma LastShape(t: Trace, document: Node)
    requires |t.log| > 2 && Shapes(t.log, 1, |t.log| - 1) == Flatten(document) && document.kind == DocumentNode
    ensures t.log[1].DocumentStart? && t.log[|t.log| - 2].DocumentEnd?
  {
    assert Flatten(document)[0] == ShapeOf(t.log[1], 1);
    assert Flatten(document)[|t.log| - 3] == ShapeOf(t.log[|t.log| - 2], |t.log| - 2);
  }

  /** The tree and the anchors are the only ones that the tokens allow. */
  lemma SameDocument(tokens: seq<Token>, t: Trace, r: Loaded, u: Trace, s: Loaded)
    requires LoadPost(tokens, t, r) && LoadPost(tokens, u, s) && r.Loaded? && s.Loaded? && |t.log| <= |u.log|
    ensures r == s
  {
    RunsAgree(tokens, t, u, |t.log|);
    hide IsTrace;
    var n, m := |t.log| - 1, |u.log| - 1;
    assert forall i :: 0 <= i <= n ==> t.log[i] == u.log[..n + 1][i];
    assert Shapes(u.log, 1, m) == Shapes(t.log, 1, n) + Shapes(u.log, n, m);
    assert Flatten(s.document) == Flatten(s.document) + [];
    TreeIsUnique(r.document, s.document, Shapes(u.log, n, m), []);
    assert m == n;
    assert t.log[..n] == u.log[..m];
  }

  lemma StuckAtEnd(tokens: seq<Token>, t: Trace)
    requires IsTrace(tokens, t) && |t.log| >= 2 && t.log[1].StreamEnd?
    ensures t.cs != [] && |t.log| == 2 && Now(t).state == EndState
  {
    RunIsNested(tokens, t.cs, t.log, 1);
    StepAt(tokens, t, 1);
    EndsAtStreamEnd(t.cs[1]);
    hide IsTrace;
    if |t.log| > 2 {
      StepAt(tokens, t, 2);
    }
  }

  /** A failure and a document exclude each other. */
  lemma BrokenHasNoDocument(tokens: seq<Token>, t: Trace, u: Trace, s: Loaded)
    requires LoadPost(tokens, t, Broken) && LoadPost(tokens, u, s)
    ensures s.Broken?
  {
    hide Step, IsTrace;
    TraceSize(tokens, t);
    TraceSize(tokens, u);
    if |t.log| < |u.log| {
      RunsAgree(tokens, t, u, |t.log|);
      StepAt(tokens, u, |t.log|);
    } else {
      RunsAgree(tokens, t, u, |u.log|);
      assert forall i :: 0 <= i < |u.log| ==> t.log[..|u.log|][i] == t.log[i];
      if s.Loaded? {
        LastShape(u, s.document);
      } else if s.Empty? {
        StuckAtEnd(tokens, t);
      }
    }
  }

  lemma EmptyHasNoDocument(tokens: seq<Token>, t: Trace, u: Trace, s: Loaded)
    requires LoadPost(tokens, t, Empty) && LoadPost(tokens, u, s) && !s.Broken?
    ensures s.Empty?
  {
    hide IsTrace;
    if s.Loaded? {
      LastShape(u, s.document);
      RunsAgree(tokens, t, u, 2);
    }
  }

  /** What tokens load to is determined by `LoadPost`. */
  lemma ResultIsUnique(tokens: seq<Token>, t: Trace, r: Loaded, u: Trace, s: Loaded)
    requires LoadPost(tokens, t, r) && LoadPost(tokens, u, s)
    ensures r == s
  {
    hide LoadPost;
    if r.Broken? {
      BrokenHasNoDocument(tokens, t, u, s);
    } else if s.Broken? {
      BrokenHasNoDocument(tokens, u, t, r);
    } else if r.Empty? {
      EmptyHasNoDocument(tokens, t, u, s);
    } else if s.Empty? {
      EmptyHasNoDocument(tokens, u, t, r);
    } else if |t.log| <= |u.log| {
      SameDocument(tokens, t, r, u, s);
    } else {
      SameDocument(tokens, u, s, t, r);
    }
  }
}
