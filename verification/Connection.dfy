/**
 All streams of a connection. A pass of the framer sends new frames of several streams at once; everything
 else happens on one stream at a time.
 */
module Connection {
  import opened Wire
  import opened Wrappers
  import opened FrameSorter
  import opened Streams
  import opened Framer
  import opened FramingPass
  import opened Sequences
  import T = Transport

  /** The streams with their numbers and marks. A marked stream is of the second class. */
  datatype Link = Link(ids: seq<nat>, marks: seq<Option<bool>>, worlds: seq<T.World>)
  {
    ghost predicate Ok() {
      |ids| == |marks| == |worlds| && Distinct(ids)
    }

    function Senders(): (r: seq<SendState>)
      requires |ids| == |marks| == |worlds|
      ensures |r| == |worlds| && forall i :: 0 <= i < |r| ==> r[i] == T.SenderOf(worlds[i], ids[i], marks[i])
    {
      seq(|worlds|, i requires 0 <= i < |worlds| => T.SenderOf(worlds[i], ids[i], marks[i]))
    }
  }

  datatype Step =
    | On(i: nat, step: T.Step)
    | SendPass(windows: seq<nat>, priority: seq<nat>, first: seq<nat>, second: seq<nat>, sendingAllowed: bool,
               room: nat)

  function PassOf(c: Link, step: Step): Inputs
    requires step.SendPass? && |c.ids| == |c.marks| == |c.worlds|
  {
    Inputs(c.Senders(), step.windows, step.priority, step.first, step.second, step.sendingAllowed, step.room)
  }

  /** The frames with a given number. */
  ghost function FramesOf(frames: seq<StreamFrame>, id: nat): set<StreamFrame> {
    set f | f in frames && f.streamId == id
  }

  /** A stream after a pass: what is left to send, and the frames with its number. */
  ghost function Sent(w: T.World, id: nat, s: SendState, frames: seq<StreamFrame>): T.World {
    w.(pending := s.pending, writeOffset := s.writeOffset, finSent := s.finSent, sent := w.sent + FramesOf(frames, id))
  }

  ghost predicate Passed(c: Link, inputs: Inputs, c': Link)
    requires inputs.Ok() && |inputs.streams| == |c.worlds| == |c.ids|
  {
    && c'.ids == c.ids && c'.marks == c.marks && |c'.worlds| == |c.worlds|
    && (inputs.Parts(); |inputs.After()| == |c.worlds|)
    && forall i :: 0 <= i < |c.worlds|
                   ==> c'.worlds[i] == Sent(c.worlds[i], c.ids[i], inputs.After()[i], inputs.Frames())
  }

  ghost predicate Next(c: Link, step: Step, c': Link)
    requires c.Ok()
  {
    match step
    case On(i, step) =>
      && i < |c.worlds| && |c'.worlds| == |c.worlds| && !step.SendNew?
      && T.Next(c.worlds[i], step, c'.worlds[i]) && c' == c.(worlds := c.worlds[i := c'.worlds[i]])
    case SendPass(_, _, _, _, _, _) =>
      PassOf(c, step).Ok() && Passed(c, PassOf(c, step), c')
  }

  ghost predicate IsRun(cs: seq<Link>, steps: seq<Step>) {
    && |cs| == |steps| + 1
    && (forall j :: 0 <= j < |cs| ==> cs[j].Ok())
    && (forall i :: 0 <= i < |cs[0].worlds| ==> cs[0].worlds[i] == T.INIT)
    && forall j :: 0 <= j < |steps| ==> Next(cs[j], steps[j], cs[j + 1])
  }

  // ----- What a pass does to each stream -----

  lemma {:induction false} InSomes(cuts: seq<Option<StreamFrame>>, f: StreamFrame)
    ensures f in Somes(cuts) <==> Some(f) in cuts
    decreases |cuts|
  {
    if cuts != [] {
      InSomes(cuts[..|cuts| - 1], f);
      assert cuts == cuts[..|cuts| - 1] + [cuts[|cuts| - 1]];
    }
  }

  ghost predicate NumbersDiffer(streams: seq<SendState>) {
    forall i, j :: 0 <= i < j < |streams| ==> streams[i].streamId != streams[j].streamId
  }

  lemma CutHasNumber(t: GoodTrace, k: nat)
    requires k < |t.cuts| && t.cuts[k].Some?
    ensures t.cuts[k].value.streamId == t.before[t.order[k]].streamId
  {
    hide Cut;
    assert CutFrom(t.before[t.order[k]], t.windows[t.order[k]], t.cuts[k], t.after[t.order[k]]);
  }

  /** No other stream has the number of this one, so the pass sends exactly what was cut from it. */
  lemma FramesOfStream(t: GoodTrace, i: nat, c: Option<StreamFrame>)
    requires NumbersDiffer(t.before) && i < |t.before|
    requires if i in t.order then exists k :: 0 <= k < |t.order| && t.order[k] == i && t.cuts[k] == c else c == None
    ensures FramesOf(t.Frames(), t.before[i].streamId) == if c.Some? then {c.value} else {}
  {
    hide Cut, Somes, CutFrom;
    forall f
      ensures f in t.Frames() && f.streamId == t.before[i].streamId <==> c == Some(f)
    {
      InSomes(t.cuts, f);
      if Some(f) in t.cuts {
        var j :| 0 <= j < |t.cuts| && t.cuts[j] == Some(f);
        CutHasNumber(t, j);
      }
      if c == Some(f) {
        var k :| 0 <= k < |t.order| && t.order[k] == i && t.cuts[k] == c;
        CutHasNumber(t, k);
      }
    }
  }

  /** What a pass does to one stream. */
  lemma StreamAfter(t: GoodTrace, i: nat) returns (c: Option<StreamFrame>)
    requires NumbersDiffer(t.before) && i < |t.before|
    ensures CutFrom(t.before[i], t.windows[i], c, t.after[i])
    ensures FramesOf(t.Frames(), t.before[i].streamId) == if c.Some? then {c.value} else {}
  {
    hide Cut, Somes, FramesOf;
    c := None;
    if i in t.order {
      var k :| 0 <= k < |t.order| && t.order[k] == i;
      c := t.cuts[k];
    }
    FramesOfStream(t, i, c);
  }

  /** Without an overwritten frame, a pass is a step of its own on each stream, or leaves the stream alone. */
  lemma PassIsSends(c: Link, inputs: Inputs, c': Link, i: nat)
    requires c.Ok() && inputs.streams == c.Senders() && inputs.Ok() && Passed(c, inputs, c') && i < |c.worlds|
             && !inputs.Overwritten()
    ensures || c'.worlds[i] == c.worlds[i]
            || exists room: nat :: T.SendsNew(c.worlds[i], c.ids[i], c.marks[i], inputs.windows[i], room, c'.worlds[i])
  {
    hide Cut, Somes, FramesOf, Inputs.Cuts, Inputs.After, Inputs.Overwritten;
    var t := inputs.Conserves();
    var cut := StreamAfter(t, i);
    if cut.Some? {
      var room: nat :| Cut(t.before[i], t.windows[i], room) == Some((cut.value, t.after[i]));
      assert T.SendsNew(c.worlds[i], c.ids[i], c.marks[i], inputs.windows[i], room, c'.worlds[i]);
    }
  }

  ghost predicate Inv(c: Link) {
    c.Ok() && forall i :: 0 <= i < |c.worlds| ==> T.Inv(c.worlds[i])
  }

  /** An overwritten frame carries bytes behind the end of what was cut from the stream whose number it has got. */
  lemma OverwrittenBreaks(c: Link, inputs: Inputs, c': Link)
    requires c.Ok() && inputs.streams == c.Senders() && inputs.Ok() && Passed(c, inputs, c') && inputs.Overwritten()
    ensures !Inv(c')
  {
    inputs.Parts();
    var i, f := inputs.second[0], inputs.Relabelled();
    var cuts := inputs.First().frames;
    assert cuts + [] == cuts;
    assert inputs.Frames()[|cuts| - 1] == f;
    WalkKeepsNumber(inputs, i);
    assert f in c'.worlds[i].sent;
    assert f.End() > c'.worlds[i].writeOffset;
    assert !T.SentOk(c'.worlds[i], f);
  }

  lemma WalkKeepsNumber(inputs: Inputs, i: nat)
    requires inputs.Ok() && i < |inputs.streams|
    ensures inputs.First().streams[i].streamId == inputs.streams[i].streamId
  {
    hide FramingPass.Walk, Cut, Somes;
    var t := inputs.FirstConserves();
    if i in t.order {
      var k :| 0 <= k < |t.order| && t.order[k] == i;
      assert CutFrom(t.before[i], t.windows[i], t.cuts[k], t.after[i]);
    }
  }

  /** A pass keeps every stream's frames true to its bytes if and only if it overwrites no frame. */
  lemma PassKeepsInvIff(c: Link, inputs: Inputs, c': Link)
    requires Inv(c) && inputs.streams == c.Senders() && inputs.Ok() && Passed(c, inputs, c')
    ensures Inv(c') <==> !inputs.Overwritten()
  {
    hide T.Inv, Inputs.Overwritten, Inputs.After, Inputs.Frames, T.SendsNew;
    if inputs.Overwritten() {
      OverwrittenBreaks(c, inputs, c');
    } else {
      forall i | 0 <= i < |c.worlds|
        ensures T.Inv(c'.worlds[i])
      {
        PassIsSends(c, inputs, c', i);
        if c'.worlds[i] != c.worlds[i] {
          var room: nat :| T.SendsNew(c.worlds[i], c.ids[i], c.marks[i], inputs.windows[i], room, c'.worlds[i]);
          T.SendKeepsInv(c.worlds[i], c.ids[i], c.marks[i], inputs.windows[i], room, c'.worlds[i]);
        }
      }
    }
  }

  // ----- Every run without overwritten frames -----

  ghost predicate Clean(cs: seq<Link>, steps: seq<Step>) {
    forall j :: 0 <= j < |steps| && j < |cs| && steps[j].SendPass? && cs[j].Ok() && PassOf(cs[j], steps[j]).Ok() ==>
                  !PassOf(cs[j], steps[j]).Overwritten()
  }

  lemma StepKeepsInv(c: Link, step: Step, c': Link)
    requires Inv(c) && Next(c, step, c') && (step.SendPass? ==> !PassOf(c, step).Overwritten())
    ensures Inv(c')
  {
    hide T.Inv, T.Next, Inputs.Overwritten, Inputs.After, Inputs.Frames;
    if step.SendPass? {
      PassKeepsInvIff(c, PassOf(c, step), c');
    } else {
      T.StepKeepsInv(c.worlds[step.i], step.step, c'.worlds[step.i]);
    }
  }

  lemma {:induction false} RunKeepsInv(cs: seq<Link>, steps: seq<Step>, n: nat)
    requires IsRun(cs, steps) && Clean(cs, steps) && n < |cs|
    ensures Inv(cs[n])
  {
    hide T.Inv, Next, Inputs.Overwritten;
    if n == 0 {
      T.InitInv();
    } else {
      RunKeepsInv(cs, steps, n - 1);
      if steps[n - 1].SendPass? {
        NextIsOk(cs[n - 1], steps[n - 1], cs[n]);
      }
      StepKeepsInv(cs[n - 1], steps[n - 1], cs[n]);
    }
  }

  lemma NextIsOk(c: Link, step: Step, c': Link)
    requires c.Ok() && Next(c, step, c') && step.SendPass?
    ensures PassOf(c, step).Ok()
  {
  }

  /**
   Whatever the network does, every reader gets a prefix of what was written to its stream, if no pass overwrites a
   frame.
   */
  lemma ReadersGetPrefixes(cs: seq<Link>, steps: seq<Step>, n: nat, i: nat)
    requires IsRun(cs, steps) && Clean(cs, steps) && n < |cs| && i < |cs[n].worlds|
    ensures cs[n].worlds[i].delivered <= cs[n].worlds[i].written
  {
    RunKeepsInv(cs, steps, n);
    assert T.Inv(cs[n].worlds[i]);
  }

  // ----- A run in which a reader gets the bytes of another stream -----

  const SEVEN := StreamFrame(7, 0, [9], false, true, false)
  const ARRIVED := SorterState(map[0 := SEVEN], [Interval(1, MAX_BYTE_COUNT)], 0)
  const WRITTEN := T.INIT.(written := [9], pending := Some([9]))
  const EMPTIED := T.INIT.(written := [9], writeOffset := 1)
  const PASS := SendPass([10, 10], [], [0], [1], true, 5)

  function TwoStreams(a: T.World, b: T.World): Link {
    Link([5, 7], [None, Some(false)], [a, b])
  }

  /** The pass sends the byte of stream 5 as a byte of stream 7. */
  lemma PassMovesByte()
    ensures Next(TwoStreams(WRITTEN, T.INIT), PASS, TwoStreams(EMPTIED, T.INIT.(sent := {SEVEN})))
    ensures PassOf(TwoStreams(WRITTEN, T.INIT), PASS) == Example(0) && Example(0).Ok() && Example(0).Overwritten()
  {
    hide Inputs.Ok, Inputs.After, Inputs.Frames, Inputs.Overwritten;
    var c, c' := TwoStreams(WRITTEN, T.INIT), TwoStreams(EMPTIED, T.INIT.(sent := {SEVEN}));
    ByteOnOtherStream(0);
    assert c.Senders() == Example(0).streams;
    assert FramesOf([SEVEN], 5) == {} && FramesOf([SEVEN], 7) == {SEVEN};
    assert c'.worlds[0] == Sent(c.worlds[0], 5, Example(0).After()[0], [SEVEN]);
    assert c'.worlds[1] == Sent(c.worlds[1], 7, Example(0).After()[1], [SEVEN]);
  }

  lemma ByteIsPushed()
    ensures PushPost(EmptySorter(), SEVEN, ARRIVED, NoError) && Valid(ARRIVED)
  {
    var s, p := EmptySorter(), Parts([], [Interval(0, MAX_BYTE_COUNT)], []);
    assert SEVEN.Clip(0, 1) == SEVEN;
    PushStores(s, SEVEN, SEVEN, p, {});
    assert Store(s, p, SEVEN, {}) == ARRIVED;
  }

  lemma ByteArrives(w: T.World)
    requires w == T.INIT.(sent := {SEVEN})
    ensures T.Next(w, T.Deliver(SEVEN, NoError), w.(reading := ReadState(ARRIVED, 0)))
  {
    hide PushPost, Valid, EmptySorter;
    ByteIsPushed();
  }

  lemma ByteIsRead(w: T.World)
    requires w.reading == ReadState(ARRIVED, 0) && !w.failed && !w.finished && w.delivered == []
    ensures T.Next(w, T.ReadSome(1), w.(reading := AfterChunk(w.reading, 1), delivered := [9]))
  {
    assert SEVEN.data[0..1] == [9] && [] + [9] == [9];
  }

  lemma FirstWrite()
    ensures T.Next(T.INIT, T.Write([9]), WRITTEN)
  {
    assert T.INIT.written[..0] + [9] == [9];
  }

  lemma StepOn(c: Link, i: nat, step: T.Step, w: T.World)
    requires c.Ok() && i < |c.worlds| && !step.SendNew? && T.Next(c.worlds[i], step, w)
    ensures Next(c, On(i, step), c.(worlds := c.worlds[i := w]))
  {
  }

  /** One byte is written to stream 5, none to stream 7; the reader of stream 7 gets it. */
  lemma ReaderGetsForeignByte() returns (cs: seq<Link>, steps: seq<Step>)
    ensures IsRun(cs, steps) && !Clean(cs, steps) && |steps| == 4 && |cs[4].worlds| == 2
    ensures cs[4].worlds[1].delivered == [9] && cs[4].worlds[1].written == []
  {
    hide T.Next, Next, Inputs.Ok, Inputs.Overwritten;
    var w2 := T.INIT.(sent := {SEVEN});
    var w3 := w2.(reading := ReadState(ARRIVED, 0));
    var w4 := w2.(reading := AfterChunk(ReadState(ARRIVED, 0), 1), delivered := [9]);
    FirstWrite();
    PassMovesByte();
    ByteArrives(w2);
    ByteIsRead(w3);
    cs := [TwoStreams(T.INIT, T.INIT), TwoStreams(WRITTEN, T.INIT), TwoStreams(EMPTIED, w2), TwoStreams(EMPTIED, w3),
           TwoStreams(EMPTIED, w4)];
    steps := [On(0, T.Write([9])), PASS, On(1, T.Deliver(SEVEN, NoError)), On(1, T.ReadSome(1))];
    StepOn(cs[0], 0, T.Write([9]), WRITTEN);
    StepOn(cs[2], 1, T.Deliver(SEVEN, NoError), w3);
    StepOn(cs[3], 1, T.ReadSome(1), w4);
    assert cs[0].worlds[0 := WRITTEN] == cs[1].worlds && cs[2].worlds[1 := w3] == cs[3].worlds
           && cs[3].worlds[1 := w4] == cs[4].worlds;
    assert Next(cs[0], steps[0], cs[1]) && Next(cs[1], steps[1], cs[2]) && Next(cs[2], steps[2], cs[3])
           && Next(cs[3], steps[3], cs[4]);
    assert steps[1].SendPass? && PassOf(cs[1], steps[1]).Overwritten();
  }
}
