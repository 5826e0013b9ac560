/**
 One reliable stream between two ends, as a state machine. The sender writes bytes, cuts them into
 frames and splits frames again when they are sent once more. The network may lose, repeat and
 reorder frames. The receiver reassembles the bytes and reads them.
 */
module Transport {
  import opened Wire
  import opened Wrappers
  import opened FrameSorter
  import opened Streams
  import opened Framer
  import opened FramingPass

  datatype World = World(
    // The sender: all bytes written so far, the part not cut into frames yet, and the frames to send again.
    written: seq<byte>,
    pending: Option<seq<byte>>,
    writeOffset: nat,
    closed: bool,
    finSent: bool,
    retransmit: seq<StreamFrame>,
    // The network: every frame ever sent. Each may arrive any number of times, at any time, or never.
    sent: set<StreamFrame>,
    // The receiver: its buffer and read offset, and all bytes its reader has got.
    reading: ReadState,
    finished: bool,
    failed: bool,
    delivered: seq<byte>)

  datatype Step =
    | Write(data: seq<byte>)
    | Close
    | SendNew(streamId: nat, mark: Option<bool>, window: nat, room: nat)
    | Lose(frame: StreamFrame)
    | Resend(maxLen: nat)
    | Deliver(frame: StreamFrame, err: PushError)
    | ReadSome(count: nat)

  const INIT := World([], None, 0, false, false, [], {}, ReadState(EmptySorter(), 0), false, false, [])

  // ----- Cutting new data -----

  /** The stream as the framer sees it. */
  function SenderOf(w: World, streamId: nat, mark: Option<bool>): SendState {
    SendState(streamId, w.pending, w.writeOffset, w.closed, w.finSent, false, mark)
  }

  /** The framer visits the stream and sends the frame that it cuts. */
  ghost predicate SendsNew(w: World, streamId: nat, mark: Option<bool>, window: nat, room: nat, w': World) {
    match Cut(SenderOf(w, streamId, mark), window, room)
    case None => false
    case Some((frame, s)) =>
      w' == w.(pending := s.pending, writeOffset := s.writeOffset, finSent := s.finSent, sent := w.sent + {frame})
  }

  // ----- Steps -----

  ghost predicate Delivers(w: World, frame: StreamFrame, err: PushError, w': World) {
    && !w.failed && frame in w.sent
    && PushPost(w.reading.buffer, frame, w'.reading.buffer, err)
    && (err == NoError ==> (Valid(w'.reading.buffer) <==> !Displaces(w.reading.buffer, frame)))
    && w' == w.(reading := w.reading.(buffer := w'.reading.buffer),
                failed := err != NoError && err != DuplicateStreamData)
  }

  ghost predicate Reads(w: World, count: nat, w': World) {
    var s := w.reading.buffer;
    && !w.failed && !w.finished && Chunk(w.reading, count)
    && w' == w.(reading := AfterChunk(w.reading, count),
                delivered := w.delivered + ChunkData(w.reading, count),
                finished := w.reading.offset + count == s.queued[s.readPosition].End() && s.queued[s.readPosition].fin)
  }

  ghost predicate Next(w: World, step: Step, w': World) {
    match step
    case Write(data) =>
      // A write that gave up waiting leaves its unsent bytes behind; the next write replaces them.
      && !w.closed && data != [] && w.writeOffset <= |w.written|
      && w' == w.(written := w.written[..w.writeOffset] + data, pending := Some(data))
    case Close =>
      w' == w.(closed := true)
    case SendNew(streamId, mark, window, room) =>
      SendsNew(w, streamId, mark, window, room, w')
    case Lose(frame) =>
      frame in w.sent && w' == w.(retransmit := w.retransmit + [frame])
    case Resend(maxLen) =>
      exists res: seq<StreamFrame>, rest: seq<StreamFrame> ::
        Taken(w.retransmit, res, rest) && w' == w.(retransmit := rest, sent := w.sent + set f | f in res)
    case Deliver(frame, err) =>
      Delivers(w, frame, err, w')
    case ReadSome(count) =>
      Reads(w, count, w')
  }

  ghost predicate IsRun(ws: seq<World>, steps: seq<Step>) {
    && |ws| == |steps| + 1
    && ws[0] == INIT
    && forall i :: 0 <= i < |steps| ==> Next(ws[i], steps[i], ws[i + 1])
  }

  // ----- The invariant -----

  /** A frame carries bytes that have been cut; an end mark appears only once the stream is closed. */
  ghost predicate FrameOk(w: World, f: StreamFrame) {
    && f.End() <= w.writeOffset && SliceOf(f, w.written)
    && (f.data != [] || f.fin)
    && (f.fin ==> w.finSent)
    && (f.data == [] ==> f.offset == w.writeOffset)
  }

  /** On its way, an end mark sits on the last byte. */
  ghost predicate SentOk(w: World, f: StreamFrame) {
    FrameOk(w, f) && (f.fin ==> f.End() == w.writeOffset)
  }

  ghost predicate SenderOk(w: World) {
    && w.writeOffset <= |w.written|
    && (w.pending.None? ==> w.writeOffset == |w.written|)
    && (w.pending.Some? ==> w.pending.value == w.written[w.writeOffset..] && w.pending.value != [])
    && (w.finSent ==> w.closed && w.pending.None?)
  }

  ghost predicate FramesOk(w: World) {
    && (forall f :: f in w.sent ==> SentOk(w, f))
    && (forall i :: 0 <= i < |w.retransmit| ==> SentOk(w, w.retransmit[i]))
  }

  ghost predicate QueueOk(w: World) {
    forall k :: k in w.reading.buffer.queued ==> FrameOk(w, w.reading.buffer.queued[k])
  }

  ghost predicate ReaderOk(w: World) {
    && w.reading.offset <= w.writeOffset && w.writeOffset <= |w.written|
    && w.delivered == w.written[..w.reading.offset]
    && (!w.failed ==> ReadOk(w.reading) && QueueOk(w))
  }

  ghost predicate Inv(w: World) {
    SenderOk(w) && FramesOk(w) && ReaderOk(w)
  }

  // ----- Every step keeps the invariant -----

  /** The sender has only added bytes behind those that were cut. */
  ghost predicate Extends(w: World, w': World) {
    && w.writeOffset <= |w.written| && w.writeOffset <= w'.writeOffset <= |w'.written|
    && w.written[..w.writeOffset] == w'.written[..w.writeOffset]
    && (w.finSent ==> w'.finSent && w'.writeOffset == w.writeOffset)
  }

  lemma FrameStaysOk(w: World, w': World, f: StreamFrame)
    requires Extends(w, w') && FrameOk(w, f)
    requires f.data == [] ==> w.finSent
    ensures FrameOk(w', f)
    ensures SentOk(w, f) ==> SentOk(w', f)
  {
    assert w.written[..w.writeOffset][f.offset..f.End()] == w.written[f.offset..f.End()];
    assert w'.written[..w.writeOffset][f.offset..f.End()] == w'.written[f.offset..f.End()];
  }

  lemma ExtendKeeps(w: World, w': World)
    requires Inv(w) && Extends(w, w')
    requires w'.retransmit == w.retransmit && w'.sent == w.sent
    requires w'.reading == w.reading && w'.failed == w.failed && w'.delivered == w.delivered
    ensures FramesOk(w') && ReaderOk(w')
  {
    forall f | f in w.sent || f in w.retransmit
      ensures SentOk(w', f)
    {
      FrameStaysOk(w, w', f);
    }
    if !w.failed {
      forall k | k in w.reading.buffer.queued
        ensures FrameOk(w', w.reading.buffer.queued[k])
      {
        FrameStaysOk(w, w', w.reading.buffer.queued[k]);
      }
    }
    var n := w.reading.offset;
    assert w.written[..w.writeOffset][..n] == w.written[..n];
    assert w'.written[..w.writeOffset][..n] == w'.written[..n];
  }

  lemma SendKeepsInv(w: World, streamId: nat, mark: Option<bool>, window: nat, room: nat, w': World)
    requires Inv(w) && SendsNew(w, streamId, mark, window, room, w')
    ensures Inv(w')
  {
    hide Cut, Valid, ReadOk;
    var s := SenderOf(w, streamId, mark);
    CutFits(s, window, room);
    var frame := Cut(s, window, room).value.0;
    var data := frame.data;
    assert w.pending.Some? ==> w.written[w.writeOffset..][|data|..] == w.written[w'.writeOffset..];
    assert data == w.written[w.writeOffset..w'.writeOffset];
    assert SentOk(w', frame);
    var v := w'.(sent := w.sent);
    ExtendKeeps(w, v);
    forall f | f in w'.sent
      ensures SentOk(w', f)
    {
      assert f in w.sent ==> SentOk(v, f);
    }
  }

  lemma ResentFrameOk(w: World, res: seq<StreamFrame>, rest: seq<StreamFrame>)
    requires FramesOk(w) && Taken(w.retransmit, res, rest)
    ensures forall i :: 0 <= i < |res| ==> SentOk(w, res[i])
    ensures forall i :: 0 <= i < |rest| ==> SentOk(w, rest[i])
  {
    var q := w.retransmit;
    forall f | f in q
      ensures SentOk(w, Mark(f))
    {
    }
    if rest != [] && |res| > 0 && |res| - 1 < |q| && Rejoins(res[|res| - 1], rest[0], Mark(q[|res| - 1]))
       && res[|res| - 1].data != [] && rest[0].data != [] {
      PartsAreSent(w, res[|res| - 1], rest[0], Mark(q[|res| - 1]));
    }
    forall i | 0 <= i < |res|
      ensures SentOk(w, res[i])
    {
      if i < |res| - 1 {
        assert res[i] == res[..|res| - 1][i] == Mark(q[i]);
      }
    }
    forall i | 0 <= i < |rest|
      ensures SentOk(w, rest[i])
    {
      if i > 0 {
        assert rest[i] == rest[1..][i - 1];
      }
    }
  }

  lemma PartsAreSent(w: World, a: StreamFrame, b: StreamFrame, f: StreamFrame)
    requires SentOk(w, f) && Rejoins(a, b, f) && a.data != [] && b.data != []
    ensures SentOk(w, a) && SentOk(w, b)
  {
    assert a.data == f.data[..|a.data|] && b.data == f.data[|a.data|..];
    assert a == f.Clip(a.offset, a.End()).(fin := false) && b == f.Clip(b.offset, b.End());
    ClipOfSlice(f, a.offset, a.End(), w.written);
    ClipOfSlice(f, b.offset, b.End(), w.written);
  }

  /** A missing byte lies above everything that can be read. */
  lemma MissingAboveRead(s: ValidSorter, x: nat)
    requires Missing(s.gaps, x) && s.readPosition in s.queued && s.queued[s.readPosition].data != []
    ensures s.readPosition < x
  {
    HeadBelowFirstGap(s);
    GapAt(s.gaps, 0);
    if x < MAX_BYTE_COUNT {
      OrderedFirst(s.gaps);
      InGapBounds(s.gaps[0].start - 1, s.gaps, x);
    }
  }

  lemma OrderedFirst(g: seq<Interval>)
    requires GapsOk(g)
    ensures g != [] && Ordered(g[0].start - 1, g)
  {
  }

  /** Storing data does not touch the frame that is being read. */
  lemma StoredKeepsReading(r: Readable, f: StreamFrame, t: SorterState)
    requires Stored(r.buffer, f, t) && Valid(t) && |t.gaps| <= MAX_GAPS && t.readPosition == r.buffer.readPosition
    ensures ReadOk(r.(buffer := t))
  {
    var s, p := r.buffer, r.buffer.readPosition;
    if r.offset != p {
      var lo: nat, hi: nat :|
        FirstMissing(s.gaps, f, lo) && LastMissing(s.gaps, f, hi) && lo < hi
            && Added(s.queued, f.Clip(lo, hi), t.queued);
      MissingAboveRead(s, lo);
      assert p in t.queued && t.queued[p] == s.queued[p];
    }
  }

  lemma StoredKeepsQueue(w: World, f: StreamFrame, t: SorterState)
    requires QueueOk(w) && FrameOk(w, f) && f.data != [] && Stored(w.reading.buffer, f, t)
    ensures forall k :: k in t.queued ==> FrameOk(w, t.queued[k])
  {
    var s := w.reading.buffer;
    var lo: nat, hi: nat :|
      FirstMissing(s.gaps, f, lo) && LastMissing(s.gaps, f, hi) && lo < hi && Added(s.queued, f.Clip(lo, hi), t.queued);
    ClipOfSlice(f, lo, hi, w.written);
    assert FrameOk(w, f.Clip(lo, hi));
    forall k | k in t.queued
      ensures FrameOk(w, t.queued[k])
    {
      if k != lo {
        assert t.queued[k] == s.queued[k];
      }
    }
  }

  lemma FinKeepsReading(w: World, f: StreamFrame)
    requires Inv(w) && !w.failed && FrameOk(w, f) && f.data == []
    ensures !Displaces(w.reading.buffer, f)
    ensures w.reading.offset != w.reading.buffer.readPosition ==> f.offset != w.reading.buffer.readPosition
  {
    PushFinValidIff(w.reading.buffer, f);
    var q := w.reading.buffer.queued;
    if f.offset in q {
      assert FrameOk(w, q[f.offset]) && q[f.offset].offset == f.offset;
    }
  }

  lemma DeliverKeepsInv(w: World, f: StreamFrame, err: PushError, w': World)
    requires Inv(w) && Delivers(w, f, err, w')
    ensures Inv(w')
  {
    var s, t := w.reading.buffer, w'.reading.buffer;
    assert FramesOk(w') && SenderOk(w');
    if err == NoError && f.data == [] {
      FinKeepsReading(w, f);
      assert ReadOk(w'.reading) && QueueOk(w');
    } else if err == NoError {
      StoredKeepsReading(w.reading, f, t);
      StoredKeepsQueue(w, f, t);
      assert ReadOk(w'.reading) && QueueOk(w');
    }
  }

  lemma ReadKeepsInv(w: World, count: nat, w': World)
    requires Inv(w) && Reads(w, count, w')
    ensures Inv(w')
  {
    var r := w.reading;
    assert AllSlices(r.buffer.queued, w.written);
    ChunkKeepsReadOk(r, count);
    ChunkOfSlice(r, count, w.written);
    assert FrameOk(w, r.buffer.queued[r.buffer.readPosition]);
    assert w.written[..r.offset + count] == w.written[..r.offset] + w.written[r.offset..r.offset + count];
  }

  lemma WriteKeepsInv(w: World, data: seq<byte>, w': World)
    requires Inv(w) && Next(w, Write(data), w')
    ensures Inv(w')
  {
    assert w'.written[..w.writeOffset] == w.written[..w.writeOffset];
    assert w'.written[w.writeOffset..] == data;
    ExtendKeeps(w, w');
  }

  lemma ResendKeepsInv(w: World, maxLen: nat, w': World)
    requires Inv(w) && Next(w, Resend(maxLen), w')
    ensures Inv(w')
  {
    var res: seq<StreamFrame>, rest: seq<StreamFrame> :|
      Taken(w.retransmit, res, rest) && w' == w.(retransmit := rest, sent := w.sent + set f | f in res);
    ResentFrameOk(w, res, rest);
    forall f | f in w'.sent
      ensures SentOk(w', f)
    {
      assert SentOk(w, f);
    }
    ExtendKeeps(w, w'.(retransmit := w.retransmit, sent := w.sent));
  }

  lemma LoseKeepsInv(w: World, frame: StreamFrame, w': World)
    requires Inv(w) && Next(w, Lose(frame), w')
    ensures Inv(w')
  {
    ExtendKeeps(w, w'.(retransmit := w.retransmit));
  }

  lemma StepKeepsInv(w: World, step: Step, w': World)
    requires Inv(w) && Next(w, step, w')
    ensures Inv(w')
  {
    match step
    case Write(data) => WriteKeepsInv(w, data, w');
    case Close => ExtendKeeps(w, w');
    case SendNew(streamId, mark, window, room) => SendKeepsInv(w, streamId, mark, window, room, w');
    case Lose(frame) => LoseKeepsInv(w, frame, w');
    case Resend(maxLen) => ResendKeepsInv(w, maxLen, w');
    case Deliver(frame, err) => DeliverKeepsInv(w, frame, err, w');
    case ReadSome(count) => ReadKeepsInv(w, count, w');
  }

  lemma InitInv()
    ensures Inv(INIT)
  {
  }

  lemma {:induction false} RunKeepsInv(ws: seq<World>, steps: seq<Step>, i: nat)
    requires IsRun(ws, steps) && i < |ws|
    ensures Inv(ws[i])
  {
    if i == 0 {
      InitInv();
    } else {
      RunKeepsInv(ws, steps, i - 1);
      StepKeepsInv(ws[i - 1], steps[i - 1], ws[i]);
    }
  }

  /** Whatever the network does, the reader gets a prefix of what was written. */
  lemma ReaderGetsPrefix(ws: seq<World>, steps: seq<Step>, i: nat)
    requires IsRun(ws, steps) && i < |ws|
    ensures ws[i].delivered <= ws[i].written
  {
    RunKeepsInv(ws, steps, i);
  }

  /** Once every byte has arrived, the reader is never stuck before it has all of them. */
  lemma NothingReceivedIsLost(ws: seq<World>, steps: seq<Step>, i: nat)
    requires IsRun(ws, steps) && i < |ws| && !ws[i].failed
    requires Covered(ws[i].reading.buffer.gaps, 0, |ws[i].written|)
    requires ws[i].delivered != ws[i].written
    ensures exists count: nat :: count > 0 && Chunk(ws[i].reading, count)
  {
    RunKeepsInv(ws, steps, i);
    var r := ws[i].reading;
    ReadBelowGap(r);
    GapAt(r.buffer.gaps, 0);
    assert ws[i].written[..|ws[i].written|] == ws[i].written;
    if r.buffer.gaps[0].start < |ws[i].written| {
      MissingAt(r.buffer.gaps, 0, r.buffer.gaps[0].start);
    }
    HeadBelowFirstGap(r.buffer);
    assert Chunk(r, 1);
  }

  // ----- The end of the stream -----

  /** Every end mark in the buffer sits on the last byte of the stream. */
  ghost predicate FinExact(w: World) {
    forall k :: k in w.reading.buffer.queued && w.reading.buffer.queued[k].fin ==>
                  w.reading.buffer.queued[k].End() == w.writeOffset
  }

  /** The last byte of a frame with an end mark is not there yet, unless nothing of the frame is missing. */
  ghost predicate FinSafe(s: SorterState, f: StreamFrame) {
    f.fin && f.data != [] && !Covered(s.gaps, f.offset, f.End()) ==> Missing(s.gaps, f.End() - 1)
  }

  /** `c` is the part of a frame that gets queued. */
  lemma FinExactAfter(w: World, c: StreamFrame, w': World)
    requires FinExact(w) && w'.writeOffset == w.writeOffset
    requires Added(w.reading.buffer.queued, c, w'.reading.buffer.queued)
    ensures FinExact(w') <==> (c.fin ==> c.End() == w.writeOffset)
  {
    var q, q' := w.reading.buffer.queued, w'.reading.buffer.queued;
    assert forall k :: k in q' && k != c.offset ==> k in q && q'[k] == q[k];
  }

  lemma LastMissingIsEnd(s: SorterState, f: StreamFrame, hi: nat)
    requires LastMissing(s.gaps, f, hi)
    ensures hi == f.End() <==> Missing(s.gaps, f.End() - 1)
  {
  }

  lemma FinStays(w: World, f: StreamFrame, w': World)
    requires FinExact(w) && SentOk(w, f) && f.data != [] && w'.writeOffset == w.writeOffset
    requires Stored(w.reading.buffer, f, w'.reading.buffer)
    ensures FinExact(w') <==> FinSafe(w.reading.buffer, f)
  {
    hide Received, Missing, FinExact, Added;
    var s, t := w.reading.buffer, w'.reading.buffer;
    var lo: nat, hi: nat :|
      FirstMissing(s.gaps, f, lo) && LastMissing(s.gaps, f, hi) && lo < hi && Added(s.queued, f.Clip(lo, hi), t.queued);
    LastMissingIsEnd(s, f, hi);
    FinExactAfter(w, f.Clip(lo, hi), w');
  }

  lemma EmptyIsSafe(s: SorterState, f: StreamFrame)
    requires f.data == []
    ensures FinSafe(s, f)
  {
  }

  /** A frame that loses its last bytes keeps its end mark; this is the only way a mark gets misplaced. */
  lemma FinStaysExactIff(w: World, f: StreamFrame, w': World)
    requires Inv(w) && FinExact(w) && Delivers(w, f, NoError, w')
    ensures FinExact(w') <==> FinSafe(w.reading.buffer, f)
  {
    hide Stored, Valid, Displaces, FinSafe;
    assert SentOk(w, f);
    if f.data != [] {
      FinStays(w, f, w');
    } else {
      EmptyIsSafe(w.reading.buffer, f);
    }
  }

  ghost predicate EndOk(w: World) {
    && (!w.failed ==> FinExact(w))
    && (w.finished ==> w.finSent && w.delivered == w.written)
  }

  lemma StepKeepsEndOk(w: World, step: Step, w': World)
    requires Inv(w) && EndOk(w) && Next(w, step, w')
    requires step.Deliver? ==> FinSafe(w.reading.buffer, step.frame)
    ensures EndOk(w')
  {
    StepKeepsInv(w, step, w');
    match step
    case Deliver(frame, err) =>
      if err == NoError {
        FinStaysExactIff(w, frame, w');
      }
    case ReadSome(count) =>
      var f := w.reading.buffer.queued[w.reading.buffer.readPosition];
      assert FrameOk(w, f);
      assert w'.written[..|w'.written|] == w'.written;
    case SendNew(_, _, _, _) =>
      assert !w.failed ==> forall k :: k in w.reading.buffer.queued ==> FrameOk(w, w.reading.buffer.queued[k]);
    case _ =>
  }

  lemma {:induction false} RunKeepsEndOk(ws: seq<World>, steps: seq<Step>, i: nat)
    requires IsRun(ws, steps) && i < |ws|
    requires forall j :: 0 <= j < |steps| && steps[j].Deliver? ==> FinSafe(ws[j].reading.buffer, steps[j].frame)
    ensures EndOk(ws[i])
  {
    if i > 0 {
      RunKeepsEndOk(ws, steps, i - 1);
      RunKeepsInv(ws, steps, i - 1);
      StepKeepsEndOk(ws[i - 1], steps[i - 1], ws[i]);
    }
  }

  /** If no frame with an end mark is trimmed at its end, the end of the stream is reported after the last byte. */
  lemma EndOfStreamAfterLastByte(ws: seq<World>, steps: seq<Step>, i: nat)
    requires IsRun(ws, steps) && i < |ws|
    requires forall j :: 0 <= j < |steps| && steps[j].Deliver? ==> FinSafe(ws[j].reading.buffer, steps[j].frame)
    requires ws[i].finished
    ensures ws[i].delivered == ws[i].written
  {
    RunKeepsEndOk(ws, steps, i);
  }

  // ----- A run that reports the end of the stream too early -----

  const WHOLE := StreamFrame(5, 0, [7, 8, 9], true, true, false)
  const FRONT := StreamFrame(5, 0, [7, 8], false, true, false)
  const BACK := StreamFrame(5, 2, [9], true, true, false)
  const TRIMMED := StreamFrame(5, 0, [7, 8], true, true, false)

  const BACK_ARRIVED := SorterState(map[2 := BACK], [Interval(0, 2), Interval(3, MAX_BYTE_COUNT)], 0)
  const BOTH_ARRIVED := SorterState(map[2 := BACK, 0 := TRIMMED], [Interval(3, MAX_BYTE_COUNT)], 0)

  lemma BackArrives()
    ensures PushPost(EmptySorter(), BACK, BACK_ARRIVED, NoError) && Valid(BACK_ARRIVED)
  {
    var s, p := EmptySorter(), Parts([], [Interval(0, MAX_BYTE_COUNT)], []);
    assert BACK.Clip(2, 3) == BACK;
    PushStores(s, BACK, BACK, p, {});
    assert Store(s, p, BACK, {}) == BACK_ARRIVED;
  }

  lemma WholeIsTrimmed(p: Parts)
    requires Valid(BACK_ARRIVED) && p == Parts([], [Interval(0, 2)], [Interval(3, MAX_BYTE_COUNT)])
    ensures WHOLE.Clip(0, 2) == TRIMMED && Covered(BACK_ARRIVED.gaps, 0, 0) && Covered(BACK_ARRIVED.gaps, 2, 3)
    ensures StorePoint(BACK_ARRIVED, p, TRIMMED, {})
  {
    CoveredBetween(BACK_ARRIVED.gaps, 1, 2, 3);
  }

  lemma TrimmedIsStored(p: Parts)
    requires p == Parts([], [Interval(0, 2)], [Interval(3, MAX_BYTE_COUNT)])
    ensures Store(BACK_ARRIVED, p, TRIMMED, {}) == BOTH_ARRIVED
  {
  }

  lemma WholeArrives()
    ensures PushPost(BACK_ARRIVED, WHOLE, BOTH_ARRIVED, NoError) && Valid(BOTH_ARRIVED)
  {
    hide PushPost, Valid, Covered, StorePoint, Store;
    BackArrives();
    var p := Parts([], [Interval(0, 2)], [Interval(3, MAX_BYTE_COUNT)]);
    WholeIsTrimmed(p);
    TrimmedIsStored(p);
    PushStores(BACK_ARRIVED, WHOLE, TRIMMED, p, {});
  }

  lemma OneMoreStep(ws: seq<World>, steps: seq<Step>, step: Step, w: World)
    requires IsRun(ws, steps) && Next(ws[|ws| - 1], step, w)
    ensures IsRun(ws + [w], steps + [step])
  {
  }

  lemma WholeIsSent(w: World)
    requires w.pending == Some([7, 8, 9]) && w.writeOffset == 0 && w.closed && !w.finSent && w.sent == {}
    ensures SendsNew(w, 5, None, 3, 7, w.(pending := None, writeOffset := 3, finSent := true, sent := {WHOLE}))
  {
  }

  /** Three bytes are written and sent in one frame with an end mark, which is then sent again in two parts. */
  lemma SentInTwoParts() returns (ws: seq<World>, steps: seq<Step>)
    ensures IsRun(ws, steps)
    ensures ws[|ws| - 1] == World([7, 8, 9], None, 3, true, true, [], {WHOLE, FRONT, BACK},
                                  ReadState(EmptySorter(), 0), false, false, [])
  {
    hide EmptySorter, Reads, Delivers, SendsNew;
    var reading := ReadState(EmptySorter(), 0);
    var w1 := World([7, 8, 9], Some([7, 8, 9]), 0, false, false, [], {}, reading, false, false, []);
    var w2 := w1.(closed := true);
    var w3 := World([7, 8, 9], None, 3, true, true, [], {WHOLE}, reading, false, false, []);
    var w4 := w3.(retransmit := [WHOLE]);
    var w5 := w3.(retransmit := [BACK], sent := {WHOLE, FRONT});
    var w6 := w3.(retransmit := [], sent := {WHOLE, FRONT, BACK});
    assert INIT.written[..0] + [7, 8, 9] == [7, 8, 9];
    WholeIsSent(w2);
    ws, steps := [INIT, w1, w2, w3, w4], [Write([7, 8, 9]), Close, SendNew(5, None, 3, 7), Lose(WHOLE)];
    assert Rejoins(FRONT, BACK, Mark(WHOLE));
    assert Taken([WHOLE], [FRONT], [BACK]);
    assert w4.sent + (set f | f in [FRONT]) == w5.sent;
    OneMoreStep(ws, steps, Resend(6), w5);
    assert Taken([BACK], [BACK], []);
    assert w5.sent + (set f | f in [BACK]) == w6.sent;
    OneMoreStep(ws + [w5], steps + [Resend(6)], Resend(8), w6);
    ws, steps := ws + [w5] + [w6], steps + [Resend(6)] + [Resend(8)];
  }

  lemma BothArrive(w: World)
    requires w.reading == ReadState(EmptySorter(), 0) && !w.failed && WHOLE in w.sent && BACK in w.sent
    ensures Next(w, Deliver(BACK, NoError), w.(reading := ReadState(BACK_ARRIVED, 0)))
    ensures Next(w.(reading := ReadState(BACK_ARRIVED, 0)), Deliver(WHOLE, NoError),
                 w.(reading := ReadState(BOTH_ARRIVED, 0)))
  {
    BackArrives();
    WholeArrives();
  }

  lemma ReadTwoBytes(w: World) returns (w': World)
    requires w.reading == ReadState(BOTH_ARRIVED, 0) && !w.failed && !w.finished && w.delivered == []
    ensures Next(w, ReadSome(2), w') && w'.finished && w'.delivered == [7, 8] && w'.written == w.written
  {
    assert TRIMMED.data[0..2] == [7, 8];
    w' := w.(reading := AfterChunk(w.reading, 2), delivered := [7, 8], finished := true);
    assert w.delivered + [7, 8] == [7, 8];
  }

  lemma ThreeMoreSteps(ws: seq<World>, steps: seq<Step>, s: seq<Step>, w: seq<World>)
    requires IsRun(ws, steps) && |s| == |w| == 3
    requires Next(ws[|ws| - 1], s[0], w[0]) && Next(w[0], s[1], w[1]) && Next(w[1], s[2], w[2])
    ensures IsRun(ws + w, steps + s)
  {
    OneMoreStep(ws, steps, s[0], w[0]);
    OneMoreStep(ws + [w[0]], steps + [s[0]], s[1], w[1]);
    OneMoreStep(ws + [w[0]] + [w[1]], steps + [s[0]] + [s[1]], s[2], w[2]);
    assert ws + [w[0]] + [w[1]] + [w[2]] == ws + w;
    assert steps + [s[0]] + [s[1]] + [s[2]] == steps + s;
  }

  /**
   A frame of three bytes is lost, split, and its second part arrives before the late original.
   The original is trimmed to two bytes, keeps its end mark, and the reader stops after two bytes.
   */
  lemma EarlyEndOfStream() returns (ws: seq<World>, steps: seq<Step>)
    ensures IsRun(ws, steps)
    ensures var w := ws[|ws| - 1]; w.finished && w.delivered == [7, 8] && w.written == [7, 8, 9]
  {
    ws, steps := SentInTwoParts();
    var w := ws[|ws| - 1];
    BothArrive(w);
    var w7, w8 := w.(reading := ReadState(BACK_ARRIVED, 0)), w.(reading := ReadState(BOTH_ARRIVED, 0));
    var w9 := ReadTwoBytes(w8);
    ThreeMoreSteps(ws, steps, [Deliver(BACK, NoError), Deliver(WHOLE, NoError), ReadSome(2)], [w7, w8, w9]);
    steps := steps + [Deliver(BACK, NoError), Deliver(WHOLE, NoError), ReadSome(2)];
    ws := ws + [w7, w8, w9];
  }
}
