/**
 A stream: the reading side takes bytes out of the frame sorter, the writing side holds the bytes
 that wait to be cut into frames. Waiting for more data is returned to the caller as a status.
 */
module Streams {
  import opened Wire
  import opened FrameSorter

  datatype ReadStatus = Done | EndOfStream | WouldBlock | Failed

  /** The receive buffer and the number of bytes that have been handed to the reader. */
  datatype ReadState = ReadState(buffer: SorterState, offset: nat)

  /** Reading has consumed everything below `offset`, which lies in the frame at the read position. */
  ghost predicate ReadOk(r: ReadState) {
    var s := r.buffer;
    && Valid(s)
    && |s.gaps| <= MAX_GAPS
    && (r.offset == s.readPosition
        || (s.readPosition in s.queued && s.readPosition < r.offset < s.queued[s.readPosition].End()))
  }

  type Readable = r: ReadState | ReadOk(r) ghost witness ReadState(EmptySorter(), 0)

  /** Every queued frame carries bytes of `src`. */
  ghost predicate AllSlices(q: map<nat, StreamFrame>, src: seq<byte>) {
    forall k :: k in q ==> SliceOf(q[k], src)
  }

  ghost predicate SubQueue(q': map<nat, StreamFrame>, q: map<nat, StreamFrame>) {
    forall k :: k in q' ==> k in q && q'[k] == q[k]
  }

  /** A queued frame that carries the end mark ends at `e`. */
  ghost predicate FinAt(q: map<nat, StreamFrame>, e: nat) {
    exists k :: k in q && q[k].fin && q[k].End() == e
  }

  /** `m` bytes can be taken from the frame at the read position. */
  ghost predicate Chunk(r: ReadState, m: nat) {
    var p, q := r.buffer.readPosition, r.buffer.queued;
    p in q && q[p].offset == p <= r.offset && r.offset + m <= q[p].End()
  }

  /** The state after `m` bytes of the frame at the read position; the frame is dropped when it is used up. */
  ghost function AfterChunk(r: ReadState, m: nat): ReadState
    requires Chunk(r, m)
  {
    var s := r.buffer;
    var f := s.queued[s.readPosition];
    if r.offset + m < f.End() then
      r.(offset := r.offset + m)
    else
      ReadState(SorterState(s.queued - {s.readPosition}, s.gaps, f.End()), f.End())
  }

  ghost function ChunkData(r: ReadState, m: nat): seq<byte>
    requires Chunk(r, m)
  {
    var f := r.buffer.queued[r.buffer.readPosition];
    f.data[r.offset - f.offset..r.offset - f.offset + m]
  }

  /** Reading never passes the first gap, and stops short of it only while a frame is queued to read from. */
  lemma ReadBelowGap(r: Readable)
    ensures r.buffer.gaps != [] && r.buffer.readPosition <= r.offset <= r.buffer.gaps[0].start
    ensures r.offset < r.buffer.gaps[0].start ==> r.buffer.readPosition in r.buffer.queued
  {
    if r.offset != r.buffer.readPosition {
      HeadBelowFirstGap(r.buffer);
      assert Walk(r.buffer.queued, r.buffer.queued[r.buffer.readPosition].End(), r.buffer.gaps[0].start);
    }
  }

  lemma ChunkKeepsReadOk(r: Readable, m: nat)
    requires Chunk(r, m)
    ensures ReadOk(AfterChunk(r, m))
  {
    PopKeepsValid(r.buffer);
  }

  lemma ChunkOfSlice(r: ReadState, m: nat, src: seq<byte>)
    requires Chunk(r, m) && AllSlices(r.buffer.queued, src)
    ensures r.offset + m <= |src| && ChunkData(r, m) == src[r.offset..r.offset + m]
  {
    var f := r.buffer.queued[r.buffer.readPosition];
    ClipOfSlice(f, r.offset, r.offset + m, src);
  }

  /** `data` is what `src` holds from `start` on. */
  ghost predicate Copied(data: seq<byte>, start: nat, src: seq<byte>) {
    data == [] || (start + |data| <= |src| && data == src[start..start + |data|])
  }

  lemma CopiedMore(data: seq<byte>, chunk: seq<byte>, start: nat, src: seq<byte>)
    requires Copied(data, start, src) && Copied(chunk, start + |data|, src)
    ensures Copied(data + chunk, start, src)
  {
    if data != [] && chunk != [] {
      var m, e := start + |data|, start + |data| + |chunk|;
      assert src[start..e] == src[start..m] + src[m..e];
    }
  }

  // ----- Reading until the buffer is full -----

  /** The bytes that are read, the state afterwards, and whether the end of the stream was reached. */
  datatype Got = Got(data: seq<byte>, state: ReadState, fin: bool)

  /** How much of the frame at the read position fits. */
  ghost function ChunkSize(r: Readable, room: nat): (m: nat)
    requires r.buffer.readPosition in r.buffer.queued
    ensures Chunk(r, m) && m <= room
  {
    var f := r.buffer.queued[r.buffer.readPosition];
    Min(room, f.End() - r.offset)
  }

  /** The frame at the read position is used up, and it carries the end mark. */
  ghost predicate UsesUpFin(r: Readable, m: nat)
    requires Chunk(r, m)
  {
    var f := r.buffer.queued[r.buffer.readPosition];
    r.offset + m == f.End() && f.fin
  }

  lemma ChunkProgress(r: Readable, room: nat)
    requires room > 0 && r.buffer.readPosition in r.buffer.queued
    ensures ChunkSize(r, room) > 0 || UsesUpFin(r, ChunkSize(r, room))
  {
  }

  /** Take from frame after frame until there is no more room, the next byte is missing, or the end is reached. */
  ghost function ReadRun(r: Readable, room: nat): Got
    decreases room
  {
    if room == 0 || r.buffer.readPosition !in r.buffer.queued then Got([], r, false)
    else
      var m := ChunkSize(r, room);
      ChunkKeepsReadOk(r, m);
      if UsesUpFin(r, m) then Got(ChunkData(r, m), AfterChunk(r, m), true)
      else
        var g := ReadRun(AfterChunk(r, m), room - m);
        g.(data := ChunkData(r, m) + g.data)
  }

  lemma ChunkResult(r: Readable, m: nat, src: seq<byte>)
    requires Chunk(r, m) && AllSlices(r.buffer.queued, src)
    ensures var r' := AfterChunk(r, m);
            && ReadOk(r') && r'.offset == r.offset + m && r'.buffer.gaps == r.buffer.gaps
            && SubQueue(r'.buffer.queued, r.buffer.queued)
            && AllSlices(r'.buffer.queued, src) && Copied(ChunkData(r, m), r.offset, src) && |ChunkData(r, m)| == m
  {
    ChunkKeepsReadOk(r, m);
    ChunkOfSlice(r, m, src);
  }

  lemma ReadStep(r: Readable, room: nat, m: nat, done: seq<byte>)
    requires room > 0 && r.buffer.readPosition in r.buffer.queued && m == ChunkSize(r, room)
    ensures ReadOk(AfterChunk(r, m)) && (m > 0 || UsesUpFin(r, m))
    ensures if UsesUpFin(r, m) then ReadRun(r, room) == Got(ChunkData(r, m), AfterChunk(r, m), true)
            else
              var rest := ReadRun(AfterChunk(r, m), room - m);
              && ReadRun(r, room) == rest.(data := ChunkData(r, m) + rest.data)
              && done + (ChunkData(r, m) + rest.data) == done + ChunkData(r, m) + rest.data
  {
    ChunkKeepsReadOk(r, m);
  }

  lemma ReadNothing(r: Readable, room: nat)
    requires room == 0 || r.buffer.readPosition !in r.buffer.queued
    ensures ReadRun(r, room) == Got([], r, false)
  {
  }

  /**
   What is read are the next bytes of the source; the end is reported only at an end mark, and a short read stops at the
   first gap.
   */
  lemma {:induction false} ReadRunIsSlice(r: Readable, room: nat, src: seq<byte>)
    requires AllSlices(r.buffer.queued, src)
    ensures var g := ReadRun(r, room);
            && ReadOk(g.state) && g.state.buffer.gaps == r.buffer.gaps
            && SubQueue(g.state.buffer.queued, r.buffer.queued)
            && |g.data| <= room && g.state.offset == r.offset + |g.data|
            && AllSlices(g.state.buffer.queued, src) && Copied(g.data, r.offset, src)
            && (g.fin ==> FinAt(r.buffer.queued, g.state.offset))
            && (!g.fin && |g.data| < room ==> g.state.offset == r.buffer.gaps[0].start)
    decreases room
  {
    hide Copied, AllSlices, AfterChunk, ChunkData, Valid, MAX_GAPS;
    ReadBelowGap(r);
    NothingCopied(r.offset, src);
    SameQueue(r.buffer.queued);
    if room > 0 && r.buffer.readPosition in r.buffer.queued {
      var m := ChunkSize(r, room);
      ChunkResult(r, m, src);
      ChunkProgress(r, room);
      if !UsesUpFin(r, m) {
        var r' := AfterChunk(r, m);
        ReadRunIsSlice(r', room - m, src);
        CopiedMore(ChunkData(r, m), ReadRun(r', room - m).data, r.offset, src);
      }
    }
  }

  lemma {:induction false} WalkOf(q: map<nat, StreamFrame>, q': map<nat, StreamFrame>, p: nat, e: nat, k: nat)
    requires SubQueue(q', q) && Walk(q', p, e)
    ensures Walk(q, p, e) && (OnWalk(q, p, e, k) ==> OnWalk(q', p, e, k) && k in q' && q'[k] == q[k])
    decreases e - p
  {
    if p < e {
      WalkOf(q, q', p + |q'[p].data|, e, k);
    }
  }

  /** The end is reported whenever it is reached: no frame that was used up without the report carries an end mark. */
  lemma {:induction false} EndIsReported(r: Readable, room: nat, k: nat)
    requires !ReadRun(r, room).fin
    ensures var q, e := r.buffer.queued, ReadRun(r, room).state.buffer.readPosition;
            Walk(q, r.buffer.readPosition, e) && (OnWalk(q, r.buffer.readPosition, e, k) ==> k in q && !q[k].fin)
    decreases room
  {
    hide Valid, MAX_GAPS;
    if room > 0 && r.buffer.readPosition in r.buffer.queued {
      var m := ChunkSize(r, room);
      var r' := AfterChunk(r, m);
      ChunkKeepsReadOk(r, m);
      ChunkProgress(r, room);
      EndIsReported(r', room - m, k);
      WalkOf(r.buffer.queued, r'.buffer.queued, r'.buffer.readPosition, ReadRun(r', room - m).state.buffer.readPosition,
             k);
    }
  }

  lemma NothingCopied(start: nat, src: seq<byte>)
    ensures Copied([], start, src)
  {
  }

  lemma SameQueue(q: map<nat, StreamFrame>)
    ensures SubQueue(q, q)
  {
  }

  class Stream {
    const sorter: Sorter
    var readOffset: nat
    var finishedReading: bool
    var cancelled: bool
    var resetLocally: bool

    constructor (frameQueue: Sorter)
      requires Valid(frameQueue.State()) && |frameQueue.gaps| <= MAX_GAPS
      ensures sorter == frameQueue && readOffset == frameQueue.readPosition && ReadOk(Reading())
      ensures !finishedReading && !cancelled && !resetLocally
    {
      sorter := frameQueue;
      readOffset := frameQueue.readPosition;
      finishedReading, cancelled, resetLocally := false, false, false;
    }

    ghost function Reading(): ReadState
      reads this, sorter
    {
      ReadState(sorter.State(), readOffset)
    }

    /** Copy what fits of the frame at the read position to `p` from index `n` on. */
    method CopyChunk(p: array<byte>, n: nat) returns (m: nat, found: bool, fin: bool)
      requires ReadOk(Reading()) && n < p.Length
      modifies this`readOffset, sorter, p
      ensures ReadOk(Reading())
      ensures found == old(sorter.readPosition in sorter.queued)
      ensures !found ==> m == 0 && !fin && Reading() == old(Reading())
      ensures found ==> m == ChunkSize(old(Reading()), p.Length - n) && Reading() == AfterChunk(old(Reading()), m)
      ensures found ==> fin == UsesUpFin(old(Reading()), m) && p[n..n + m] == ChunkData(old(Reading()), m)
      ensures p[..n] == old(p[..n])
    {
      ReadBelowGap(Reading());
      var head := sorter.Head(false, false);
      if head.None? {
        return 0, false, false;
      }
      var frame := head.value;
      var pos := readOffset - frame.offset;
      m := Min(p.Length - n, |frame.data| - pos);
      ChunkKeepsReadOk(Reading(), m);
      forall k | n <= k < n + m {
        p[k] := frame.data[pos + (k - n)];
      }
      found, fin := true, false;
      readOffset := readOffset + m;
      if pos + m >= |frame.data| {
        var _ := sorter.Pop(false, false);
        fin := frame.fin;
      }
    }

    /** Fill `p` until it is full, nothing more can be read, or the end of the stream is reached. */
    method ReadLoop(p: array<byte>) returns (n: nat, status: ReadStatus)
      requires ReadOk(Reading())
      modifies this`readOffset, sorter, p
      ensures var g := ReadRun(old(Reading()), p.Length);
              && Reading() == g.state && n == |g.data| <= p.Length && p[..n] == g.data
              && status == if g.fin then EndOfStream else if n == 0 && p.Length > 0 then WouldBlock else Done
    {
      hide ReadRun, ReadOk, ChunkSize, AfterChunk, ChunkData, UsesUpFin;
      ghost var g := ReadRun(Reading(), p.Length);
      n, status := 0, Done;
      var more := true;
      assert p[..0] + g.data == g.data;
      while n < p.Length && more
        invariant n <= p.Length && ReadOk(Reading()) && status != Failed && (more ==> status == Done)
        invariant more ==> var rest := ReadRun(Reading(), p.Length - n); g == rest.(data := p[..n] + rest.data)
        invariant !more ==> g == Got(p[..n], Reading(), status == EndOfStream) && p.Length > 0
                            && (status == WouldBlock <==> n == 0 && !g.fin)
        decreases p.Length - n, more
      {
        ghost var done := p[..n];
        ghost var r: Readable := Reading();
        var m, found, fin := CopyChunk(p, n);
        if found {
          ReadStep(r, p.Length - n, m, done);
          assert p[..n + m] == done + p[n..n + m];
        } else {
          ReadNothing(r, p.Length - n);
          assert done + [] == done;
        }
        n := n + m;
        more := found && !fin;
        status := if fin then EndOfStream else if found || n > 0 then Done else WouldBlock;
      }
      if more {
        ReadNothing(Reading(), 0);
        assert p[..n] + [] == p[..n];
      }
    }

    /** Read into `p`, whose bytes come from `src`. */
    method Read(p: array<byte>, ghost src: seq<byte>) returns (n: nat, status: ReadStatus)
      requires ReadOk(Reading()) && AllSlices(sorter.queued, src)
      modifies this`readOffset, this`finishedReading, sorter, p
      ensures status == Failed <==> old(cancelled || resetLocally)
      ensures status == Failed || old(finishedReading) ==> n == 0 && Reading() == old(Reading())
      ensures status != Failed && old(finishedReading) ==> status == EndOfStream
      ensures status != Failed && !old(finishedReading) ==>
                var g := ReadRun(old(Reading()), p.Length);
                Reading() == g.state && n == |g.data| <= p.Length && p[..n] == g.data
                    && (status == EndOfStream <==> g.fin)
      ensures ReadOk(Reading()) && AllSlices(sorter.queued, src) && Copied(p[..n], old(readOffset), src)
      ensures readOffset == old(readOffset) + n && sorter.gaps == old(sorter.gaps)
      ensures status == Done && n < p.Length ==> n > 0 && readOffset == sorter.gaps[0].start
      ensures status == WouldBlock ==> p.Length > 0 && n == 0 && readOffset == sorter.gaps[0].start
      ensures finishedReading == (old(finishedReading) || status == EndOfStream)
    {
      hide ReadRun, AllSlices, Copied;
      NothingCopied(readOffset, src);
      assert p[..0] == [];
      if cancelled || resetLocally {
        return 0, Failed;
      }
      if finishedReading {
        return 0, EndOfStream;
      }
      ReadRunIsSlice(Reading(), p.Length, src);
      n, status := ReadLoop(p);
      finishedReading := status == EndOfStream;
    }
  }
}
