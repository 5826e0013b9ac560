/** Cutting the bytes of a stream into frames: new data, and frames that are sent again after a loss. */
module Framer {
  import opened Wire
  import opened Wrappers

  // ----- The length of a frame header -----

  function StreamIdLength(streamId: nat): nat {
    if streamId < 0x100 then 1
    else if streamId < 0x1_0000 then 2
    else if streamId < 0x100_0000 then 3
    else 4
  }

  function OffsetLength(offset: nat): nat {
    if offset == 0 then 0
    else if offset < 0x1_0000 then 2
    else if offset < 0x100_0000 then 3
    else if offset < 0x1_0000_0000 then 4
    else if offset < 0x100_0000_0000 then 5
    else if offset < 0x1_0000_0000_0000 then 6
    else if offset < 0x100_0000_0000_0000 then 7
    else 8
  }

  function HeaderLength(f: StreamFrame): nat {
    1 + StreamIdLength(f.streamId) + OffsetLength(f.offset) + if f.dataLenPresent then 2 else 0
  }

  function WireLength(fs: seq<StreamFrame>): nat {
    if fs == [] then 0 else HeaderLength(fs[0]) + |fs[0].data| + WireLength(fs[1..])
  }

  lemma {:induction false} WireLengthAppend(a: seq<StreamFrame>, b: seq<StreamFrame>)
    ensures WireLength(a + b) == WireLength(a) + WireLength(b)
  {
    if a == [] {
      assert a + b == b;
    } else {
      assert (a + b)[1..] == a[1..] + b;
      WireLengthAppend(a[1..], b);
    }
  }

  lemma NoFrames()
    ensures WireLength([]) == 0
  {
  }

  lemma WireLengthOneMore(fs: seq<StreamFrame>, f: StreamFrame)
    ensures WireLength(fs + [f]) == WireLength(fs) + HeaderLength(f) + |f.data|
  {
    WireLengthAppend(fs, [f]);
  }

  // ----- New data -----

  /** The data of the next frame and what is left to send, for at most `room` bytes. */
  function TakeData(pending: Option<seq<byte>>, room: nat): (seq<byte>, Option<seq<byte>>) {
    match pending
    case None => ([], None)
    case Some(d) => if |d| > room then (d[..room], Some(d[room..])) else (d, None)
  }

  // ----- Splitting -----

  /** The first `n` bytes as a frame of their own, and the frame that remains; nothing if `n` covers the frame. */
  function SplitOff(f: StreamFrame, n: nat): (r: Option<(StreamFrame, StreamFrame)>)
    ensures r.None? <==> n >= |f.data|
    ensures r.Some? ==> Rejoins(r.value.0, r.value.1, f)
  {
    if n >= |f.data| then
      None
    else
      Some((f.Clip(f.offset, f.offset + n).(fin := false), f.Clip(f.offset + n, f.End())))
  }

  lemma SplitLength(f: StreamFrame, n: nat)
    requires n < |f.data|
    ensures var a := SplitOff(f, n).value.0; |a.data| == n && HeaderLength(a) == HeaderLength(f)
  {
  }

  /** `a` and `b` carry the bytes of `f` in order, and only the second one carries its end mark. */
  ghost predicate Rejoins(a: StreamFrame, b: StreamFrame, f: StreamFrame) {
    && a.data + b.data == f.data
    && a.offset == f.offset && b.offset == a.End()
    && !a.fin && b.fin == f.fin
    && a.streamId == b.streamId == f.streamId
    && a.unreliable == b.unreliable == f.unreliable
    && a.dataLenPresent == b.dataLenPresent == f.dataLenPresent
  }

  // ----- Frames that are sent again -----

  function Mark(f: StreamFrame): StreamFrame {
    f.(dataLenPresent := true)
  }

  function MarkAll(fs: seq<StreamFrame>): (r: seq<StreamFrame>)
    ensures |r| == |fs| && forall i :: 0 <= i < |fs| ==> r[i] == Mark(fs[i])
  {
    seq(|fs|, i requires 0 <= i < |fs| => Mark(fs[i]))
  }

  /**
   `res` is the front of `queue` and `rest` is what stays behind: either the queue is cut between two
   frames, or in the middle of one frame, whose parts rejoin to it.
   */
  ghost predicate Taken(queue: seq<StreamFrame>, res: seq<StreamFrame>, rest: seq<StreamFrame>) {
    || (|res| <= |queue| && res == MarkAll(queue[..|res|])
        && (rest == queue[|res|..]
            || (|res| < |queue| && rest == [Mark(queue[|res|])] + queue[|res| + 1..])))
    || (var k := |res| - 1;
        && 0 <= k < |queue| && rest != []
        && res[..k] == MarkAll(queue[..k])
        && Rejoins(res[k], rest[0], Mark(queue[k])) && res[k].data != [] && rest[0].data != []
        && rest[1..] == queue[k + 1..])
  }

  /** The frames that are sent again in `room` bytes, and what stays in the queue. */
  function PopAgain(queue: seq<StreamFrame>, room: nat): (r: (seq<StreamFrame>, seq<StreamFrame>))
    ensures WireLength(r.0) <= room
  {
    if queue == [] then ([], [])
    else
      var f := Mark(queue[0]);
      if HeaderLength(f) >= room then ([], [f] + queue[1..])
      else
        match SplitOff(f, room - HeaderLength(f))
        case Some((a, b)) => ([a], [b] + queue[1..])
        case None =>
          var (res, rest) := PopAgain(queue[1..], room - HeaderLength(f) - |f.data|);
          ([f] + res, rest)
  }

  lemma TakenBehind(f: StreamFrame, queue: seq<StreamFrame>, res: seq<StreamFrame>, rest: seq<StreamFrame>)
    requires Taken(queue, res, rest)
    ensures Taken([f] + queue, [Mark(f)] + res, rest)
  {
    var queue', res' := [f] + queue, [Mark(f)] + res;
    assert forall k :: 0 <= k <= |queue| ==> queue'[..k + 1] == [f] + queue[..k] && queue'[k + 1..] == queue[k..];
    assert forall k :: 0 <= k <= |queue| ==> MarkAll(queue'[..k + 1]) == [Mark(f)] + MarkAll(queue[..k]);
    if !(|res| <= |queue| && res == MarkAll(queue[..|res|])) {
      assert res'[..|res|] == [Mark(f)] + res[..|res| - 1];
    }
  }

  /** The frames are the front of the queue, at most one is split, and there is no room for the next header. */
  lemma {:induction false} AgainIsTaken(queue: seq<StreamFrame>, room: nat)
    ensures var (res, rest) := PopAgain(queue, room);
            && Taken(queue, res, rest)
            && (rest != [] ==> WireLength(res) == room || WireLength(res) + HeaderLength(rest[0]) >= room)
    decreases |queue|
  {
    if queue != [] {
      var f := Mark(queue[0]);
      if HeaderLength(f) < room && SplitOff(f, room - HeaderLength(f)).None? {
        AgainIsTaken(queue[1..], room - HeaderLength(f) - |f.data|);
        var (res, rest) := PopAgain(queue[1..], room - HeaderLength(f) - |f.data|);
        TakenBehind(queue[0], queue[1..], res, rest);
        assert [queue[0]] + queue[1..] == queue;
      }
    }
  }

  class StreamFramer {
    var retransmissionQueue: seq<StreamFrame>

    constructor ()
      ensures retransmissionQueue == []
    {
      retransmissionQueue := [];
    }

    method AddFrameForRetransmission(frame: StreamFrame)
      modifies this
      ensures retransmissionQueue == old(retransmissionQueue) + [frame]
    {
      retransmissionQueue := retransmissionQueue + [frame];
    }

    method PopFramesForRetransmission(maxLen: nat) returns (res: seq<StreamFrame>, currentLen: nat)
      modifies this
      ensures (res, retransmissionQueue) == PopAgain(old(retransmissionQueue), maxLen)
      ensures currentLen == WireLength(res) <= maxLen
    {
      hide HeaderLength, WireLength;
      NoFrames();
      res, currentLen := [], 0;
      ghost var all := PopAgain(retransmissionQueue, maxLen);
      assert [] + all.0 == all.0;
      while |retransmissionQueue| > 0
        invariant currentLen == WireLength(res) <= maxLen
        invariant var again := PopAgain(retransmissionQueue, maxLen - currentLen); all == (res + again.0, again.1)
        decreases |retransmissionQueue|
      {
        var frame := Mark(retransmissionQueue[0]);
        assert ([frame] + retransmissionQueue[1..])[1..] == retransmissionQueue[1..];
        retransmissionQueue := [frame] + retransmissionQueue[1..];
        var frameHeaderLen := HeaderLength(frame);
        if currentLen + frameHeaderLen >= maxLen {
          assert res + [] == res;
          break;
        }
        currentLen := currentLen + frameHeaderLen;
        var split := SplitOff(frame, maxLen - currentLen);
        if split.Some? {
          retransmissionQueue := [split.value.1] + retransmissionQueue[1..];
          SplitLength(frame, maxLen - currentLen);
          WireLengthOneMore(res, split.value.0);
          res := res + [split.value.0];
          currentLen := currentLen + |split.value.0.data|;
          break;
        }
        retransmissionQueue := retransmissionQueue[1..];
        WireLengthOneMore(res, frame);
        ghost var before := res;
        res := res + [frame];
        currentLen := currentLen + |frame.data|;
        ghost var again := PopAgain(retransmissionQueue, maxLen - currentLen);
        assert before + ([frame] + again.0) == res + again.0;
      }
      assert res + [] == res;
    }
  }
}
