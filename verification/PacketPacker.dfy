/** Filling a packet: control frames, frames that are sent again, and new stream frames. */
module PacketPacker {
  import opened Wire
  import opened Wrappers
  import opened Framer
  import opened FramingPass

  function Sum(lengths: seq<nat>): nat {
    if lengths == [] then 0 else lengths[|lengths| - 1] + Sum(lengths[..|lengths| - 1])
  }

  /** The frames with the length field of the last one left out. */
  function WithoutLastLength(fs: seq<StreamFrame>): seq<StreamFrame> {
    if fs == [] then [] else SetLast(fs, fs[|fs| - 1].(dataLenPresent := false))
  }

  ghost predicate LengthsPresent(fs: seq<StreamFrame>) {
    forall i :: 0 <= i < |fs| ==> fs[i].dataLenPresent
  }

  /** Leaving out the last length field saves two bytes. */
  lemma LastLengthSavesTwo(fs: seq<StreamFrame>)
    requires fs != [] && LengthsPresent(fs)
    ensures WireLength(WithoutLastLength(fs)) == WireLength(fs) - 2
  {
    var n := |fs| - 1;
    assert fs == fs[..n] + [fs[n]];
    assert WithoutLastLength(fs) == fs[..n] + [fs[n].(dataLenPresent := false)];
    WireLengthAppend(fs[..n], [fs[n]]);
    WireLengthAppend(fs[..n], [fs[n].(dataLenPresent := false)]);
  }

  lemma TakenLengthsPresent(queue: seq<StreamFrame>, res: seq<StreamFrame>, rest: seq<StreamFrame>)
    requires Taken(queue, res, rest)
    ensures LengthsPresent(res)
  {
    forall i | 0 <= i < |res|
      ensures res[i].dataLenPresent
    {
      if i < |res| - 1 {
        assert res[i] == res[..|res| - 1][i];
      }
    }
  }

  lemma {:induction false} CutLengthsPresent(t: GoodTrace, n: nat)
    requires n <= |t.cuts|
    ensures LengthsPresent(Somes(t.cuts[..n]))
  {
    if n > 0 {
      CutLengthsPresent(t, n - 1);
      assert t.cuts[..n][..n - 1] == t.cuts[..n - 1];
      assert CutFrom(t.before[t.order[n - 1]], t.windows[t.order[n - 1]], t.cuts[n - 1], t.after[t.order[n - 1]]);
    }
  }

  lemma FramesLengthsPresent(inputs: Inputs)
    requires inputs.Ok()
    ensures LengthsPresent(inputs.Frames())
  {
    var t := inputs.Conserves();
    CutLengthsPresent(t, |t.cuts|);
    assert t.cuts[..|t.cuts|] == t.cuts;
    assert inputs.Overwritten() ==> inputs.Relabelled().dataLenPresent
                                    == inputs.First().frames[|inputs.First().frames| - 1].dataLenPresent;
  }

  /** The header of an overwritten frame has not got longer. */
  ghost predicate Fits(inputs: Inputs)
    requires inputs.Ok()
  {
    inputs.Overwritten() ==>
      var cuts := inputs.Cuts();
      cuts != [] && HeaderLength(inputs.Relabelled()) <= HeaderLength(cuts[|cuts| - 1])
  }

  /**
   The frames to send again and the new ones, with the last length field left out, fit exactly if an overwritten header
   has not got longer.
   */
  lemma FitsIff(queue: seq<StreamFrame>, limit: nat, inputs: Inputs)
    requires limit >= 2 && inputs.Ok() && inputs.room == limit - WireLength(PopAgain(queue, limit).0)
    ensures WireLength(WithoutLastLength(PopAgain(queue, limit).0 + inputs.Frames())) <= limit - 2 <==> Fits(inputs)
  {
    hide PopAgain, HeaderLength;
    var again := PopAgain(queue, limit).0;
    var fs := again + inputs.Frames();
    AgainIsTaken(queue, limit);
    TakenLengthsPresent(queue, again, PopAgain(queue, limit).1);
    FramesLengthsPresent(inputs);
    WireLengthAppend(again, inputs.Frames());
    if fs != [] {
      LastLengthSavesTwo(fs);
    } else {
      NoFrames();
    }
    if inputs.Overwritten() {
      inputs.OverwrittenFitsIff();
    } else {
      var t := inputs.Conserves();
    }
  }

  /**
   A packet for three bytes of frames gets longer than that when the byte of stream 5 goes out under stream 7, which has
   sent bytes before.
   */
  lemma PacketTooLarge(offset: nat)
    requires offset > 0
    ensures Example(offset).Ok() && !Fits(Example(offset))
            && WireLength(WithoutLastLength(Example(offset).Frames())) > 3
  {
    ByteOnOtherStream(offset);
    FitsIff([], 5, Example(offset));
    assert [] + Example(offset).Frames() == Example(offset).Frames();
  }

  class PacketPacker {
    /** The lengths of the control frames that wait to be sent. */
    var controlFrames: seq<nat>

    constructor ()
      ensures controlFrames == []
    {
      controlFrames := [];
    }

    /** Take control frames from the end of the queue while they fit. */
    method PopControlFrames(fixedLength: nat, maxFrameSize: nat) returns (lengths: seq<nat>, payloadLength: nat)
      modifies this
      ensures payloadLength == fixedLength + Sum(lengths)
      ensures lengths != [] ==> payloadLength <= maxFrameSize
      ensures |lengths| + |controlFrames| == old(|controlFrames|)
              && controlFrames == old(controlFrames)[..|controlFrames|]
      ensures forall i :: 0 <= i < |lengths| ==> lengths[i] == old(controlFrames)[old(|controlFrames|) - 1 - i]
      ensures controlFrames != [] ==> payloadLength + controlFrames[|controlFrames| - 1] > maxFrameSize
    {
      lengths, payloadLength := [], fixedLength;
      while |controlFrames| > 0
        invariant payloadLength == fixedLength + Sum(lengths)
        invariant lengths != [] ==> payloadLength <= maxFrameSize
        invariant |lengths| + |controlFrames| == old(|controlFrames|)
                  && controlFrames == old(controlFrames)[..|controlFrames|]
        invariant forall i :: 0 <= i < |lengths| ==> lengths[i] == old(controlFrames)[old(|controlFrames|) - 1 - i]
      {
        var minLength := controlFrames[|controlFrames| - 1];
        if payloadLength + minLength > maxFrameSize {
          break;
        }
        assert (lengths + [minLength])[..|lengths|] == lengths;
        lengths := lengths + [minLength];
        payloadLength := payloadLength + minLength;
        controlFrames := controlFrames[..|controlFrames| - 1];
      }
    }

    /**
     Frames to send again, and then new frames in the room that is left; `after` is what the streams still have to send.
     */
    method PopStreamFrames(maxLen: nat, framer: StreamFramer, streams: seq<SendState>, priority: seq<nat>,
                           first: seq<nat>,
                           second: seq<nat>, windows: seq<nat>, sendingAllowed: bool)
      returns (fs: seq<StreamFrame>, after: seq<SendState>)
      requires |windows| == |streams| && Fresh(priority + first + second, |streams|, [])
      modifies framer
      ensures var (again, rest) := PopAgain(old(framer.retransmissionQueue), maxLen);
              var inputs := Inputs(streams, windows, priority, first, second, sendingAllowed,
                                   maxLen - WireLength(again));
              fs == again + inputs.Frames() && after == inputs.After() && framer.retransmissionQueue == rest
    {
      hide PopAgain, WireLength, Inputs.Frames, Inputs.After;
      var resent, currentLen := framer.PopFramesForRetransmission(maxLen);
      var pass := new Pass(maxLen - currentLen, streams);
      pass.PopNormalFrames(priority, first, second, windows, sendingAllowed);
      fs, after := resent + pass.res, pass.streams;
    }

    /**
     Compose the payload of a packet. The limit is raised by two bytes for the stream frames, because
     the last of them goes without its length field.
     */
    method ComposeNextPacket(maxFrameSize: nat, fixedLength: nat, canSendStreamFrames: bool, framer: StreamFramer,
                             streams: seq<SendState>, priority: seq<nat>, first: seq<nat>, second: seq<nat>,
                             windows: seq<nat>, sendingAllowed: bool)
      returns (ok: bool, lengths: seq<nat>, frames: seq<StreamFrame>, after: seq<SendState>)
      requires |windows| == |streams| && Fresh(priority + first + second, |streams|, [])
      modifies this, framer
      ensures ok <==> fixedLength <= maxFrameSize
      ensures ok ==> fixedLength + Sum(lengths) <= maxFrameSize
      ensures !ok || !canSendStreamFrames ==>
                frames == [] && after == streams && framer.retransmissionQueue == old(framer.retransmissionQueue)
      ensures ok && canSendStreamFrames ==>
                var limit := maxFrameSize + 2 - fixedLength - Sum(lengths);
                var (again, rest) := PopAgain(old(framer.retransmissionQueue), limit);
                var inputs := Inputs(streams, windows, priority, first, second, sendingAllowed,
                                     limit - WireLength(again));
                && frames == WithoutLastLength(again + inputs.Frames()) && after == inputs.After()
                && framer.retransmissionQueue == rest
                && (fixedLength + Sum(lengths) + WireLength(frames) <= maxFrameSize <==> Fits(inputs))
    {
      hide PopAgain, WireLength, Fits, WithoutLastLength, Inputs.Frames, Inputs.After;
      frames, after := [], streams;
      var payloadLength;
      lengths, payloadLength := PopControlFrames(fixedLength, maxFrameSize);
      if payloadLength > maxFrameSize {
        ok := false;
        return;
      }
      ok := true;
      if canSendStreamFrames {
        var limit := maxFrameSize + 2 - payloadLength;
        ghost var queue := framer.retransmissionQueue;
        var fs;
        fs, after := PopStreamFrames(limit, framer, streams, priority, first, second, windows, sendingAllowed);
        frames := WithoutLastLength(fs);
        FitsIff(queue, limit, Inputs(streams, windows, priority, first, second, sendingAllowed,
                                     limit - WireLength(PopAgain(queue, limit).0)));
      }
    }
  }
}
