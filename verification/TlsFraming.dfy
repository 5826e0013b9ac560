/**
 Cutting a byte stream into frames: a header of fixed length that tells the length of the body. The
 same reader cuts the socket's bytes into records and the records' contents into handshake messages.
 */
module TlsFraming {
  import opened Wire
  import opened Wrappers

  const MAX_FRAGMENT: nat := 0x4000

  datatype Details = RecordDetails | HandshakeDetails {
    function HeaderLen(): nat {
      match this
      case RecordDetails => 5
      case HandshakeDetails => 4
    }

    function FrameLen(hdr: seq<byte>): nat
      requires |hdr| == HeaderLen()
    {
      match this
      case RecordDetails => hdr[3] as int * 0x100 + hdr[4] as int
      case HandshakeDetails => hdr[1] as int * 0x1_0000 + hdr[2] as int * 0x100 + hdr[3] as int
    }
  }

  datatype Frame = Frame(header: seq<byte>, body: seq<byte>) {
    ghost predicate Fits(d: Details) {
      |header| == d.HeaderLen() && |body| == d.FrameLen(header)
    }

    function Bytes(): seq<byte> {
      header + body
    }
  }

  /** The bytes of frames in order. */
  ghost function Joined(fs: seq<Frame>): seq<byte> {
    if fs == [] then [] else fs[0].Bytes() + Joined(fs[1..])
  }

  ghost predicate AllFit(d: Details, fs: seq<Frame>) {
    forall i :: 0 <= i < |fs| ==> fs[i].Fits(d)
  }

  /** The first frame of `s` and the bytes behind it, if the frame is complete. */
  ghost function TakeFrame(d: Details, s: seq<byte>): (r: Option<(Frame, seq<byte>)>)
    ensures r.Some? ==> r.value.0.Fits(d) && s == r.value.0.Bytes() + r.value.1
  {
    var h := d.HeaderLen();
    if |s| < h || |s| < h + d.FrameLen(s[..h]) then
      None
    else
      var e := h + d.FrameLen(s[..h]);
      assert s == s[..h] + s[h..e] + s[e..];
      Some((Frame(s[..h], s[h..e]), s[e..]))
  }

  /** A frame can be cut off in one way only. */
  lemma TakeFrameIsUnique(d: Details, f: Frame, rest: seq<byte>)
    requires f.Fits(d)
    ensures TakeFrame(d, f.Bytes() + rest) == Some((f, rest))
  {
    var s := f.Bytes() + rest;
    var h := d.HeaderLen();
    assert s[..h] == f.header;
    assert s[h..h + |f.body|] == f.body && s[h + |f.body|..] == rest;
  }

  lemma {:induction false} JoinedAppend(a: seq<Frame>, b: seq<Frame>)
    ensures Joined(a + b) == Joined(a) + Joined(b)
  {
    if a == [] {
      assert a + b == b;
    } else {
      assert (a + b)[1..] == a[1..] + b;
      JoinedAppend(a[1..], b);
    }
  }

  /**
   Frames cut from the front of a stream are the frames that were put into it, whatever is still to come.
   */
  lemma {:induction false} FramesAreUnique(d: Details, cut: seq<Frame>, sent: seq<Frame>, rest: seq<byte>)
    requires AllFit(d, cut) && AllFit(d, sent) && Joined(cut) + rest == Joined(sent)
    ensures cut <= sent && rest == Joined(sent[|cut|..])
  {
    if cut == [] {
      assert Joined(cut) + rest == rest && sent[0..] == sent;
    } else {
      var f, more := cut[0], Joined(cut[1..]) + rest;
      assert Joined(cut) + rest == f.Bytes() + more;
      assert sent != [] by {
        assert |f.header| > 0;
      }
      TakeFrameIsUnique(d, f, more);
      TakeFrameIsUnique(d, sent[0], Joined(sent[1..]));
      FramesAreUnique(d, cut[1..], sent[1..], rest);
      assert sent[1..][|cut| - 1..] == sent[|cut|..];
      assert cut == [f] + cut[1..] && sent == [sent[0]] + sent[1..];
    }
  }

  /** When all bytes of some frames are there, one can be cut off unless there are none. */
  lemma NothingLeft(d: Details, sent: seq<Frame>)
    requires AllFit(d, sent) && TakeFrame(d, Joined(sent)).None?
    ensures sent == []
  {
    if sent != [] {
      TakeFrameIsUnique(d, sent[0], Joined(sent[1..]));
    }
  }

  datatype Reading = Header | Body

  class FrameReader {
    const details: Details
    var state: Reading
    var header: seq<byte>
    var body: seq<byte>
    var writeOffset: nat
    var remainder: seq<byte>

    constructor (details: Details)
      ensures this.details == details && Valid() && Pending() == []
    {
      this.details := details;
      state, writeOffset, remainder := Header, 0, [];
      header, body := seq(details.HeaderLen(), _ => 0 as byte), [];
    }

    /** The block that is being filled. */
    function Working(): seq<byte>
      reads this
    {
      if state.Header? then header else body
    }

    ghost predicate Valid()
      reads this
    {
      && |header| == details.HeaderLen() && writeOffset == 0
      && (state.Body? ==> |body| == details.FrameLen(header))
    }

    /** The bytes that have been added and not been returned in a frame yet. */
    ghost function Pending(): seq<byte>
      reads this
    {
      (if state.Body? then header else []) + remainder
    }

    function Needed(): (n: nat)
      requires Valid()
      reads this
      ensures n == 0 <==> |remainder| >= |Working()|
    {
      if |Working()| - writeOffset < |remainder| then 0 else |Working()| - writeOffset - |remainder|
    }

    method AddChunk(chunk: seq<byte>)
      requires Valid()
      modifies this`remainder
      ensures Valid() && Pending() == old(Pending()) + chunk
    {
      remainder := remainder + chunk;
    }

    /** Fill the working block from the bytes that wait. */
    method Fill()
      requires Valid() && Needed() == 0
      modifies this`header, this`body, this`remainder
      ensures |Working()| == old(|Working()|) && old(remainder) == Working() + remainder
      ensures if state.Header? then body == old(body) else header == old(header)
    {
      var copied := |Working()|;
      if state.Header? {
        header := remainder[..copied];
      } else {
        body := remainder[..copied];
      }
      remainder := remainder[copied..];
    }

    /** The next frame, if all its bytes are there. */
    method Process() returns (frame: Option<Frame>)
      requires Valid()
      modifies this
      ensures Valid()
      ensures frame.Some? <==> TakeFrame(details, old(Pending())).Some?
      ensures frame.Some? ==> TakeFrame(details, old(Pending())) == Some((frame.value, Pending()))
      ensures frame.None? ==> Pending() == old(Pending()) && Needed() > 0
    {
      while Needed() == 0
        invariant Valid() && Pending() == old(Pending())
        decreases state.Header?
      {
        Fill();
        if state.Body? {
          state := Header;
          frame := Some(Frame(header, body));
          assert old(Pending()) == frame.value.Bytes() + Pending();
          TakeFrameIsUnique(details, frame.value, Pending());
          return;
        }
        body := seq(details.FrameLen(header), _ => 0 as byte);
        state := Body;
      }
      assert state.Body? ==> Pending()[..details.HeaderLen()] == header;
      frame := None;
    }
  }
}
