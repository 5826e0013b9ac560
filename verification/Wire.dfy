/** Stream frames as they travel between the two ends of a connection. */
module Wire {

  type byte = x: int | 0 <= x < 256

  /** The largest value of the 64-bit byte counter. */
  const MAX_BYTE_COUNT: nat := 0xFFFF_FFFF_FFFF_FFFF

  datatype StreamFrame = StreamFrame(
    streamId: nat,
    offset: nat,
    data: seq<byte>,
    fin: bool,
    dataLenPresent: bool,
    unreliable: bool)
  {
    function End(): nat {
      offset + |data|
    }

    /** The part of this frame that carries the bytes from `lo` up to `hi`. */
    function Clip(lo: nat, hi: nat): (c: StreamFrame)
      requires offset <= lo <= hi <= End()
      ensures c.offset == lo && c.End() == hi
    {
      this.(offset := lo, data := data[lo - offset..hi - offset])
    }
  }

  /** The frame's bytes are the bytes of `src` at the frame's offset. */
  ghost predicate SliceOf(f: StreamFrame, src: seq<byte>) {
    f.End() <= |src| && f.data == src[f.offset..f.End()]
  }

  lemma ClipOfClip(f: StreamFrame, a: nat, b: nat, c: nat, d: nat)
    requires f.offset <= a <= c <= d <= b <= f.End()
    ensures f.Clip(a, b).Clip(c, d) == f.Clip(c, d)
  {
    assert f.data[a - f.offset..b - f.offset][c - a..d - a] == f.data[c - f.offset..d - f.offset];
  }

  lemma ClipOfSlice(f: StreamFrame, lo: nat, hi: nat, src: seq<byte>)
    requires f.offset <= lo <= hi <= f.End()
    requires SliceOf(f, src)
    ensures SliceOf(f.Clip(lo, hi), src)
  {
    assert src[f.offset..f.End()][lo - f.offset..hi - f.offset] == src[lo..hi];
  }
}
