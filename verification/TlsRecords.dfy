/**
 The record layer (section 5 of RFC 8446): a sequence number for each key, padding inside the
 protected content, and records on a socket that may cut the bytes anywhere.
 */
module TlsRecords {
  import opened Wire
  import opened Wrappers
  import opened Bits
  import opened TlsFraming

  const ALERT: byte := 21
  const HANDSHAKE: byte := 22
  const APPLICATION_DATA: byte := 23

  datatype Plaintext = Plaintext(contentType: byte, fragment: seq<byte>)

  /** Authenticated encryption under a fixed key. */
  datatype Aead = Aead(
    overhead: nat,
    seal: (seq<byte>, seq<byte>) -> seq<byte>,
    open: (seq<byte>, seq<byte>) -> Option<seq<byte>>)
  {
    ghost predicate Lawful() {
      && (forall n, p :: |seal(n, p)| == |p| + overhead && open(n, seal(n, p)) == Some(p))
      && (forall n, t :: open(n, t).Some? ==> |t| == |open(n, t).value| + overhead)
    }
  }

  // ----- Nonces -----

  /** The sequence number has at most seven bytes in use. */
  function CounterLen(n: nat): nat {
    if n < 7 then n else 7
  }

  /** The nonce of record number `k` under a key with initialisation vector `iv`. */
  function Nonce(iv: seq<byte>, k: nat): seq<byte> {
    XorAll(iv, BigEndian(k, |iv|))
  }

  /** No two records under one key have the same nonce. */
  lemma NoncesDiffer(iv: seq<byte>, j: nat, k: nat)
    requires j < Pow(256, CounterLen(|iv|)) && k < Pow(256, CounterLen(|iv|)) && j != k
    ensures Nonce(iv, j) != Nonce(iv, k)
  {
    PowGrows(256, CounterLen(|iv|), |iv|);
    BigEndianValue(j, |iv|);
    BigEndianValue(k, |iv|);
    if Nonce(iv, j) == Nonce(iv, k) {
      XorAllCancels(iv, BigEndian(j, |iv|), BigEndian(k, |iv|));
    }
  }

  // ----- Padding -----

  function Zeros(n: nat): (z: seq<byte>)
    ensures |z| == n && forall i :: 0 <= i < n ==> z[i] == 0
  {
    seq(n, _ => 0)
  }

  /** The protected content: the fragment, its type, and zeros behind. */
  function Inner(pt: Plaintext, padLen: nat): seq<byte> {
    pt.fragment + [pt.contentType] + Zeros(padLen)
  }

  datatype Unpadding = Unpadded(pt: Plaintext, padLen: nat) | OnlyZeros

  /** The type is the last byte that is not zero. */
  ghost predicate UnpadsTo(inner: seq<byte>, u: Unpadding) {
    match u
    case Unpadded(pt, padLen) => inner == Inner(pt, padLen) && pt.contentType != 0
    case OnlyZeros => forall i :: 0 <= i < |inner| ==> inner[i] == 0
  }

  /** Padding can be taken off in one way only, and exactly when the type is not zero. */
  lemma UnpadIff(pt: Plaintext, padLen: nat, u: Unpadding)
    requires UnpadsTo(Inner(pt, padLen), u)
    ensures u == Unpadded(pt, padLen) <==> pt.contentType != 0
  {
    var inner, n := Inner(pt, padLen), |pt.fragment|;
    assert inner[n] == pt.contentType;
    assert forall i :: n < i < |inner| ==> inner[i] == 0;
    if u.Unpadded? && pt.contentType != 0 {
      var m := |u.pt.fragment|;
      assert inner[m] == u.pt.contentType;
      assert forall i :: m < i < |inner| ==> inner[i] == 0;
      assert m == n;
      assert inner[..n] == pt.fragment == u.pt.fragment;
    }
  }

  // ----- Records as frames -----

  datatype ReadError = WouldBlock | UnknownType | TooBig | TooShort | BadRecord | Panic

  datatype Result<T> = Ok(value: T) | Err(error: ReadError)

  /** The content of record number `k` as it goes over the wire. */
  function Protected(cipher: Option<Aead>, iv: seq<byte>, k: nat, pt: Plaintext, padLen: nat): Plaintext {
    if cipher.None? then pt else Plaintext(APPLICATION_DATA, cipher.value.seal(Nonce(iv, k), Inner(pt, padLen)))
  }

  function RecordFrame(pt: Plaintext): (f: Frame)
    requires |pt.fragment| <= MAX_FRAGMENT
    ensures f.Fits(RecordDetails)
  {
    Frame([pt.contentType, 3, 1, |pt.fragment| / 0x100, |pt.fragment| % 0x100], pt.fragment)
  }

  /** A record with this content can be written. */
  predicate Writable(cipher: Option<Aead>, iv: seq<byte>, k: nat, pt: Plaintext, padLen: nat) {
    && (cipher.None? ==> padLen == 0)
    && |Protected(cipher, iv, k, pt, padLen).fragment| <= MAX_FRAGMENT
  }

  function Unprotected(aead: Aead, nonce: seq<byte>, pt: Plaintext): Result<seq<byte>> {
    if |pt.fragment| < aead.overhead then Err(TooShort)
    else
      match aead.open(nonce, pt.fragment)
      case None => Err(BadRecord)
      case Some(inner) => Ok(inner)
  }

  /** `r` is what the frame means to a reader that expects record number `k`. */
  ghost predicate Means(cipher: Option<Aead>, iv: seq<byte>, k: nat, f: Frame, r: Result<Plaintext>)
    requires f.Fits(RecordDetails)
  {
    var outer := Plaintext(f.header[0], f.body);
    if f.header[0] !in {ALERT, HANDSHAKE, APPLICATION_DATA} then r == Err(UnknownType)
    else if |f.body| > MAX_FRAGMENT + 256 then r == Err(TooBig)
    else if cipher.None? then r == if |f.body| > MAX_FRAGMENT then Err(TooBig) else Ok(outer)
    else
      match Unprotected(cipher.value, Nonce(iv, k), outer)
      case Err(e) => r == Err(e)
      case Ok(inner) =>
        exists u :: UnpadsTo(inner, u)
          && r == if u.OnlyZeros? then Err(Panic) else if |u.pt.fragment| > MAX_FRAGMENT then Err(TooBig) else Ok(u.pt)
  }

  /**
   What is written as record number `k` is read as record number `k`, with the padding gone, exactly if its type is not
   zero inside the protection, or one of the three known types without protection.
   */
  lemma ReadWhatWasWritten(cipher: Option<Aead>, iv: seq<byte>, k: nat, pt: Plaintext, padLen: nat,
                           r: Result<Plaintext>)
    requires cipher.Some? ==> cipher.value.Lawful()
    requires Writable(cipher, iv, k, pt, padLen)
    requires Means(cipher, iv, k, RecordFrame(Protected(cipher, iv, k, pt, padLen)), r)
    ensures r == Ok(pt) <==> if cipher.Some? then pt.contentType != 0
            else pt.contentType in {ALERT, HANDSHAKE, APPLICATION_DATA}
  {
    if cipher.Some? {
      var u :| UnpadsTo(Inner(pt, padLen), u)
        && r == if u.OnlyZeros? then Err(Panic) else if |u.pt.fragment| > MAX_FRAGMENT then Err(TooBig) else Ok(u.pt);
      UnpadIff(pt, padLen, u);
    }
  }

  /**
   Reading took the peeked record if there was one, or else record number `k` from the front of the
   stream, or nothing because no record is complete.
   */
  ghost predicate ReadPost(cipher: Option<Aead>, iv: seq<byte>, k: nat, stream: seq<byte>, peeked: Option<Plaintext>,
                           r: Result<Plaintext>, f: Option<Frame>, k': nat, stream': seq<byte>)
  {
    if peeked.Some? then r == Ok(peeked.value) && f.None? && stream' == stream && k' == k
    else if f.None? then r == Err(WouldBlock) && stream' == stream && k' == k
    else
      && f.value.Fits(RecordDetails) && stream == f.value.Bytes() + stream'
      && Means(cipher, iv, k, f.value, r) && k' == if r.Ok? then k + 1 else k
  }

  // ----- The layer -----

  /** The bytes that arrive, cut anywhere, and the bytes that are sent. */
  class Socket {
    var incoming: seq<byte>
    var outgoing: seq<byte>

    constructor (incoming: seq<byte>)
      ensures this.incoming == incoming && outgoing == []
    {
      this.incoming, this.outgoing := incoming, [];
    }

    /** Some of the bytes that arrive next; none when nothing has arrived yet. */
    method Read(limit: nat) returns (chunk: seq<byte>)
      modifies this`incoming
      ensures old(incoming) == chunk + incoming && |chunk| <= limit
    {
      var n: nat :| n <= |incoming| && n <= limit;
      chunk, incoming := incoming[..n], incoming[n..];
    }

    method Write(data: seq<byte>)
      modifies this`outgoing
      ensures outgoing == old(outgoing) + data
    {
      outgoing := outgoing + data;
    }
  }

  class RecordLayer {
    const conn: Socket
    const frame: FrameReader
    var cachedRecord: Option<Plaintext>
    var cipher: Option<Aead>
    var seqNo: array<byte>
    var nonce: array<byte>
    /** The initialisation vector of the current key, and the number of records since it was set. */
    ghost var iv: seq<byte>
    ghost var count: nat

    ghost predicate Valid()
      reads this, frame, seqNo, nonce
    {
      && frame.details == RecordDetails && frame.Valid()
      && seqNo != nonce && seqNo.Length == nonce.Length == |iv|
      && seqNo[..] == BigEndian(count, |iv|) && nonce[..] == Nonce(iv, count)
      && (|iv| > 0 ==> count < Pow(256, CounterLen(|iv|)))
    }

    constructor (conn: Socket)
      ensures Valid() && this.conn == conn && fresh(frame) && fresh(seqNo) && fresh(nonce)
      ensures cipher.None? && cachedRecord.None? && frame.Pending() == []
    {
      this.conn := conn;
      frame := new FrameReader(RecordDetails);
      cachedRecord, cipher := None, None;
      seqNo := new byte[0];
      nonce := new byte[0];
      iv, count := [], 0;
    }

    method Rekey(aead: Aead, iv: seq<byte>)
      requires Valid()
      modifies this`cipher, this`seqNo, this`nonce, this`iv, this`count
      ensures Valid() && cipher == Some(aead) && this.iv == iv && count == 0 && fresh(seqNo) && fresh(nonce)
    {
      cipher := Some(aead);
      seqNo := new byte[|iv|](_ => 0);
      nonce := new byte[|iv|](i requires 0 <= i < |iv| => iv[i]);
      this.iv, count := iv, 0;
      ZeroBytes(|iv|);
      forall i | 0 <= i < |iv|
        ensures XorByte(iv[i], 0) == iv[i]
      {
        XorZero(iv[i]);
      }
      assert forall i :: 0 <= i < |iv| ==> BigEndian(0, |iv|)[i] == 0;
    }

    /** Count up the sequence number and the nonce. */
    method IncrementSequenceNumber() returns (panicked: bool)
      requires Valid()
      modifies seqNo, nonce, this`count
      ensures panicked <==> old(AtLimit())
      ensures count == if panicked then old(count) else old(count) + 1
      ensures !panicked ==> Valid()
    {
      IncrementCounts(count, |iv|);
      if seqNo.Length == 0 {
        count := count + 1;
        return false;
      }
      FullIff(count, |iv|, CounterLen(|iv|));
      CountLimit(count, Pow(256, CounterLen(|iv|)));
      panicked := CountUp(seqNo, nonce, iv);
      if !panicked {
        count := count + 1;
      }
    }

    method Encrypt(pt: Plaintext, padLen: nat) returns (out: Plaintext)
      requires Valid() && cipher.Some?
      ensures out == Protected(cipher, iv, count, pt, padLen)
    {
      var payload := new byte[|pt.fragment| + 1 + padLen](i => if 0 <= i < |pt.fragment| then pt.fragment[i] else 0);
      payload[|pt.fragment|] := pt.contentType;
      for i := 1 to padLen + 1
        invariant payload[..|pt.fragment| + 1] == pt.fragment + [pt.contentType]
        invariant forall j :: |pt.fragment| < j < |pt.fragment| + i ==> payload[j] == 0
      {
        payload[|pt.fragment| + i] := 0;
      }
      assert payload[..] == Inner(pt, padLen);
      out := Plaintext(APPLICATION_DATA, cipher.value.seal(nonce[..], payload[..]));
    }

    /** The content without its padding; the search runs out of the content when it is all zeros. */
    method Decrypt(pt: Plaintext) returns (r: Result<Plaintext>, padLen: nat)
      requires Valid() && cipher.Some?
      ensures match Unprotected(cipher.value, Nonce(iv, count), pt)
              case Err(e) => r == Err(e)
              case Ok(inner) =>
                && UnpadsTo(inner, if r.Ok? then Unpadded(r.value, padLen) else OnlyZeros)
                && (r.Err? ==> r == Err(Panic))
    {
      padLen := 0;
      if |pt.fragment| < cipher.value.overhead {
        return Err(TooShort), padLen;
      }
      var content := cipher.value.open(nonce[..], pt.fragment);
      if content.None? {
        return Err(BadRecord), padLen;
      }
      var fragment := content.value;
      var decryptLen := |fragment|;
      while padLen < decryptLen + 1
        invariant padLen <= decryptLen
        invariant forall i :: decryptLen - padLen <= i < decryptLen ==> fragment[i] == 0
      {
        if decryptLen - padLen - 1 < 0 {
          return Err(Panic), padLen;
        }
        if fragment[decryptLen - padLen - 1] != 0 {
          break;
        }
        padLen := padLen + 1;
      }
      var newLen := decryptLen - padLen - 1;
      r := Ok(Plaintext(fragment[newLen], fragment[..newLen]));
      assert fragment == Inner(r.value, padLen);
    }

    method WriteRecordWithPadding(pt: Plaintext, padLen: nat) returns (status: WriteStatus)
      requires Valid()
      modifies seqNo, nonce, this`count, conn`outgoing
      ensures status == Written || status == Wraparound <==> Writable(cipher, iv, old(count), pt, padLen)
      ensures status == Wraparound ==> old(AtLimit())
      ensures status == Written ==>
                Valid() && count == old(count) + 1
                && conn.outgoing
                    == old(conn.outgoing) + RecordFrame(Protected(cipher, iv, old(count), pt, padLen)).Bytes()
      ensures status != Written ==> conn.outgoing == old(conn.outgoing) && count == old(count)
      ensures status != Wraparound ==> Valid()
    {
      var out := pt;
      if cipher.Some? {
        out := Encrypt(pt, padLen);
      } else if padLen > 0 {
        return PaddingRefused;
      }
      if |out.fragment| > MAX_FRAGMENT {
        return RecordTooBig;
      }
      var record := RecordFrame(out).Bytes();
      var panicked := IncrementSequenceNumber();
      if panicked {
        return Wraparound;
      }
      conn.Write(record);
      return Written;
    }

    /** The sequence number cannot be counted up any more. */
    ghost predicate AtLimit()
      reads this
    {
      |iv| > 0 && count + 1 == Pow(256, CounterLen(|iv|))
    }

    /** All bytes that are here or still arrive. */
    ghost function Stream(): seq<byte>
      reads this, frame, conn
    {
      frame.Pending() + conn.incoming
    }

    method NextRecord() returns (r: Result<Plaintext>, ghost f: Option<Frame>)
      requires Valid()
      modifies this`cachedRecord, this`count, seqNo, nonce, frame, conn`incoming
      ensures old(cachedRecord.Some?) ==>
                r == Ok(old(cachedRecord.value)) && f.None? && Valid() && Stream() == old(Stream())
                    && count == old(count) && cachedRecord == old(cachedRecord)
      ensures old(cachedRecord.None?) ==> (f.None? <==> r == Err(WouldBlock))
      ensures old(cachedRecord.None?) && f.None? ==>
                Valid() && Stream() == old(Stream()) && count == old(count)
                    && TakeFrame(RecordDetails, frame.Pending()).None? && cachedRecord.None?
      ensures f.Some? ==> f.value.Fits(RecordDetails) && old(Stream()) == f.value.Bytes() + Stream()
      ensures f.Some? && (r != Err(Panic) || !old(AtLimit())) ==>
                && Valid() && Means(cipher, iv, old(count), f.value, r)
                && cachedRecord == (if r.Ok? then Some(r.value) else None)
                && count == if r.Ok? then old(count) + 1 else old(count)
    {
      f := None;
      if cachedRecord.Some? {
        return Ok(cachedRecord.value), f;
      }
      var found := NextFrame(frame, conn);
      if found.None? {
        return Err(WouldBlock), f;
      }
      f := found;
      var contentType := found.value.header[0];
      if contentType != ALERT && contentType != HANDSHAKE && contentType != APPLICATION_DATA {
        return Err(UnknownType), f;
      }
      if |found.value.body| > MAX_FRAGMENT + 256 {
        return Err(TooBig), f;
      }
      r := Ok(Plaintext(contentType, found.value.body));
      if cipher.Some? {
        var padLen;
        r, padLen := Decrypt(r.value);
        if r.Err? {
          return;
        }
      }
      if |r.value.fragment| > MAX_FRAGMENT {
        return Err(TooBig), f;
      }
      var panicked := IncrementSequenceNumber();
      if panicked {
        return Err(Panic), f;
      }
      cachedRecord := Some(r.value);
    }

    /** The next record, which is then gone. */
    method ReadRecord() returns (r: Result<Plaintext>, ghost f: Option<Frame>)
      requires Valid()
      modifies this`cachedRecord, this`count, seqNo, nonce, frame, conn`incoming
      ensures cachedRecord.None?
      ensures f.Some? ==> f.value.Fits(RecordDetails) && old(Stream()) == f.value.Bytes() + Stream()
      ensures f.None? || r != Err(Panic) || !old(AtLimit()) ==>
                Valid() && ReadPost(cipher, iv, old(count), old(Stream()), old(cachedRecord), r, f, count, Stream())
      ensures r == Err(WouldBlock) ==> TakeFrame(RecordDetails, frame.Pending()).None?
    {
      r, f := NextRecord();
      cachedRecord := None;
    }

    /** The type of the next record, which stays to be read. */
    method PeekRecordType() returns (r: Result<byte>, ghost f: Option<Frame>)
      requires Valid()
      modifies this`cachedRecord, this`count, seqNo, nonce, frame, conn`incoming
      ensures r.Ok? ==> Valid() && cachedRecord.Some? && cachedRecord.value.contentType == r.value
      ensures old(cachedRecord.Some?) ==>
                r.Ok? && f.None? && cachedRecord == old(cachedRecord) && Stream() == old(Stream())
                    && count == old(count)
      ensures old(cachedRecord.None?) ==> (f.None? <==> r == Err(WouldBlock))
      ensures r == Err(WouldBlock) ==> Valid() && cachedRecord.None? && Stream() == old(Stream()) && count == old(count)
      ensures f.Some? ==> f.value.Fits(RecordDetails) && old(Stream()) == f.value.Bytes() + Stream()
      ensures f.Some? && (r != Err(Panic) || !old(AtLimit())) ==>
                && Valid() && Means(cipher, iv, old(count), f.value, if r.Ok? then Ok(cachedRecord.value) else
                                      Err(r.error))
                && (r.Err? ==> cachedRecord.None?) && count == if r.Ok? then old(count) + 1 else old(count)
    {
      var record;
      record, f := NextRecord();
      r := if record.Err? then Err(record.error) else Ok(record.value.contentType);
    }
  }

  datatype WriteStatus = Written | PaddingRefused | RecordTooBig | Wraparound

  /** Read from the socket until a frame is complete. */
  method NextFrame(frame: FrameReader, conn: Socket) returns (f: Option<Frame>)
    requires frame.Valid()
    modifies frame, conn`incoming
    ensures frame.Valid()
    ensures f.Some? ==> f.value.Fits(frame.details)
                        && old(frame.Pending() + conn.incoming) == f.value.Bytes() + (frame.Pending() + conn.incoming)
    ensures f.None? ==> old(frame.Pending() + conn.incoming) == frame.Pending() + conn.incoming
                        && TakeFrame(frame.details, frame.Pending()).None?
  {
    while true
      invariant frame.Valid() && old(frame.Pending() + conn.incoming) == frame.Pending() + conn.incoming
      decreases |conn.incoming|, frame.Needed() == 0
    {
      var more := ReadChunk(frame, conn);
      if !more {
        TooShortToTake(frame);
        return None;
      }
      ghost var pending := frame.Pending();
      f := frame.Process();
      if f.Some? {
        assert pending + conn.incoming == f.value.Bytes() + (frame.Pending() + conn.incoming);
        return;
      }
    }
  }

  /** Get more bytes if they are needed; fail if none have arrived. */
  method ReadChunk(frame: FrameReader, conn: Socket) returns (more: bool)
    requires frame.Valid()
    modifies frame`remainder, conn`incoming
    ensures frame.Valid() && old(frame.Pending() + conn.incoming) == frame.Pending() + conn.incoming
    ensures !more ==> frame.Needed() > 0
    ensures more ==> |conn.incoming| < old(|conn.incoming|)
                     || (old(frame.Needed()) == 0 && |conn.incoming| == old(|conn.incoming|))
  {
    if frame.Needed() > 0 {
      ghost var pending := frame.Pending();
      var chunk := conn.Read(5 + MAX_FRAGMENT);
      assert pending + (chunk + conn.incoming) == (pending + chunk) + conn.incoming;
      frame.AddChunk(chunk);
      return |chunk| > 0;
    }
    return true;
  }

  lemma TooShortToTake(frame: FrameReader)
    requires frame.Valid() && frame.Needed() > 0
    ensures TakeFrame(frame.details, frame.Pending()).None?
  {
    assert frame.state.Body? ==> frame.Pending()[..frame.details.HeaderLen()] == frame.header;
  }

  function Successor(b: byte): byte {
    if b == 255 then 0 else b + 1
  }

  /** Count byte `i` up, and exchange it in the nonce. */
  method CountByte(seqNo: array<byte>, nonce: array<byte>, i: nat, ghost iv: seq<byte>)
    requires seqNo != nonce && seqNo.Length == nonce.Length == |iv| && i < |iv|
    requires nonce[..] == XorAll(iv, seqNo[..])
    modifies seqNo, nonce
    ensures seqNo[..] == old(seqNo[..])[i := Successor(old(seqNo[i]))]
    ensures nonce[..] == XorAll(iv, seqNo[..])
  {
    assert nonce[..][i] == XorByte(iv[i], seqNo[..][i]);
    XorExchange(iv[i], seqNo[i], Successor(seqNo[i]));
    seqNo[i] := Successor(seqNo[i]);
    nonce[i] := XorByte(nonce[i], XorByte(if seqNo[i] == 0 then 255 else seqNo[i] - 1, seqNo[i]));
    assert nonce[..] == old(nonce[..])[i := XorByte(iv[i], seqNo[i])];
  }

  /** Count up the number in at most seven bytes; fail when they are all full. */
  method CountUp(seqNo: array<byte>, nonce: array<byte>, ghost iv: seq<byte>) returns (panicked: bool)
    requires seqNo != nonce && seqNo.Length == nonce.Length == |iv| > 0
    requires nonce[..] == XorAll(iv, seqNo[..])
    modifies seqNo, nonce
    ensures panicked <==> Full(old(seqNo[..]), CounterLen(|iv|))
    ensures !panicked ==> seqNo[..] == Increment(old(seqNo[..])) && nonce[..] == XorAll(iv, seqNo[..])
  {
    ghost var before := seqNo[..];
    var n := seqNo.Length;
    var i := n - 1;
    while i > n - 8
      invariant n - 8 <= i < n && -1 <= i
      invariant nonce[..] == XorAll(iv, seqNo[..])
      invariant forall j :: i < j < n ==> before[j] == 255 && seqNo[j] == 0
      invariant forall j :: 0 <= j <= i ==> seqNo[j] == before[j]
    {
      if i < 0 {
        return true;
      }
      CountByte(seqNo, nonce, i, iv);
      if seqNo[i] != 0 {
        IncrementAt(before, i);
        return false;
      }
      i := i - 1;
    }
    return true;
  }

  lemma CountLimit(k: nat, p: nat)
    requires k < p
    ensures (k + 1) % p == 0 <==> k + 1 == p
  {
  }

  lemma {:induction false} ZeroBytes(n: nat)
    ensures BigEndian(0, n) == Zeros(n)
  {
    if n > 0 {
      ZeroBytes(n - 1);
    }
  }
}
