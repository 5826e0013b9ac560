/**
 Handshake messages in records: messages are joined and cut into fragments on one side, and put
 together again on the other, whatever the fragments and the socket's chunks are.
 */
module TlsHandshakeLayer {
  import opened Wire
  import opened Wrappers
  import opened Bits
  import opened TlsFraming
  import opened TlsRecords

  const MAX_MESSAGE: nat := 0x100_0000

  datatype HandshakeMessage = HandshakeMessage(msgType: byte, body: seq<byte>)

  function Marshal(m: HandshakeMessage): Frame {
    var n := |m.body|;
    Frame([m.msgType, n / 0x1_0000 % 0x100, n / 0x100 % 0x100, n % 0x100], m.body)
  }

  function MarshalAll(ms: seq<HandshakeMessage>): (fs: seq<Frame>)
    ensures |fs| == |ms| && forall i :: 0 <= i < |ms| ==> fs[i] == Marshal(ms[i])
  {
    seq(|ms|, i requires 0 <= i < |ms| => Marshal(ms[i]))
  }

  /**
   A message can be cut out of the stream again just when its length fits the header. The limit that the
   writer checks is one larger: a body of exactly that length is sent with the length zero.
   */
  lemma MarshalFitsIff(m: HandshakeMessage)
    ensures Marshal(m).Fits(HandshakeDetails) <==> |m.body| < MAX_MESSAGE
  {
    ThreeBytes(|m.body|);
  }

  lemma ThreeBytes(n: nat)
    ensures n / 0x1_0000 % 0x100 * 0x1_0000 + n / 0x100 % 0x100 * 0x100 + n % 0x100 == n % MAX_MESSAGE
  {
    var q := n / 0x100;
    var p := q / 0x100;
    var r := p % 0x100 * 0x1_0000 + q % 0x100 * 0x100 + n % 0x100;
    assert n == MAX_MESSAGE * (p / 0x100) + r && r < MAX_MESSAGE;
    RemainderIs(n, MAX_MESSAGE, p / 0x100, r);
  }

  lemma LargestMessageIsLost(m: HandshakeMessage, rest: seq<byte>)
    requires |m.body| == MAX_MESSAGE
    ensures TakeFrame(HandshakeDetails, Marshal(m).Bytes() + rest)
            == Some((Frame([m.msgType, 0, 0, 0], []), m.body + rest))
  {
    var f := Frame([m.msgType, 0, 0, 0], []);
    assert Marshal(m).Bytes() + rest == f.Bytes() + (m.body + rest);
    TakeFrameIsUnique(HandshakeDetails, f, m.body + rest);
  }

  // ----- Records that carry fragments -----

  datatype Item = Item(pt: Plaintext, padLen: nat)

  ghost predicate AllWritable(cipher: Option<Aead>, iv: seq<byte>, k: nat, items: seq<Item>) {
    forall i :: 0 <= i < |items| ==> Writable(cipher, iv, k + i, items[i].pt, items[i].padLen)
  }

  /** The frames of records number `k` and following. */
  ghost function Sent(cipher: Option<Aead>, iv: seq<byte>, k: nat, items: seq<Item>): (fs: seq<Frame>)
    requires AllWritable(cipher, iv, k, items)
    ensures |fs| == |items|
    ensures forall i :: 0 <= i < |items|
                        ==> fs[i] == RecordFrame(Protected(cipher, iv, k + i, items[i].pt, items[i].padLen))
  {
    seq(|items|, i requires 0 <= i < |items| => RecordFrame(Protected(cipher, iv, k + i, items[i].pt, items[i].padLen)))
  }

  /** The contents of the records, joined. */
  ghost function Contents(items: seq<Item>): seq<byte> {
    if items == [] then [] else items[0].pt.fragment + Contents(items[1..])
  }

  lemma {:induction false} ContentsAppend(a: seq<Item>, b: seq<Item>)
    ensures Contents(a + b) == Contents(a) + Contents(b)
  {
    if a == [] {
      assert a + b == b;
    } else {
      assert (a + b)[1..] == a[1..] + b;
      ContentsAppend(a[1..], b);
    }
  }

  /** With a cipher, the type byte and the overhead have to fit as well, so a full-size fragment is refused. */
  lemma WritableIff(aead: Aead, iv: seq<byte>, k: nat, pt: Plaintext, padLen: nat)
    requires aead.Lawful()
    ensures Writable(Some(aead), iv, k, pt, padLen) <==> |pt.fragment| + 1 + padLen + aead.overhead <= MAX_FRAGMENT
  {
  }

  /** Full-size fragments, and a smaller one at the end. */
  function Fragments(buffer: seq<byte>): seq<Item> {
    if buffer == [] then []
    else if |buffer| >= MAX_FRAGMENT then
      [Item(Plaintext(HANDSHAKE, buffer[..MAX_FRAGMENT]), 0)] + Fragments(buffer[MAX_FRAGMENT..])
    else
      [Item(Plaintext(HANDSHAKE, buffer), 0)]
  }

  lemma NoFragments()
    ensures Fragments([]) == []
  {
  }

  lemma {:induction false} FragmentsJoin(buffer: seq<byte>)
    ensures Contents(Fragments(buffer)) == buffer
    ensures forall i :: 0 <= i < |Fragments(buffer)| ==> Fragments(buffer)[i].pt.contentType == HANDSHAKE
    decreases |buffer|
  {
    if |buffer| >= MAX_FRAGMENT {
      FragmentsJoin(buffer[MAX_FRAGMENT..]);
      assert Fragments(buffer)[1..] == Fragments(buffer[MAX_FRAGMENT..]);
      assert buffer == buffer[..MAX_FRAGMENT] + buffer[MAX_FRAGMENT..];
    } else if buffer != [] {
      assert Fragments(buffer)[1..] == [];
    }
  }

  // ----- Writer and reader in step -----

  /**
   The bytes on their way are records with the given contents, numbered from `k` on, and together with
   what the reader holds these contents are the given messages.
   */
  ghost predicate InStep(cipher: Option<Aead>, iv: seq<byte>, k: nat, stream: seq<byte>, held: seq<byte>,
                         items: seq<Item>, ms: seq<HandshakeMessage>) {
    && (cipher.Some? ==> cipher.value.Lawful())
    && (forall i :: 0 <= i < |items| ==> items[i].pt.contentType == HANDSHAKE)
    && (forall i :: 0 <= i < |ms| ==> |ms[i].body| < MAX_MESSAGE)
    && AllWritable(cipher, iv, k, items) && stream == Joined(Sent(cipher, iv, k, items))
    && held + Contents(items) == Joined(MarshalAll(ms))
    && (|iv| > 0 ==> k + |items| < Pow(256, CounterLen(|iv|)))
  }

  lemma SentAppend(cipher: Option<Aead>, iv: seq<byte>, k: nat, items: seq<Item>, added: seq<Item>)
    requires AllWritable(cipher, iv, k, items) && AllWritable(cipher, iv, k + |items|, added)
    ensures AllWritable(cipher, iv, k, items + added)
    ensures Sent(cipher, iv, k, items + added) == Sent(cipher, iv, k, items) + Sent(cipher, iv, k + |items|, added)
  {
    hide Writable;
    forall i | 0 <= i < |items + added|
      ensures Writable(cipher, iv, k + i, (items + added)[i].pt, (items + added)[i].padLen)
    {
      if i >= |items| {
        assert (items + added)[i] == added[i - |items|];
        assert Writable(cipher, iv, (k + |items|) + (i - |items|), added[i - |items|].pt, added[i - |items|].padLen);
      }
    }
    var a, b, all := Sent(cipher, iv, k, items), Sent(cipher, iv, k + |items|, added),
                     Sent(cipher, iv, k, items + added);
    forall i | 0 <= i < |all|
      ensures all[i] == (a + b)[i]
    {
      if i >= |items| {
        assert (items + added)[i] == added[i - |items|] && k + i == (k + |items|) + (i - |items|);
      }
    }
  }

  /** Writing more messages keeps the reader in step. */
  lemma WritingKeepsInStep(cipher: Option<Aead>, iv: seq<byte>, k: nat, stream: seq<byte>, held: seq<byte>,
                           items: seq<Item>, ms: seq<HandshakeMessage>, more: seq<HandshakeMessage>)
    requires InStep(cipher, iv, k, stream, held, items, ms)
             && (forall i :: 0 <= i < |more| ==> |more[i].body| < MAX_MESSAGE)
    requires AllWritable(cipher, iv, k + |items|, Fragments(Joined(MarshalAll(more))))
    requires |iv| > 0 ==> k + |items| + |Fragments(Joined(MarshalAll(more)))| < Pow(256, CounterLen(|iv|))
    ensures var added := Fragments(Joined(MarshalAll(more)));
            InStep(cipher, iv, k, stream + Joined(Sent(cipher, iv, k + |items|, added)), held, items + added, ms + more)
  {
    var added := Fragments(Joined(MarshalAll(more)));
    FragmentsJoin(Joined(MarshalAll(more)));
    SentAppend(cipher, iv, k, items, added);
    JoinedAppend(Sent(cipher, iv, k, items), Sent(cipher, iv, k + |items|, added));
    HeldAppend(held, items, added, ms, more);
  }

  lemma HeldAppend(held: seq<byte>, items: seq<Item>, added: seq<Item>, ms: seq<HandshakeMessage>,
                   more: seq<HandshakeMessage>)
    requires held + Contents(items) == Joined(MarshalAll(ms)) && Contents(added) == Joined(MarshalAll(more))
    ensures held + Contents(items + added) == Joined(MarshalAll(ms + more))
  {
    assert held + Contents(items + added) == Joined(MarshalAll(ms)) + Joined(MarshalAll(more)) by {
      ContentsAppend(items, added);
      Associative(held, Contents(items), Contents(added));
    }
    assert MarshalAll(ms + more) == MarshalAll(ms) + MarshalAll(more);
    JoinedAppend(MarshalAll(ms), MarshalAll(more));
  }

  lemma Associative(a: seq<byte>, b: seq<byte>, c: seq<byte>)
    ensures (a + b) + c == a + (b + c)
  {
  }

  /** The record that is cut from the stream next is the one that was written next. */
  lemma RecordIsNext(cipher: Option<Aead>, iv: seq<byte>, k: nat, stream: seq<byte>, held: seq<byte>, items: seq<Item>,
                     ms: seq<HandshakeMessage>,
                     f: Frame, rest: seq<byte>, r: Result<Plaintext>)
    requires InStep(cipher, iv, k, stream, held, items, ms)
    requires f.Fits(RecordDetails) && stream == f.Bytes() + rest && Means(cipher, iv, k, f, r)
    ensures items != [] && r == Ok(items[0].pt)
    ensures InStep(cipher, iv, k + 1, rest, held + items[0].pt.fragment, items[1..], ms)
  {
    var sent := Sent(cipher, iv, k, items);
    CutIsFirst(RecordDetails, sent, f, rest);
    ReadWhatWasWritten(cipher, iv, k, items[0].pt, items[0].padLen, r);
    assert AllWritable(cipher, iv, k + 1, items[1..]) && Sent(cipher, iv, k + 1, items[1..]) == sent[1..] by {
      SentTail(cipher, iv, k, items);
    }
    Associative(held, items[0].pt.fragment, Contents(items[1..]));
  }

  lemma SentTail(cipher: Option<Aead>, iv: seq<byte>, k: nat, items: seq<Item>)
    requires items != [] && AllWritable(cipher, iv, k, items)
    ensures AllWritable(cipher, iv, k + 1, items[1..])
            && Sent(cipher, iv, k + 1, items[1..]) == Sent(cipher, iv, k, items)[1..]
  {
    forall i | 0 <= i < |items[1..]|
      ensures Writable(cipher, iv, k + 1 + i, items[1..][i].pt, items[1..][i].padLen)
    {
      assert Writable(cipher, iv, k + (1 + i), items[1 + i].pt, items[1 + i].padLen);
    }
  }

  lemma CutIsFirst(d: Details, sent: seq<Frame>, f: Frame, rest: seq<byte>)
    requires AllFit(d, sent) && f.Fits(d) && Joined(sent) == f.Bytes() + rest
    ensures sent != [] && f == sent[0] && rest == Joined(sent[1..])
  {
    assert Joined([f]) == f.Bytes();
    FramesAreUnique(d, [f], sent, rest);
  }

  /** The message that is cut from the contents next is the one that was written next. */
  lemma MessageIsNext(cipher: Option<Aead>, iv: seq<byte>, k: nat, stream: seq<byte>, held: seq<byte>, items: seq<Item>,
                      ms: seq<HandshakeMessage>,
                      f: Frame, rest: seq<byte>)
    requires InStep(cipher, iv, k, stream, held, items, ms) && TakeFrame(HandshakeDetails, held) == Some((f, rest))
    ensures ms != [] && f == Marshal(ms[0]) && InStep(cipher, iv, k, stream, rest, items, ms[1..])
  {
    AllMarshalsFit(ms);
    Associative(f.Bytes(), rest, Contents(items));
    CutIsFirst(HandshakeDetails, MarshalAll(ms), f, rest + Contents(items));
    assert MarshalAll(ms)[1..] == MarshalAll(ms[1..]);
  }

  lemma AllMarshalsFit(ms: seq<HandshakeMessage>)
    requires forall i :: 0 <= i < |ms| ==> |ms[i].body| < MAX_MESSAGE
    ensures AllFit(HandshakeDetails, MarshalAll(ms))
  {
    forall i | 0 <= i < |ms|
      ensures MarshalAll(ms)[i].Fits(HandshakeDetails)
    {
      MarshalFitsIff(ms[i]);
    }
  }

  /** When all bytes have arrived and nothing can be cut off any more, every message has been read. */
  lemma NothingMore(cipher: Option<Aead>, iv: seq<byte>, k: nat, stream: seq<byte>, held: seq<byte>, items: seq<Item>,
                    ms: seq<HandshakeMessage>)
    requires InStep(cipher, iv, k, stream, held, items, ms)
    requires TakeFrame(RecordDetails, stream).None? && TakeFrame(HandshakeDetails, held).None?
    ensures items == [] && ms == []
  {
    NothingLeft(RecordDetails, Sent(cipher, iv, k, items));
    assert held + [] == held;
    AllMarshalsFit(ms);
    NothingLeft(HandshakeDetails, MarshalAll(ms));
  }

  /** Cutting a message off leaves a record that has been peeked at behind it. */
  lemma CutMessage(cipher: Option<Aead>, iv: seq<byte>, k: nat, stream: seq<byte>, held: seq<byte>, peeked: seq<byte>,
                   items: seq<Item>, ms: seq<HandshakeMessage>,
                   f: Frame, rest: seq<byte>)
    requires InStep(cipher, iv, k, stream, held + peeked, items, ms)
             && TakeFrame(HandshakeDetails, held) == Some((f, rest))
    ensures ms != [] && f == Marshal(ms[0]) && InStep(cipher, iv, k, stream, rest + peeked, items, ms[1..])
  {
    Associative(f.Bytes(), rest, peeked);
    TakeFrameIsUnique(HandshakeDetails, f, rest + peeked);
    MessageIsNext(cipher, iv, k, stream, held + peeked, items, ms, f, rest + peeked);
  }

  /** While records follow, the sequence number is below its limit. */
  lemma BelowLimit(cipher: Option<Aead>, iv: seq<byte>, k: nat, stream: seq<byte>, held: seq<byte>, items: seq<Item>,
                   ms: seq<HandshakeMessage>, f: Frame, rest: seq<byte>)
    requires InStep(cipher, iv, k, stream, held, items, ms) && f.Fits(RecordDetails) && stream == f.Bytes() + rest
    ensures |iv| > 0 ==> k + 1 < Pow(256, CounterLen(|iv|))
  {
    CutIsFirst(RecordDetails, Sent(cipher, iv, k, items), f, rest);
  }

  ghost function Behind(held: seq<byte>, peeked: Option<Plaintext>): seq<byte> {
    held + if peeked.Some? then peeked.value.fragment else []
  }

  /** A record that has been read is the next one of those that follow. */
  lemma ReadingKeepsInStep(cipher: Option<Aead>, iv: seq<byte>, k: nat, stream: seq<byte>, held: seq<byte>,
                           peeked: Option<Plaintext>, items: seq<Item>,
                           ms: seq<HandshakeMessage>, r: Result<Plaintext>, f: Option<Frame>, k': nat,
                               stream': seq<byte>) returns (left: seq<Item>)
    requires InStep(cipher, iv, k, stream, Behind(held, peeked), items, ms)
             && (peeked.Some? ==> peeked.value.contentType == HANDSHAKE)
    requires ReadPost(cipher, iv, k, stream, peeked, r, f, k', stream')
    ensures r.Ok? || r == Err(WouldBlock)
    ensures r.Ok? ==> r.value.contentType == HANDSHAKE
    ensures InStep(cipher, iv, k', stream', if r.Ok? then held + r.value.fragment else held, left, ms)
  {
    left := items;
    assert held + [] == held;
    if f.Some? {
      RecordIsNext(cipher, iv, k, stream, held, items, ms, f.value, stream', r);
      left := items[1..];
    }
  }

  datatype ReadFailure = Blocked | RecordError(error: ReadError) | UnexpectedType | AlertReceived(code: byte) | Crashed

  datatype ReadResult = Message(message: HandshakeMessage) | NoMessage(why: ReadFailure)

  datatype WriteFailure = MessageTooLarge | RecordFailure(status: WriteStatus)

  class HandshakeLayer {
    const nonblocking: bool
    const conn: RecordLayer
    const frame: FrameReader

    constructor (conn: RecordLayer, nonblocking: bool)
      requires conn.Valid()
      ensures this.conn == conn && this.nonblocking == nonblocking && fresh(frame) && Valid() && frame.Pending() == []
    {
      this.conn, this.nonblocking := conn, nonblocking;
      frame := new FrameReader(HandshakeDetails);
    }

    ghost predicate Valid()
      reads this, conn, conn.frame, conn.seqNo, conn.nonce, frame
    {
      conn.Valid() && frame.details == HandshakeDetails && frame.Valid() && frame != conn.frame
    }

    /** The contents that have been read but not been returned in a message. */
    ghost function Held(): seq<byte>
      reads this, conn, frame
    {
      Behind(frame.Pending(), conn.cachedRecord)
    }

    /** The messages `ms`, in records with contents `items`, are what is still to be read. */
    ghost predicate Follows(items: seq<Item>, ms: seq<HandshakeMessage>)
      reads this, conn, conn.frame, conn.conn, frame
    {
      && InStep(conn.cipher, conn.iv, conn.count, conn.Stream(), Held(), items, ms)
      && (conn.cachedRecord.Some? ==> conn.cachedRecord.value.contentType == HANDSHAKE)
    }

    ghost function Measure(): nat
      reads this, conn, conn.frame, conn.conn
    {
      |conn.Stream()| + if conn.cachedRecord.Some? then 1 else 0
    }

    /** Take the next record; if it is one of those that follow, its content goes behind what is held. */
    method TakeRecord(ghost items: seq<Item>, ghost ms: seq<HandshakeMessage>)
        returns (r: Result<Plaintext>, ghost left: seq<Item>)
      requires Valid()
      modifies conn`cachedRecord, conn`count, conn.seqNo, conn.nonce, conn.frame, conn.conn`incoming
      ensures conn.cachedRecord.None?
      ensures r.Ok? ==> Valid() && Measure() < old(Measure())
      ensures r == Err(WouldBlock) ==> Valid() && TakeFrame(RecordDetails, conn.frame.Pending()).None?
      ensures old(Follows(items, ms)) ==> Valid() && (r.Ok? || r == Err(WouldBlock))
      ensures old(Follows(items, ms)) && r == Err(WouldBlock) ==> Follows(left, ms)
      ensures old(Follows(items, ms)) && r.Ok? ==>
                && r.value.contentType == HANDSHAKE
                && InStep(conn.cipher, conn.iv, conn.count, conn.Stream(), frame.Pending() + r.value.fragment, left, ms)
    {
      left := items;
      ghost var k, stream, peeked := conn.count, conn.Stream(), conn.cachedRecord;
      ghost var f;
      r, f := conn.ReadRecord();
      if old(Follows(items, ms)) {
        if f.Some? {
          BelowLimit(conn.cipher, conn.iv, k, stream, Behind(frame.Pending(), peeked), items, ms, f.value,
                     conn.Stream());
        }
        left := ReadingKeepsInStep(conn.cipher, conn.iv, k, stream, frame.Pending(), peeked, items, ms, r, f,
                                   conn.count, conn.Stream());
        assert Behind(frame.Pending(), None) == frame.Pending();
      }
    }

    /** Add the content of the next record. */
    method ReadRecord(ghost items: seq<Item>, ghost ms: seq<HandshakeMessage>)
        returns (failure: Option<ReadFailure>, ghost left: seq<Item>)
      requires Valid()
      modifies conn`cachedRecord, conn`count, conn.seqNo, conn.nonce, conn.frame, conn.conn`incoming, frame`remainder
      ensures failure.None? ==> Valid() && Measure() < old(Measure()) && conn.cachedRecord.None?
      ensures old(Follows(items, ms)) ==> Valid() && Follows(left, ms) && (failure.None? || failure == Some(Blocked))
      ensures failure == Some(Blocked) ==> Valid() && conn.cachedRecord.None?
                                           && TakeFrame(RecordDetails, conn.frame.Pending()).None?
                                           && frame.remainder == old(frame.remainder)
    {
      var r;
      r, left := TakeRecord(items, ms);
      if r == Err(WouldBlock) {
        return Some(Blocked), left;
      }
      if r.Err? {
        return Some(RecordError(r.error)), left;
      }
      var pt := r.value;
      if pt.contentType != HANDSHAKE && pt.contentType != ALERT {
        return Some(UnexpectedType), left;
      }
      if pt.contentType == ALERT {
        return Some(if |pt.fragment| < 2 then Crashed else AlertReceived(pt.fragment[1])), left;
      }
      ghost var held := frame.Pending();
      frame.AddChunk(pt.fragment);
      assert Held() == held + pt.fragment;
      return None, left;
    }

    /** The next message, put together from as many records as it takes. */
    method ReadMessage(ghost items: seq<Item>, ghost ms: seq<HandshakeMessage>)
        returns (r: ReadResult, ghost left: seq<Item>)
      requires Valid()
      modifies conn`cachedRecord, conn`count, conn.seqNo, conn.nonce, conn.frame, conn.conn`incoming, frame
      ensures old(Follows(items, ms)) ==> Valid() && (r.Message? || r == NoMessage(Blocked))
      ensures old(Follows(items, ms)) && r.Message? ==> ms != [] && r.message == ms[0] && Follows(left, ms[1..])
      ensures old(Follows(items, ms)) && r.NoMessage? ==>
                Follows(left, ms) && (!nonblocking && conn.conn.incoming == [] ==> ms == [])
    {
      left := items;
      while true
        invariant Valid() && (old(Follows(items, ms)) ==> Follows(left, ms))
        decreases Measure(), frame.Needed() == 0
      {
        if frame.Needed() > 0 {
          var failure;
          failure, left := ReadRecord(left, ms);
          if failure.Some? {
            if failure == Some(Blocked) {
              TooShortToTake(frame);
              if old(Follows(items, ms)) && conn.conn.incoming == [] {
                assert conn.Stream() == conn.frame.Pending() && Held() == frame.Pending();
                NothingMore(conn.cipher, conn.iv, conn.count, conn.Stream(), Held(), left, ms);
              }
            }
            return NoMessage(failure.value), left;
          }
        }
        ghost var held := frame.Pending();
        var f := frame.Process();
        if f.Some? {
          if old(Follows(items, ms)) {
            CutMessage(conn.cipher, conn.iv, conn.count, conn.Stream(), held,
                       if conn.cachedRecord.Some? then conn.cachedRecord.value.fragment
                           else [], left, ms, f.value, frame.Pending());
          }
          return Message(HandshakeMessage(f.value.header[0], f.value.body)), left;
        }
        if nonblocking {
          return NoMessage(Blocked), left;
        }
      }
    }

    /** Write one fragment as a record; `items` are the fragments that have been written before. */
    method WriteFragment(fragment: seq<byte>, ghost k: nat, ghost before: seq<byte>, ghost items: seq<Item>)
        returns (status: WriteStatus)
      requires conn.Valid() && HasWritten(k, before, items)
      modifies conn.seqNo, conn.nonce, conn`count, conn.conn`outgoing
      ensures HasWritten(k, before, if status == Written then items + [Item(Plaintext(HANDSHAKE, fragment), 0)] else
                           items)
      ensures status == Written ==> conn.Valid()
      ensures status != Written && status != Wraparound ==> conn.Valid()
      ensures status != Written ==> status == Wraparound
                                    || !Writable(conn.cipher, conn.iv, k + |items|, Plaintext(HANDSHAKE, fragment), 0)
    {
      var pt := Plaintext(HANDSHAKE, fragment);
      status := conn.WriteRecordWithPadding(pt, 0);
      if status == Written {
        OneMore(conn.cipher, conn.iv, k, items, Item(pt, 0), before);
      }
    }

    /** Join the messages and send them in fragments; `n` fragments are written. */
    method WriteMessages(hms: seq<HandshakeMessage>) returns (failure: Option<WriteFailure>, ghost n: nat)
      requires Valid()
      modifies conn.seqNo, conn.nonce, conn`count, conn.conn`outgoing
      ensures failure == Some(MessageTooLarge) <==> exists i :: 0 <= i < |hms| && |hms[i].body| > MAX_MESSAGE
      ensures var items := Fragments(Joined(MarshalAll(hms)));
              && n <= |items| && (failure.None? ==> n == |items| && conn.Valid())
              && HasWritten(old(conn.count), old(conn.conn.outgoing), items[..n])
              && (failure.Some? && failure.value.RecordFailure? && failure.value.status != Wraparound ==>
                    n < |items| && !Writable(conn.cipher, conn.iv, old(conn.count) + n, items[n].pt, 0))
    {
      hide Fragments, Writable;
      var ok, buffer := JoinMessages(hms);
      if !ok {
        assert conn.conn.outgoing + [] == conn.conn.outgoing;
        return Some(MessageTooLarge), 0;
      }
      var status;
      status, n := SendFragments(buffer);
      failure := if status == Written then None else Some(RecordFailure(status));
    }

    /** The records with contents `items`, numbered from `k` on, have been written behind `before`. */
    ghost predicate HasWritten(k: nat, before: seq<byte>, items: seq<Item>)
      reads conn, conn.conn
    {
      && conn.count == k + |items| && AllWritable(conn.cipher, conn.iv, k, items)
      && conn.conn.outgoing == before + Joined(Sent(conn.cipher, conn.iv, k, items))
    }

    /** Send the fragment that starts at `start`, which is number `n`. */
    method SendNext(buffer: seq<byte>, start: nat, end: nat, ghost k: nat, ghost before: seq<byte>,
                    ghost items: seq<Item>, ghost n: nat)
      returns (status: WriteStatus)
      requires conn.Valid() && n <= |items| && HasWritten(k, before, items[..n])
      requires start < end <= |buffer| && items[n..] == Fragments(buffer[start..])
      requires end == if |buffer| - start >= MAX_FRAGMENT then start + MAX_FRAGMENT else |buffer|
      modifies conn.seqNo, conn.nonce, conn`count, conn.conn`outgoing
      ensures n < |items|
      ensures status == Written ==> conn.Valid() && HasWritten(k, before, items[..n + 1])
                                    && items[n + 1..] == Fragments(buffer[end..])
      ensures status != Written ==> HasWritten(k, before, items[..n])
      ensures status != Written ==> status == Wraparound || !Writable(conn.cipher, conn.iv, k + n, items[n].pt, 0)
    {
      NextFragment(buffer, start, items, n);
      assert items[n] == Item(Plaintext(HANDSHAKE, buffer[start..end]), 0);
      status := WriteFragment(buffer[start..end], k, before, items[..n]);
    }

    method SendFragments(buffer: seq<byte>) returns (status: WriteStatus, ghost n: nat)
      requires conn.Valid()
      modifies conn.seqNo, conn.nonce, conn`count, conn.conn`outgoing
      ensures n <= |Fragments(buffer)| && (status == Written ==> n == |Fragments(buffer)| && conn.Valid())
      ensures HasWritten(old(conn.count), old(conn.conn.outgoing), Fragments(buffer)[..n])
      ensures status != Written && status != Wraparound ==>
                n < |Fragments(buffer)|
                    && !Writable(conn.cipher, conn.iv, old(conn.count) + n, Fragments(buffer)[n].pt, 0)
    {
      ghost var k, before, items := conn.count, conn.conn.outgoing, Fragments(buffer);
      var start := 0;
      n := 0;
      assert before + [] == before && buffer[0..] == buffer && items[0..] == items;
      assert HasWritten(k, before, items[..0]);
      NoFragments();
      hide Fragments, Writable, AllWritable, Sent, Joined;
      while |buffer| - start >= MAX_FRAGMENT
        invariant 0 <= start <= |buffer| && n <= |items| && items[n..] == Fragments(buffer[start..])
        invariant conn.Valid() && HasWritten(k, before, items[..n])
      {
        status := SendNext(buffer, start, start + MAX_FRAGMENT, k, before, items, n);
        if status != Written {
          return;
        }
        start, n := start + MAX_FRAGMENT, n + 1;
      }
      status := Written;
      if start < |buffer| {
        status := SendNext(buffer, start, |buffer|, k, before, items, n);
        if status == Written {
          n := n + 1;
        }
      }
    }
  }

  /** The bytes of all messages in order, unless one is too large. */
  method JoinMessages(hms: seq<HandshakeMessage>) returns (ok: bool, buffer: seq<byte>)
    ensures ok <==> forall i :: 0 <= i < |hms| ==> |hms[i].body| <= MAX_MESSAGE
    ensures ok ==> buffer == Joined(MarshalAll(hms))
  {
    hide Marshal;
    buffer := [];
    for i := 0 to |hms|
      invariant buffer == Joined(MarshalAll(hms)[..i])
      invariant forall j :: 0 <= j < i ==> |hms[j].body| <= MAX_MESSAGE
    {
      if |hms[i].body| > MAX_MESSAGE {
        return false, buffer;
      }
      JoinedAppend(MarshalAll(hms)[..i], [Marshal(hms[i])]);
      assert MarshalAll(hms)[..i + 1] == MarshalAll(hms)[..i] + [Marshal(hms[i])];
      assert Joined([Marshal(hms[i])]) == Marshal(hms[i]).Bytes();
      buffer := buffer + Marshal(hms[i]).Bytes();
    }
    assert MarshalAll(hms)[..|hms|] == MarshalAll(hms);
    ok := true;
  }

  lemma OneMore(cipher: Option<Aead>, iv: seq<byte>, k: nat, items: seq<Item>, item: Item, before: seq<byte>)
    requires AllWritable(cipher, iv, k, items) && Writable(cipher, iv, k + |items|, item.pt, item.padLen)
    ensures AllWritable(cipher, iv, k, items + [item])
    ensures (before + Joined(Sent(cipher, iv, k, items)))
            + RecordFrame(Protected(cipher, iv, k + |items|, item.pt, item.padLen)).Bytes()
            == before + Joined(Sent(cipher, iv, k, items + [item]))
  {
    var f := RecordFrame(Protected(cipher, iv, k + |items|, item.pt, item.padLen));
    SentAppend(cipher, iv, k, items, [item]);
    assert Sent(cipher, iv, k + |items|, [item]) == [f];
    JoinedAppend(Sent(cipher, iv, k, items), [f]);
    assert Joined([f]) == f.Bytes();
    Associative(before, Joined(Sent(cipher, iv, k, items)), f.Bytes());
  }

  /** The fragment that is sent next, and those behind it. */
  lemma NextFragment(buffer: seq<byte>, start: nat, items: seq<Item>, n: nat)
    requires start < |buffer| && n <= |items| && items[n..] == Fragments(buffer[start..])
    ensures n < |items| && items[..n + 1] == items[..n] + [items[n]]
    ensures if |buffer| - start >= MAX_FRAGMENT then
              items[n] == Item(Plaintext(HANDSHAKE, buffer[start..start + MAX_FRAGMENT]), 0)
                  && items[n + 1..] == Fragments(buffer[start + MAX_FRAGMENT..])
            else
              items[n] == Item(Plaintext(HANDSHAKE, buffer[start..]), 0) && n + 1 == |items|
  {
    var rest := buffer[start..];
    assert items[n] == items[n..][0];
    if |rest| >= MAX_FRAGMENT {
      assert rest[..MAX_FRAGMENT] == buffer[start..start + MAX_FRAGMENT]
             && rest[MAX_FRAGMENT..] == buffer[start + MAX_FRAGMENT..];
      assert items[n + 1..] == items[n..][1..];
    } else {
      assert |items[n..]| == 1;
    }
  }
}
