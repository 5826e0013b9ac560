/**
 A writer and a reader of handshake messages: every interleaving of writing, reading records and cutting messages off.
 */
module TlsPipe {
  import opened Wire
  import opened Wrappers
  import opened Bits
  import opened TlsFraming
  import opened TlsRecords
  import opened TlsHandshakeLayer

  /** The two ends under one key: how many records each has counted, the bytes between them, and the messages so far. */
  datatype Pipe = Pipe(
    cipher: Option<Aead>,
    iv: seq<byte>,
    writes: nat,
    taken: nat,
    stream: seq<byte>,
    held: seq<byte>,
    written: seq<HandshakeMessage>,
    read: seq<HandshakeMessage>,
    failed: bool)

  datatype Step =
    | Write(ms: seq<HandshakeMessage>)
    | ReadRecord(f: Frame, rest: seq<byte>, r: Result<Plaintext>)
    | CutMessage(f: Frame, rest: seq<byte>)

  /** The messages can be written: each fits its header, the records fit, and the sequence numbers do not run out. */
  ghost predicate CanWrite(p: Pipe, ms: seq<HandshakeMessage>) {
    var items := Fragments(Joined(MarshalAll(ms)));
    && (forall i :: 0 <= i < |ms| ==> |ms[i].body| < MAX_MESSAGE) && AllWritable(p.cipher, p.iv, p.writes, items)
    && (|p.iv| > 0 ==> p.writes + |items| < Pow(256, CounterLen(|p.iv|)))
  }

  ghost predicate Next(p: Pipe, step: Step, p': Pipe) {
    !p.failed
    && match step
       case Write(ms) =>
         && CanWrite(p, ms)
         && var items := Fragments(Joined(MarshalAll(ms)));
            p' == p.(writes := p.writes + |items|, stream := p.stream + Joined(Sent(p.cipher, p.iv, p.writes, items)),
                     written := p.written + ms)
       case ReadRecord(f, rest, r) =>
         && f.Fits(RecordDetails) && p.stream == f.Bytes() + rest && Means(p.cipher, p.iv, p.taken, f, r)
         && p' == if r.Ok? && r.value.contentType == HANDSHAKE
                  then p.(stream := rest, taken := p.taken + 1, held := p.held + r.value.fragment)
                      else p.(failed := true)
       case CutMessage(f, rest) =>
         && TakeFrame(HandshakeDetails, p.held) == Some((f, rest))
         && p' == p.(held := rest, read := p.read + [HandshakeMessage(f.header[0], f.body)])
  }

  ghost predicate IsRun(ps: seq<Pipe>, steps: seq<Step>) {
    && |ps| == |steps| + 1
    && ps[0] == Pipe(ps[0].cipher, ps[0].iv, 0, 0, [], [], [], [], false)
        && (ps[0].cipher.Some? ==> ps[0].cipher.value.Lawful())
    && forall i :: 0 <= i < |steps| ==> Next(ps[i], steps[i], ps[i + 1])
  }

  /**
   What has been read are the first messages that were written, and the rest is on its way in records with contents
   `items`.
   */
  ghost predicate InvWith(p: Pipe, items: seq<Item>) {
    && !p.failed && p.read <= p.written && p.writes == p.taken + |items|
    && InStep(p.cipher, p.iv, p.taken, p.stream, p.held, items, p.written[|p.read|..])
  }

  lemma WriteKeeps(p: Pipe, ms: seq<HandshakeMessage>, p': Pipe, items: seq<Item>) returns (items': seq<Item>)
    requires InvWith(p, items) && Next(p, Write(ms), p')
    ensures InvWith(p', items')
  {
    hide InStep, AllWritable, Fragments;
    var added := Fragments(Joined(MarshalAll(ms)));
    WritingKeepsInStep(p.cipher, p.iv, p.taken, p.stream, p.held, items, p.written[|p.read|..], ms);
    items' := items + added;
    assert p.written[|p.read|..] + ms == (p.written + ms)[|p.read|..];
  }

  lemma ReadKeeps(p: Pipe, f: Frame, rest: seq<byte>, r: Result<Plaintext>, p': Pipe, items: seq<Item>)
      returns (items': seq<Item>)
    requires InvWith(p, items) && Next(p, ReadRecord(f, rest, r), p')
    ensures InvWith(p', items')
  {
    var ms := p.written[|p.read|..];
    RecordIsNext(p.cipher, p.iv, p.taken, p.stream, p.held, items, ms, f, rest, r);
    items' := items[1..];
  }

  lemma CutKeeps(p: Pipe, f: Frame, rest: seq<byte>, p': Pipe, items: seq<Item>)
    requires InvWith(p, items) && Next(p, CutMessage(f, rest), p')
    ensures InvWith(p', items)
  {
    hide InStep;
    var ms := p.written[|p.read|..];
    MessageIsNext(p.cipher, p.iv, p.taken, p.stream, p.held, items, ms, f, rest);
    assert ms[0] == p.written[|p.read|] && ms[1..] == p.written[|p.read| + 1..];
    assert p'.read == p.written[..|p.read|] + [ms[0]] == p.written[..|p.read| + 1];
  }

  lemma {:induction false} RunKeepsInv(ps: seq<Pipe>, steps: seq<Step>, n: nat) returns (items: seq<Item>)
    requires IsRun(ps, steps) && n < |ps|
    ensures InvWith(ps[n], items)
  {
    hide Next;
    if n == 0 {
      items := [];
      StartHolds(ps[0]);
    } else {
      items := RunKeepsInv(ps, steps, n - 1);
      assert Next(ps[n - 1], steps[n - 1], ps[n]);
      match steps[n - 1]
      case Write(ms) => items := WriteKeeps(ps[n - 1], ms, ps[n], items);
      case ReadRecord(f, rest, r) => items := ReadKeeps(ps[n - 1], f, rest, r, ps[n], items);
      case CutMessage(f, rest) => CutKeeps(ps[n - 1], f, rest, ps[n], items);
    }
  }

  lemma StartHolds(p: Pipe)
    requires p == Pipe(p.cipher, p.iv, 0, 0, [], [], [], [], false) && (p.cipher.Some? ==> p.cipher.value.Lawful())
    ensures InvWith(p, [])
  {
    assert p.written[0..] == [];
  }

  /**
   Under any interleaving, the messages that are read are the first ones that were written, in order, and no read fails.
   */
  lemma ReadInOrder(ps: seq<Pipe>, steps: seq<Step>, n: nat)
    requires IsRun(ps, steps) && n < |ps|
    ensures !ps[n].failed && ps[n].read <= ps[n].written
  {
    var items := RunKeepsInv(ps, steps, n);
  }

  /** When no record and no message can be cut off any more, everything that was written has been read. */
  lemma AllIsRead(ps: seq<Pipe>, steps: seq<Step>, n: nat)
    requires IsRun(ps, steps) && n < |ps|
    requires TakeFrame(RecordDetails, ps[n].stream).None? && TakeFrame(HandshakeDetails, ps[n].held).None?
    ensures ps[n].read == ps[n].written
  {
    var items := RunKeepsInv(ps, steps, n);
    var p := ps[n];
    NothingMore(p.cipher, p.iv, p.taken, p.stream, p.held, items, p.written[|p.read|..]);
  }
}
