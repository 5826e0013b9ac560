/** Messages as bytes, so that different messages have different bytes: a hash function without collisions. */
module TlsEncoding {
  import opened Wrappers
  import opened TlsMessages

  /** Each part with its length in front of it. */
  function Parts(parts: seq<Bytes>): Bytes {
    if parts == [] then [] else [|parts[0]|] + parts[0] + Parts(parts[1..])
  }

  lemma {:induction false} PartsAre(a: seq<Bytes>, b: seq<Bytes>)
    requires Parts(a) == Parts(b)
    ensures a == b
    decreases |a|
  {
    if a == [] || b == [] {
      assert a == [] && b == [] by {
        assert a != [] ==> |Parts(a)| > 0;
        assert b != [] ==> |Parts(b)| > 0;
      }
    } else {
      assert Parts(a)[0] == |a[0]| && Parts(b)[0] == |b[0]|;
      assert a[0] == Parts(a)[1..][..|a[0]|] && b[0] == Parts(b)[1..][..|b[0]|];
      assert Parts(a[1..]) == Parts(a)[1..][|a[0]|..] && Parts(b[1..]) == Parts(b)[1..][|b[0]|..];
      PartsAre(a[1..], b[1..]);
      assert a == [a[0]] + a[1..] && b == [b[0]] + b[1..];
    }
  }

  /** An optional value: nothing, or a mark and the value. */
  function Optional(b: Option<Bytes>): Bytes {
    if b.Some? then [1] + b.value else []
  }

  lemma OptionalIs(a: Option<Bytes>, b: Option<Bytes>)
    requires Optional(a) == Optional(b)
    ensures a == b
  {
    if a.Some? && b.Some? {
      assert a.value == Optional(a)[1..] && b.value == Optional(b)[1..];
    }
  }

  function Flag(b: bool): Bytes {
    [if b then 1 else 0]
  }

  function OfString(s: string): Bytes {
    seq(|s|, i requires 0 <= i < |s| => s[i] as int)
  }

  lemma StringsAre(a: string, b: string)
    requires OfString(a) == OfString(b)
    ensures a == b
  {
    assert |a| == |OfString(a)| && |b| == |OfString(b)|;
    forall i | 0 <= i < |a| ensures a[i] == b[i] {
      assert OfString(a)[i] == OfString(b)[i];
    }
  }

  function Names(s: seq<string>): seq<Bytes> {
    seq(|s|, i requires 0 <= i < |s| => OfString(s[i]))
  }

  lemma NamesAre(a: seq<string>, b: seq<string>)
    requires Names(a) == Names(b)
    ensures a == b
  {
    assert |a| == |Names(a)| && |b| == |Names(b)|;
    forall i | 0 <= i < |a| ensures a[i] == b[i] {
      assert Names(a)[i] == Names(b)[i];
      StringsAre(a[i], b[i]);
    }
  }

  function OfShare(s: KeyShare): Bytes {
    [s.group] + s.public
  }

  lemma ShareIs(a: KeyShare, b: KeyShare)
    requires OfShare(a) == OfShare(b)
    ensures a == b
  {
    assert a.group == OfShare(a)[0] && b.group == OfShare(b)[0];
    assert a.public == OfShare(a)[1..] && b.public == OfShare(b)[1..];
  }

  function OfShares(s: seq<KeyShare>): seq<Bytes> {
    seq(|s|, i requires 0 <= i < |s| => OfShare(s[i]))
  }

  lemma SharesAre(a: seq<KeyShare>, b: seq<KeyShare>)
    requires OfShares(a) == OfShares(b)
    ensures a == b
  {
    assert |a| == |OfShares(a)| && |b| == |OfShares(b)|;
    forall i | 0 <= i < |a| ensures a[i] == b[i] {
      assert OfShares(a)[i] == OfShares(b)[i];
      ShareIs(a[i], b[i]);
    }
  }

  function OfModes(s: seq<PskMode>): Bytes {
    seq(|s|, i requires 0 <= i < |s| => if s[i].PskOnly? then 0 else 1)
  }

  lemma ModesAre(a: seq<PskMode>, b: seq<PskMode>)
    requires OfModes(a) == OfModes(b)
    ensures a == b
  {
    assert |a| == |OfModes(a)| && |b| == |OfModes(b)|;
    forall i | 0 <= i < |a| ensures a[i] == b[i] {
      assert OfModes(a)[i] == OfModes(b)[i];
    }
  }

  function OfOffer(o: PskOffer): Bytes {
    Parts([Parts(o.identities), Parts(o.binders)])
  }

  lemma OfferIs(a: PskOffer, b: PskOffer)
    requires OfOffer(a) == OfOffer(b)
    ensures a == b
  {
    var x, y := [Parts(a.identities), Parts(a.binders)], [Parts(b.identities), Parts(b.binders)];
    PartsAre(x, y);
    assert x[0] == y[0] && x[1] == y[1];
    PartsAre(a.identities, b.identities);
    PartsAre(a.binders, b.binders);
  }

  function Map<T, U>(o: Option<T>, f: T -> U): Option<U> {
    if o.Some? then Some(f(o.value)) else None
  }

  function HelloParts(h: Hello): seq<Bytes> {
    [h.random, h.suites, Optional(h.versions), Optional(Map(h.serverName, OfString)), Parts(OfShares(h.keyShares)),
     Optional(h.groups), Optional(h.schemes), Parts(Names(h.protos)), h.cookie, Flag(h.earlyData), OfModes(h.modes),
     Optional(Map(h.psk, OfOffer))]
  }

  lemma HelloIs(a: Hello, b: Hello)
    requires Parts(HelloParts(a)) == Parts(HelloParts(b))
    ensures a == b
  {
    hide Parts, Optional, OfModes, OfShares, Names, OfOffer, OfString;
    var x, y := HelloParts(a), HelloParts(b);
    PartsAre(x, y);
    assert x[0] == y[0] && x[1] == y[1] && x[2] == y[2] && x[3] == y[3] && x[4] == y[4] && x[5] == y[5];
    assert x[6] == y[6] && x[7] == y[7] && x[8] == y[8] && x[9] == y[9] && x[10] == y[10] && x[11] == y[11];
    OptionalIs(a.versions, b.versions);
    NameIs(a.serverName, b.serverName);
    PartsAre(OfShares(a.keyShares), OfShares(b.keyShares));
    SharesAre(a.keyShares, b.keyShares);
    OptionalIs(a.groups, b.groups);
    OptionalIs(a.schemes, b.schemes);
    PartsAre(Names(a.protos), Names(b.protos));
    NamesAre(a.protos, b.protos);
    assert x[9][0] == y[9][0];
    ModesAre(a.modes, b.modes);
    OptionalIs(Map(a.psk, OfOffer), Map(b.psk, OfOffer));
    if a.psk.Some? && b.psk.Some? {
      OfferIs(a.psk.value, b.psk.value);
    }
  }

  lemma NameIs(a: Option<string>, b: Option<string>)
    requires Optional(Map(a, OfString)) == Optional(Map(b, OfString))
    ensures a == b
  {
    OptionalIs(Map(a, OfString), Map(b, OfString));
    if a.Some? && b.Some? {
      StringsAre(a.value, b.value);
    }
  }

  /** The parts of a message, and a number for its kind. */
  function Kind(m: Message): nat {
    match m
    case ClientHello(_) => 0
    case ServerHello(_, _, _, _, _) => 1
    case HelloRetryRequest(_, _, _, _) => 2
    case EncryptedExtensions(_, _) => 3
    case CertificateRequest(_, _) => 4
    case Certificate(_) => 5
    case CertificateVerify(_, _) => 6
    case Finished(_) => 7
    case EndOfEarlyData => 8
    case ApplicationData(_) => 9
    case MessageHash(_) => 10
    case Truncated(_) => 11
  }

  function MessageParts(m: Message): seq<Bytes> {
    match m
    case ClientHello(h) => HelloParts(h)
    case ServerHello(version, random, suite, share, psk) =>
      [[version], random, [suite], Optional(Map(share, OfShare)), Optional(Map(psk, n => [n]))]
    case HelloRetryRequest(version, suite, cookie, other) => [[version], [suite], Optional(cookie), [other]]
    case EncryptedExtensions(proto, early) => [Optional(Map(proto, OfString)), Flag(early)]
    case CertificateRequest(context, schemes) => [context, Optional(schemes)]
    case Certificate(chain) => chain
    case CertificateVerify(scheme, signature) => [[scheme], signature]
    case Finished(data) => [data]
    case EndOfEarlyData => []
    case ApplicationData(data) => [data]
    case MessageHash(digest) => [digest]
    case Truncated(h) => HelloParts(h)
  }

  lemma ServerHelloIs(a: Message, b: Message)
    requires a.ServerHello? && b.ServerHello? && MessageParts(a) == MessageParts(b)
    ensures a == b
  {
    hide Optional, OfShare;
    var x, y := MessageParts(a), MessageParts(b);
    assert x[0][0] == y[0][0] && x[1] == y[1] && x[2][0] == y[2][0] && x[3] == y[3] && x[4] == y[4];
    OptionalIs(Map(a.keyShare, OfShare), Map(b.keyShare, OfShare));
    if a.keyShare.Some? && b.keyShare.Some? {
      ShareIs(a.keyShare.value, b.keyShare.value);
    }
    OptionalIs(Map(a.selectedPsk, n => [n]), Map(b.selectedPsk, n => [n]));
    if a.selectedPsk.Some? && b.selectedPsk.Some? {
      assert [a.selectedPsk.value][0] == [b.selectedPsk.value][0];
    }
  }

  lemma RequestIs(a: Message, b: Message)
    requires a.HelloRetryRequest? && b.HelloRetryRequest? && MessageParts(a) == MessageParts(b)
    ensures a == b
  {
    hide Optional;
    var x, y := MessageParts(a), MessageParts(b);
    assert x[0][0] == y[0][0] && x[1][0] == y[1][0] && x[2] == y[2] && x[3][0] == y[3][0];
    OptionalIs(a.cookie, b.cookie);
  }

  lemma ExtensionsAre(a: Message, b: Message)
    requires a.EncryptedExtensions? && b.EncryptedExtensions? && MessageParts(a) == MessageParts(b)
    ensures a == b
  {
    hide Optional, OfString;
    var x, y := MessageParts(a), MessageParts(b);
    assert x[0] == y[0] && x[1][0] == y[1][0];
    NameIs(a.proto, b.proto);
  }

  lemma MessageIs(a: Message, b: Message)
    requires Kind(a) == Kind(b) && MessageParts(a) == MessageParts(b)
    ensures a == b
  {
    hide Optional, HelloParts, Parts;
    var x, y := MessageParts(a), MessageParts(b);
    match a
    case ClientHello(h) => HelloIs(h, b.hello);
    case ServerHello(_, _, _, _, _) => ServerHelloIs(a, b);
    case HelloRetryRequest(_, _, _, _) => RequestIs(a, b);
    case EncryptedExtensions(_, _) => ExtensionsAre(a, b);
    case CertificateRequest(_, schemes) =>
      assert x[0] == y[0] && x[1] == y[1];
      OptionalIs(schemes, b.schemes);
    case Certificate(_) =>
    case CertificateVerify(_, _) => assert x[0][0] == y[0][0] && x[1] == y[1];
    case Finished(_) => assert x[0] == y[0];
    case EndOfEarlyData =>
    case ApplicationData(_) => assert x[0] == y[0];
    case MessageHash(_) => assert x[0] == y[0];
    case Truncated(h) => HelloIs(h, b.hello);
  }

  function OfMessage(m: Message): Bytes {
    [Kind(m)] + Parts(MessageParts(m))
  }

  function OfMessages(ms: seq<Message>): seq<Bytes> {
    seq(|ms|, i requires 0 <= i < |ms| => OfMessage(ms[i]))
  }

  lemma BytesOfMessageIs(a: Message, b: Message)
    requires OfMessage(a) == OfMessage(b)
    ensures a == b
  {
    hide Parts, MessageParts, Kind;
    assert Kind(a) == OfMessage(a)[0] && Kind(b) == OfMessage(b)[0];
    assert Parts(MessageParts(a)) == OfMessage(a)[1..] && Parts(MessageParts(b)) == OfMessage(b)[1..];
    PartsAre(MessageParts(a), MessageParts(b));
    MessageIs(a, b);
  }

  lemma TranscriptIs(a: seq<Message>, b: seq<Message>)
    requires Parts(OfMessages(a)) == Parts(OfMessages(b))
    ensures a == b
  {
    hide Parts, OfMessage;
    PartsAre(OfMessages(a), OfMessages(b));
    assert |a| == |OfMessages(a)| && |b| == |OfMessages(b)|;
    forall i | 0 <= i < |a| ensures a[i] == b[i] {
      assert OfMessages(a)[i] == OfMessages(b)[i];
      BytesOfMessageIs(a[i], b[i]);
    }
  }
}
