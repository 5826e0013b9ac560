/**
 Handshake messages, the cryptographic operations as uninterpreted functions with the laws that the
 handshake relies on, and the key schedule (sections 4.4.1 and 7.1 of RFC 8446).
 */
module TlsMessages {
  import opened Wrappers

  type Bytes = seq<nat>

  datatype HashAlg = SHA256 | SHA384

  /** The cipher suites that are implemented, with their hash functions. */
  const SUITES: map<nat, HashAlg> := map[0x1301 := SHA256, 0x1302 := SHA384]

  const SUPPORTED_VERSION: nat := 0x7f15

  datatype PskMode = PskOnly | PskWithDh

  datatype KeyShare = KeyShare(group: nat, public: Bytes)

  datatype PskOffer = PskOffer(identities: seq<Bytes>, binders: seq<Bytes>)

  datatype Hello = Hello(
    random: Bytes,
    suites: seq<nat>,
    versions: Option<seq<nat>>,
    serverName: Option<string>,
    keyShares: seq<KeyShare>,
    groups: Option<seq<nat>>,
    schemes: Option<seq<nat>>,
    protos: seq<string>,
    cookie: Bytes,
    earlyData: bool,
    modes: seq<PskMode>,
    psk: Option<PskOffer>)

  datatype Message =
    | ClientHello(hello: Hello)
    | ServerHello(version: nat, random: Bytes, suite: nat, keyShare: Option<KeyShare>, selectedPsk: Option<nat>)
    | HelloRetryRequest(version: nat, suite: nat, cookie: Option<Bytes>, otherExtensions: nat)
    | EncryptedExtensions(proto: Option<string>, earlyData: bool)
    | CertificateRequest(context: Bytes, schemes: Option<seq<nat>>)
    | Certificate(chain: seq<Bytes>)
    | CertificateVerify(scheme: nat, signature: Bytes)
    | Finished(verifyData: Bytes)
    | EndOfEarlyData
    | ApplicationData(data: Bytes)
    // These two are hashed but never sent.
    | MessageHash(digest: Bytes)
    | Truncated(hello: Hello)

  datatype Cookie = Cookie(suite: nat, helloDigest: Bytes, application: Bytes)

  datatype Cert = Cert(chain: seq<Bytes>, key: Bytes, names: seq<string>)

  datatype Psk = Psk(suite: nat, isResumption: bool, identity: Bytes, key: Bytes, proto: string)

  datatype Label =
    | ExternalBinder | ResumptionBinder | EarlyTraffic | ClientHandshake | ServerHandshake
    | ClientTraffic | ServerTraffic | Exporter | Resumption | Derived

  /** What keys protect the records in one direction. */
  datatype KeySet = KeySet(suite: nat, secret: Bytes)

  datatype Crypto = Crypto(
    digest: (HashAlg, seq<Message>) -> Bytes,
    extract: (HashAlg, Bytes, Bytes) -> Bytes,
    derive: (HashAlg, Bytes, Label, Bytes) -> Bytes,
    finish: (HashAlg, Bytes, Bytes) -> Bytes,
    zero: HashAlg -> Bytes,
    public: (nat, Bytes) -> Option<Bytes>,
    agree: (nat, Bytes, Bytes) -> Option<Bytes>,
    usable: (nat, Bytes) -> bool,
    sign: (Bytes, nat, Bytes) -> Bytes,
    verify: (Bytes, nat, Bytes, Bytes) -> bool,
    seal: (Cookie, Bytes) -> Bytes,
    open: Bytes -> Option<Cookie>)
  {
    /** Both sides of a key exchange compute the same secret, or both fail. */
    ghost predicate Agrees() {
      forall g, a, b, pa, pb :: public(g, a) == Some(pa) && public(g, b) == Some(pb)
                                ==> agree(g, pa, b) == agree(g, pb, a)
    }

    /** A cookie that was sealed opens to its contents, and it is never empty. */
    ghost predicate Opens() {
      forall cookie, nonce :: open(seal(cookie, nonce)) == Some(cookie) && seal(cookie, nonce) != []
    }

    /** Signatures made with a certificate's key verify under the certificate. */
    ghost predicate Signs(cert: Cert) {
      cert.chain != [] && forall scheme, h :: usable(scheme, cert.key)
                                              ==> verify(cert.chain[0], scheme, sign(cert.key, scheme, h), h)
    }

    /** Secrets for different purposes are different. */
    ghost predicate Separates() {
      forall alg, alg', a, a', l, l', h, h' :: derive(alg, a, l, h) == derive(alg', a', l', h') ==> l == l'
    }

    /** Binders over contexts of different lengths are different. */
    ghost predicate Binds() {
      forall alg, alg', psk, psk', t, t' :: Binder(alg, psk, t) == Binder(alg', psk', t') ==> |t| == |t'|
    }

    function EarlySecret(alg: HashAlg, psk: Bytes): Bytes {
      extract(alg, zero(alg), psk)
    }

    function HandshakeSecret(alg: HashAlg, early: Bytes, dh: Bytes): Bytes {
      extract(alg, derive(alg, early, Derived, digest(alg, [])), dh)
    }

    function MasterSecret(alg: HashAlg, handshake: Bytes): Bytes {
      extract(alg, derive(alg, handshake, Derived, digest(alg, [])), zero(alg))
    }

    function Secret(alg: HashAlg, base: Bytes, purpose: Label, transcript: seq<Message>): Bytes {
      derive(alg, base, purpose, digest(alg, transcript))
    }

    function Binder(alg: HashAlg, psk: Psk, context: seq<Message>): Bytes {
      finish(alg, derive(alg, EarlySecret(alg, psk.key), if psk.isResumption then ResumptionBinder else
                           ExternalBinder, digest(alg, [])),
             digest(alg, context))
    }

    function FinishedData(alg: HashAlg, base: Bytes, transcript: seq<Message>): Bytes {
      finish(alg, base, digest(alg, transcript))
    }
  }

  /** A hello without the binders, as it is hashed into them. */
  function Truncation(hello: Hello): Message {
    Truncated(if hello.psk.Some? then hello.(psk := Some(PskOffer(hello.psk.value.identities, []))) else hello)
  }

  function Sends(ms: seq<Message>): (r: seq<Action>)
    ensures |r| == |ms| && forall i :: 0 <= i < |ms| ==> r[i] == Send(ms[i])
  {
    seq(|ms|, i requires 0 <= i < |ms| => Send(ms[i]))
  }

  function ToSeq<T>(m: Option<T>): seq<T> {
    if m.Some? then [m.value] else []
  }

  datatype Failure =
    | BadRecord          // the record was not protected with the expected keys
    | BadFinished        // the other side's Finished message did not verify
    | BadSignature       // a CertificateVerify message did not verify
    | BadCertificate     // the application refused a certificate chain
    | BadExtensions      // the application's extension handler refused a message
    | Crash              // a run-time error: a missing certificate or hash function
    | OtherAlert

  /** The application's judgement of certificate chains, if it wants to be asked. */
  type Judge = Option<seq<Bytes> -> bool>

  predicate Passes(judge: Judge, chain: seq<Bytes>) {
    judge.Some? ==> judge.value(chain)
  }

  /** Whether the application's extension handler goes along with a message that is sent or received. */
  type Handler = Message -> bool

  datatype Params = Params(
    usingPsk: bool,
    usingDh: bool,
    sendingEarlyData: bool,
    usingEarlyData: bool,
    usingClientAuth: bool,
    suite: nat,
    serverName: string,
    proto: string)

  const NO_PARAMS := Params(false, false, false, false, false, 0, "", "")

  /** The message that ends the early data, if the server takes it. */
  function EndOfEarly(params: Params): seq<Message> {
    if params.usingEarlyData then [EndOfEarlyData] else []
  }

  /** What a connected end holds. */
  datatype Connected = Connected(
    params: Params,
    clientTraffic: Bytes,
    serverTraffic: Bytes,
    exporter: Bytes,
    resumption: Bytes)

  datatype Action =
    | Send(message: Message)
    | RekeyIn(keys: KeySet)
    | RekeyOut(keys: KeySet)
    | ReadEarlyData        // accept application data up to the next handshake record
    | ReadPastEarlyData    // drop records up to the first one that the keys fit

  // ----- Choosing a certificate -----

  function WithName(certs: seq<Cert>, name: string): seq<Cert> {
    if certs == [] then []
    else (if name != "" && name in certs[0].names then [certs[0]] else []) + WithName(certs[1..], name)
  }

  function FirstUsable(c: Crypto, schemes: seq<nat>, key: Bytes): Option<nat> {
    if schemes == [] then None
    else if c.usable(schemes[0], key) then Some(schemes[0])
    else FirstUsable(c, schemes[1..], key)
  }

  predicate Carries(cert: Cert, name: Option<string>) {
    name.Some? ==> name.value != "" && name.value in cert.names
  }

  /** The first certificate, among those for the name if one is given, with the first scheme its key can use. */
  function SelectCertificate(c: Crypto, name: Option<string>, schemes: seq<nat>,
                             certs: seq<Cert>): (r: Option<(Cert, nat)>)
    ensures r.Some? ==> r.value.0 in certs && Carries(r.value.0, name)
    ensures r.Some? ==> r.value.1 in schemes && c.usable(r.value.1, r.value.0.key)
  {
    match name
    case Some(n) =>
      NamedAreCerts(certs, n);
      SelectByScheme(c, schemes, WithName(certs, n))
    case None =>
      SelectByScheme(c, schemes, certs)
  }

  function SelectByScheme(c: Crypto, schemes: seq<nat>, certs: seq<Cert>): (r: Option<(Cert, nat)>)
    ensures r.Some? ==> r.value.0 in certs && r.value.1 in schemes && c.usable(r.value.1, r.value.0.key)
  {
    if certs == [] then None
    else
      var s := FirstUsable(c, schemes, certs[0].key);
      if s.Some? then FirstUsableIsUsable(c, schemes, certs[0].key); Some((certs[0], s.value))
      else SelectByScheme(c, schemes, certs[1..])
  }

  lemma FirstUsableIsUsable(c: Crypto, schemes: seq<nat>, key: Bytes)
    ensures var s := FirstUsable(c, schemes, key); s.Some? ==> s.value in schemes && c.usable(s.value, key)
  {
  }

  lemma NamedAreCerts(certs: seq<Cert>, name: string)
    ensures forall cert :: cert in WithName(certs, name) ==> cert in certs && Carries(cert, Some(name))
  {
  }
}
