/** The server side of the handshake. */
module TlsServer {
  import opened Wrappers
  import opened TlsMessages

  datatype ServerConfig = ServerConfig(
    suites: seq<nat>,
    groups: seq<nat>,
    schemes: seq<nat>,
    psks: map<Bytes, Psk>,
    certs: seq<Cert>,
    protos: seq<string>,
    allowEarlyData: bool,
    requireCookie: bool,
    requireClientAuth: bool,
    judge: Judge,
    handler: Handler)

  /** What the application's cookie handler says about the first hello. */
  datatype CookieChoice = NoHandler | HandlerFails | HandlerDeclines | HandlerCookie(application: Bytes)

  /** What the server gets from outside when it reads a ClientHello. */
  datatype ServerInput = ServerInput(
    priv: nat -> Bytes,       // fresh private keys, one for each offered share
    nonce: Bytes,             // randomness of the cookie protection
    choice: CookieChoice,
    cookieValid: bool,        // whether a returned cookie satisfies the handler, if there is one
    ageOk: Bytes -> bool)     // whether the age of a resumption ticket is within the tolerance

  /** The outcome of negotiation, before the server's flight is sent. */
  datatype Negotiated = Negotiated(
    params: Params,
    share: Option<KeyShare>,
    dhSecret: Option<Bytes>,
    pskSecret: Bytes,
    selectedPsk: nat,
    cert: Option<(Cert, nat)>,
    earlyTraffic: Bytes,
    first: Option<Message>,
    retry: Option<Message>,
    hello: Hello)

  /** What the server keeps once its first flight is sent. */
  datatype ServerKeys = ServerKeys(
    alg: HashAlg,
    params: Params,
    transcript: seq<Message>,
    judge: Judge,
    master: Bytes,
    clientHandshake: Bytes,
    clientTraffic: Bytes,
    serverTraffic: Bytes,
    exporter: Bytes)

  datatype ServerState =
    | SStart(cfg: ServerConfig)
    | SNegotiated(cfg: ServerConfig, neg: Negotiated)
    | SWaitEoed(keys: ServerKeys)
    | SWaitFlight2(keys: ServerKeys)
    | SWaitCert(keys: ServerKeys)
    | SWaitCV(keys: ServerKeys, chain: seq<Bytes>)
    | SWaitFinished(keys: ServerKeys)
    | SConnected(conn: Connected)
    | SFailed(why: Failure)

  type ServerResult = (ServerState, seq<Action>)

  function Fail(why: Failure): ServerResult {
    (SFailed(why), [])
  }

  // ----- Negotiation -----

  /** The first key share whose group is supported and whose exchange succeeds. */
  function NegotiateDh(c: Crypto, shares: seq<KeyShare>, groups: seq<nat>, priv: nat -> Bytes,
                       i: nat): Option<(KeyShare, Bytes)>
    requires i <= |shares|
    decreases |shares| - i
  {
    if i == |shares| then None
    else
      var s := shares[i];
      match if s.group in groups then c.public(s.group, priv(i)) else None
      case None => NegotiateDh(c, shares, groups, priv, i + 1)
      case Some(public) =>
        match c.agree(s.group, s.public, priv(i))
        case None => NegotiateDh(c, shares, groups, priv, i + 1)
        case Some(secret) => Some((KeyShare(s.group, public), secret))
  }

  datatype PskChoice = PskNone | PskChosen(index: nat, psk: Psk, alg: HashAlg) | PskError

  /** The first offered identity that is known; its age, suite and binder must be right. */
  function NegotiatePsk(c: Crypto, offer: PskOffer, context: seq<Message>, psks: map<Bytes, Psk>, ageOk: Bytes -> bool,
                        i: nat): PskChoice
    requires i <= |offer.identities|
    decreases |offer.identities| - i
  {
    if i == |offer.identities| then PskNone
    else if offer.identities[i] !in psks then NegotiatePsk(c, offer, context, psks, ageOk, i + 1)
    else
      var psk := psks[offer.identities[i]];
      if (psk.isResumption && !ageOk(psk.identity)) || psk.suite !in SUITES || i >= |offer.binders| then
        PskError
      else if c.Binder(SUITES[psk.suite], psk, context) != offer.binders[i] then
        PskError
      else
        PskChosen(i, psk, SUITES[psk.suite])
  }

  /** Whether the exchange uses Diffie-Hellman and whether it uses the pre-shared key. */
  function NegotiatePskMode(canDoDh: bool, canDoPsk: bool, modes: seq<PskMode>): (bool, bool) {
    var usingPsk := canDoPsk && (PskOnly in modes || canDoDh) && modes != [];
    (canDoDh && (PskWithDh in modes || !usingPsk), usingPsk)
  }

  function NegotiateSuite(psk: Option<Psk>, offered: seq<nat>, supported: seq<nat>): (r: Option<nat>)
    ensures r.Some? ==> r.value in offered && (if psk.Some? then r.value == psk.value.suite else r.value in supported)
  {
    if offered == [] then None
    else if (if psk.Some? then offered[0] == psk.value.suite else offered[0] in supported) then Some(offered[0])
    else NegotiateSuite(psk, offered[1..], supported)
  }

  /** The protocol to use, or none; an offer on resumption that cannot be met is an error. */
  function NegotiateProto(psk: Option<Psk>, offered: seq<string>, supported: seq<string>,
                          all: seq<string>): Option<string> {
    if offered == [] then
      if psk.Some? && psk.value.isResumption && all != [] then None else Some("")
    else if (psk.Some? ==> offered[0] == psk.value.proto) && offered[0] in supported then Some(offered[0])
    else NegotiateProto(psk, offered[1..], supported, all)
  }

  function Retry(suite: nat, cookie: Bytes): Message {
    HelloRetryRequest(SUPPORTED_VERSION, suite, Some(cookie), 0)
  }

  /** The state after a cookie: what was hashed and chosen when it was made. */
  function OpenCookie(c: Crypto, hello: Hello, input: ServerInput): Option<Option<Cookie>> {
    if hello.cookie == [] then Some(None)
    else
      match c.open(hello.cookie)
      case None => None
      case Some(cookie) => if input.cookieValid && cookie.suite in SUITES then Some(Some(cookie)) else None
  }

  /** The pre-shared key to use; after a retry its suite must be the one in the cookie. */
  function ChoosePsk(c: Crypto, cfg: ServerConfig, hello: Hello, cookie: Option<Cookie>,
                     input: ServerInput): PskChoice {
    if hello.psk.None? || hello.psk.value.identities == [] then PskNone
    else
      var base := if cookie.Some? then [MessageHash(cookie.value.helloDigest), Retry(0, hello.cookie)] else [];
      var choice := NegotiatePsk(c, hello.psk.value, base + [Truncation(hello)], cfg.psks, input.ageOk, 0);
      if cookie.Some? && !cfg.handler(Retry(0, hello.cookie)) then PskError
      else if cookie.Some? && cookie.value.suite != (if choice.PskChosen? then choice.psk.suite else 0) then PskError
          else choice
  }

  function OnClientHello(c: Crypto, cfg: ServerConfig, hello: Hello, input: ServerInput): ServerResult {
    if !cfg.handler(ClientHello(hello)) then
      Fail(BadExtensions)
    else if hello.versions.None? || SUPPORTED_VERSION !in hello.versions.value then
      Fail(OtherAlert)
    else
      match OpenCookie(c, hello, input)
      case None => Fail(OtherAlert)
      case Some(cookie) =>
        var choice := ChoosePsk(c, cfg, hello, cookie, input);
        if choice.PskError? then
          Fail(OtherAlert)
        else
          match NegotiateSuite(if choice.PskChosen? then Some(choice.psk) else None, hello.suites, cfg.suites)
          case None => Fail(OtherAlert)
          case Some(suite) =>
            if cookie.Some? && cookie.value.suite != suite then
              Fail(OtherAlert)
            else if cfg.requireCookie && cookie.None? && !input.choice.HandlerDeclines? then
              SendRetry(c, cfg, hello, suite, input)
            else if cfg.requireCookie && cookie.Some? && !cfg.handler(Retry(suite, hello.cookie)) then
              Fail(BadExtensions)
            else
              Negotiate(c, cfg, hello, cookie, choice, suite, input)
  }

  function SendRetry(c: Crypto, cfg: ServerConfig, hello: Hello, suite: nat, input: ServerInput): ServerResult {
    if input.choice.HandlerFails? then
      Fail(OtherAlert)
    else if suite !in SUITES then
      Fail(Crash)
    else
      var application := if input.choice.HandlerCookie? then input.choice.application else [];
      var cookie := Cookie(suite, c.digest(SUITES[suite], [ClientHello(hello)]), application);
      var retry := Retry(suite, c.seal(cookie, input.nonce));
      if cfg.handler(retry) then (SStart(cfg), [Send(retry)]) else Fail(BadExtensions)
  }

  function Negotiate(c: Crypto, cfg: ServerConfig, hello: Hello, cookie: Option<Cookie>, choice: PskChoice, suite: nat,
                     input: ServerInput): ServerResult
    requires !choice.PskError?
  {
    var dh := NegotiateDh(c, hello.keyShares, cfg.groups, input.priv, 0);
    var (usingDh, usingPsk) := NegotiatePskMode(dh.Some?, choice.PskChosen?, hello.modes);
    if !usingDh && !usingPsk then
      Fail(OtherAlert)
    else if !usingPsk && (hello.serverName.None? || hello.groups.None? || hello.schemes.None?) then
      Fail(OtherAlert)
    else
      var cert := if usingPsk then None else SelectCertificate(c, hello.serverName, hello.schemes.value, cfg.certs);
      var usingEarlyData := hello.earlyData && usingPsk && cfg.allowEarlyData;
      var proto := NegotiateProto(if usingPsk then Some(choice.psk) else None, hello.protos, cfg.protos, hello.protos);
      if (!usingPsk && cert.None?) || proto.None? then
        Fail(OtherAlert)
      else
        var params := Params(usingPsk, usingDh, hello.earlyData, usingEarlyData, false, suite,
                             if hello.serverName.Some? then hello.serverName.value else "", proto.value);
        (SNegotiated(cfg, Negotiated(
           params,
           if usingDh then Some(dh.value.0) else None,
           if usingDh then Some(dh.value.1) else None,
           if usingPsk then choice.psk.key else [],
           if choice.PskChosen? then choice.index else 0,
           cert,
           if usingEarlyData then c.Secret(choice.alg, c.EarlySecret(choice.alg, choice.psk.key), EarlyTraffic,
                                           [ClientHello(hello)]) else [],
           if cookie.Some? then Some(MessageHash(cookie.value.helloDigest)) else None,
           if cookie.Some? && cfg.requireCookie then Some(Retry(suite, hello.cookie)) else None,
           hello)), [])
  }

  // ----- The server's flight -----

  /** CertificateRequest, Certificate and CertificateVerify, after the given transcript. */
  function AuthFlight(c: Crypto, alg: HashAlg, cfg: ServerConfig, cert: (Cert, nat),
                      transcript: seq<Message>): seq<Message> {
    var request := if cfg.requireClientAuth then [CertificateRequest([], Some(cfg.schemes))] else [];
    var h := c.digest(alg, transcript + request + [Certificate(cert.0.chain)]);
    request + [Certificate(cert.0.chain), CertificateVerify(cert.1, c.sign(cert.0.key, cert.1, h))]
  }

  /** The ServerHello, the transcript up to it, and the secrets it determines. */
  datatype Schedule = Schedule(
    alg: HashAlg,
    hello: Message,
    transcript: seq<Message>,
    clientHandshake: Bytes,
    serverHandshake: Bytes,
    master: Bytes)

  function HelloOf(neg: Negotiated, random: Bytes): Message {
    ServerHello(SUPPORTED_VERSION, random, neg.params.suite, if neg.params.usingDh then neg.share else None,
                if neg.params.usingPsk then Some(neg.selectedPsk) else None)
  }

  function KeySchedule(c: Crypto, neg: Negotiated, random: Bytes): Schedule
    requires neg.params.suite in SUITES
  {
    var alg := SUITES[neg.params.suite];
    var hello := HelloOf(neg, random);
    var t2 := ToSeq(neg.first) + ToSeq(neg.retry) + [ClientHello(neg.hello), hello];
    var early := c.EarlySecret(alg, if neg.params.usingPsk then neg.pskSecret else c.zero(alg));
    var secret := c.HandshakeSecret(alg, early, if neg.dhSecret.Some? then neg.dhSecret.value else c.zero(alg));
    Schedule(alg, hello, t2, c.Secret(alg, secret, ClientHandshake, t2), c.Secret(alg, secret, ServerHandshake, t2),
             c.MasterSecret(alg, secret))
  }

  function Extensions(neg: Negotiated): Message {
    EncryptedExtensions(if neg.params.proto != "" then Some(neg.params.proto) else None, neg.params.usingEarlyData)
  }

  function FirstFlight(c: Crypto, cfg: ServerConfig, neg: Negotiated, random: Bytes): ServerResult
    requires neg.params.usingPsk || neg.cert.Some?
    requires neg.params.usingDh ==> neg.share.Some?
  {
    var suite := neg.params.suite;
    if !cfg.handler(HelloOf(neg, random)) then
      Fail(BadExtensions)
    else if suite !in SUITES then
      Fail(OtherAlert)
    else if !cfg.handler(Extensions(neg)) then
      Fail(BadExtensions)
    else
      var ks := KeySchedule(c, neg, random);
      var auth := if neg.params.usingPsk then []
                  else AuthFlight(c, ks.alg, cfg, neg.cert.value, ks.transcript + [Extensions(neg)]);
      var t3 := ks.transcript + [Extensions(neg)] + auth;
      var finished := Finished(c.FinishedData(ks.alg, ks.serverHandshake, t3));
      var t4 := t3 + [finished];
      var params := neg.params.(usingClientAuth := !neg.params.usingPsk && cfg.requireClientAuth);
      var keys := ServerKeys(ks.alg, params, t4, cfg.judge, ks.master, ks.clientHandshake,
                             c.Secret(ks.alg, ks.master, ClientTraffic, t4),
                             c.Secret(ks.alg, ks.master, ServerTraffic, t4), c.Secret(ks.alg, ks.master, Exporter, t4));
      var actions := [Send(ks.hello), RekeyOut(KeySet(suite, ks.serverHandshake))]
                     + Sends([Extensions(neg)] + auth + [finished])
                     + [RekeyOut(KeySet(suite, keys.serverTraffic))];
      if params.usingEarlyData then
        (SWaitEoed(keys), actions + [RekeyIn(KeySet(suite, neg.earlyTraffic)), ReadEarlyData])
      else
        (SWaitFlight2(keys), actions + [RekeyIn(KeySet(suite, ks.clientHandshake)), ReadPastEarlyData])
  }

  // ----- The client's second flight -----

  function Heard(keys: ServerKeys, m: Message): ServerKeys {
    keys.(transcript := keys.transcript + [m])
  }

  /** Once the first flight is sent, the step that reads nothing. */
  function AwaitFlight2(st: ServerState): ServerState
    requires st.SWaitFlight2?
  {
    if st.keys.params.usingClientAuth then SWaitCert(st.keys) else SWaitFinished(st.keys)
  }

  function OnCertificateVerify(c: Crypto, st: ServerState, m: Message): ServerResult
    requires st.SWaitCV? && m.CertificateVerify?
  {
    if st.chain == [] then
      Fail(Crash)
    else if !c.verify(st.chain[0], m.scheme, m.signature, c.digest(st.keys.alg, st.keys.transcript)) then
      Fail(BadSignature)
    else if !Passes(st.keys.judge, st.chain) then
      Fail(BadCertificate)
    else
      (SWaitFinished(Heard(st.keys, m)), [])
  }

  function OnClientFinished(c: Crypto, st: ServerState, m: Message): ServerResult
    requires st.SWaitFinished? && m.Finished?
  {
    var keys := st.keys;
    if m.verifyData != c.FinishedData(keys.alg, keys.clientHandshake, keys.transcript) then
      Fail(BadFinished)
    else
      var resumption := c.Secret(keys.alg, keys.master, Resumption, keys.transcript + [m]);
      (SConnected(Connected(keys.params, keys.clientTraffic, keys.serverTraffic, keys.exporter, resumption)),
       [RekeyIn(KeySet(keys.params.suite, keys.clientTraffic))])
  }

  /** The reaction to the next message in every state after the first flight that waits for one. */
  function ServerNext(c: Crypto, st: ServerState, m: Message): ServerResult {
    match st
    case SWaitEoed(keys) =>
      if m.EndOfEarlyData? then
        (SWaitFlight2(Heard(keys, m)), [RekeyIn(KeySet(keys.params.suite, keys.clientHandshake))])
      else Fail(OtherAlert)
    case SWaitCert(keys) =>
      if m.Certificate? then
        (if m.chain == [] then SWaitFinished(Heard(keys, m)) else SWaitCV(Heard(keys, m), m.chain), [])
      else Fail(OtherAlert)
    case SWaitCV(_, _) =>
      if m.CertificateVerify? then OnCertificateVerify(c, st, m) else Fail(OtherAlert)
    case SWaitFinished(_) =>
      if m.Finished? then OnClientFinished(c, st, m) else Fail(OtherAlert)
    case _ => (st, [])
  }
}
