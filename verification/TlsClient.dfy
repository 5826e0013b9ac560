/** The client side of the handshake: each state consumes one message and yields the next state and actions. */
module TlsClient {
  import opened Wrappers
  import opened TlsMessages

  datatype ClientConfig = ClientConfig(
    suites: seq<nat>,
    groups: seq<nat>,
    schemes: seq<nat>,
    psks: map<string, Psk>,
    pskModes: seq<PskMode>,
    certs: seq<Cert>,
    serverName: string,
    protos: seq<string>,
    earlyData: Bytes,
    judge: Judge,
    handler: Handler)

  /** What the client keeps from the ServerHello on. */
  datatype ClientKeys = ClientKeys(
    alg: HashAlg,
    params: Params,
    transcript: seq<Message>,
    certs: seq<Cert>,
    judge: Judge,
    master: Bytes,
    clientHandshake: Bytes,
    serverHandshake: Bytes)

  datatype ClientState =
    | CStart(cfg: ClientConfig, cookie: Option<Bytes>, first: Option<Message>, retry: Option<Message>)
    | CWaitSH(cfg: ClientConfig, params: Params, offeredDh: map<nat, Bytes>, early: Bytes,
              first: Option<Message>, retry: Option<Message>, hello: Hello)
    | CWaitEE(keys: ClientKeys, handler: Handler)
    | CWaitCertCR(keys: ClientKeys)
    | CWaitCert(keys: ClientKeys, request: Option<Message>)
    | CWaitCV(keys: ClientKeys, request: Option<Message>, chain: seq<Bytes>)
    | CWaitFinished(keys: ClientKeys, request: Option<Message>)
    | CConnected(conn: Connected)
    | CFailed(why: Failure)

  type ClientResult = (ClientState, seq<Action>)

  function Fail(why: Failure): ClientResult {
    (CFailed(why), [])
  }

  // ----- Sending the ClientHello -----

  /** A key share for each group, and the private keys by group; of equal groups the last one is kept. */
  function Shares(c: Crypto, groups: seq<nat>, priv: nat -> Bytes, i: nat): Option<(seq<KeyShare>, map<nat, Bytes>)>
    requires i <= |groups|
    decreases |groups| - i
  {
    if i == |groups| then
      Some(([], map[]))
    else
      match (c.public(groups[i], priv(i)), Shares(c, groups, priv, i + 1))
      case (Some(pub), Some((shares, keys))) =>
        Some(([KeyShare(groups[i], pub)] + shares, map[groups[i] := priv(i)] + keys))
      case _ => None
  }

  function WithHash(suites: seq<nat>, alg: HashAlg): seq<nat> {
    if suites == [] then []
    else (if suites[0] in SUITES && SUITES[suites[0]] == alg then [suites[0]] else []) + WithHash(suites[1..], alg)
  }

  function BaseHello(st: ClientState, random: Bytes, shares: seq<KeyShare>): Hello
    requires st.CStart?
  {
    Hello(random, st.cfg.suites, Some([SUPPORTED_VERSION]), Some(st.cfg.serverName), shares, Some(st.cfg.groups),
          Some(st.cfg.schemes), st.cfg.protos, if st.cookie.Some? then st.cookie.value else [], false, [], None)
  }

  /** The hello with an offered pre-shared key, and the binder over the hello without binders. */
  function PskHello(c: Crypto, alg: HashAlg, key: Psk, cfg: ClientConfig, base: Hello): Hello {
    var open := base.(suites := WithHash(base.suites, alg), earlyData := cfg.earlyData != [], modes := cfg.pskModes,
                      psk := Some(PskOffer([key.identity], [])));
    open.(psk := Some(PskOffer([key.identity], [c.Binder(alg, key, [Truncation(open)])])))
  }

  function ClientStart(c: Crypto, st: ClientState, random: Bytes, priv: nat -> Bytes): ClientResult
    requires st.CStart?
  {
    match Shares(c, st.cfg.groups, priv, 0)
    case None => Fail(OtherAlert)
    case Some((shares, keys)) =>
      var base := BaseHello(st, random, shares);
      var params := NO_PARAMS.(serverName := st.cfg.serverName);
      if !st.cfg.handler(ClientHello(base)) then
        Fail(BadExtensions)
      else if st.cfg.serverName in st.cfg.psks then
        var key := st.cfg.psks[st.cfg.serverName];
        if key.suite !in SUITES || st.cfg.pskModes == [] then
          Fail(OtherAlert)
        else
          var alg := SUITES[key.suite];
          var hello := PskHello(c, alg, key, st.cfg, base);
          var early := c.EarlySecret(alg, key.key);
          var earlyKeys := KeySet(key.suite, c.Secret(alg, early, EarlyTraffic, [ClientHello(hello)]));
          (CWaitSH(st.cfg, params.(sendingEarlyData := st.cfg.earlyData != []), keys, early, st.first, st.retry, hello),
           [Send(ClientHello(hello))]
               + if st.cfg.earlyData != [] then [RekeyOut(earlyKeys), Send(ApplicationData(st.cfg.earlyData))] else [])
      else if st.cfg.earlyData != [] then
        Fail(OtherAlert)
      else
        (CWaitSH(st.cfg, params, keys, [], st.first, st.retry, base), [Send(ClientHello(base))])
  }

  // ----- Waiting for the ServerHello -----

  function OnRetry(c: Crypto, st: ClientState, m: Message): ClientResult
    requires st.CWaitSH? && m.HelloRetryRequest?
  {
    if st.retry.Some? || m.version != SUPPORTED_VERSION || m.suite !in st.cfg.suites then
      Fail(OtherAlert)
    else if !st.cfg.handler(m) then
      Fail(BadExtensions)
    else if m.cookie.None? || m.otherExtensions != 0 || m.suite !in SUITES then
      Fail(OtherAlert)
    else
      (CStart(st.cfg.(suites := [m.suite]), m.cookie,
              Some(MessageHash(c.digest(SUITES[m.suite], [ClientHello(st.hello)]))), Some(m)), [])
  }

  /** The next state has the extension handler, but the judge of certificates is not handed on to it. */
  function OnServerHello(c: Crypto, st: ClientState, m: Message): ClientResult
    requires st.CWaitSH? && m.ServerHello?
  {
    if m.version != SUPPORTED_VERSION || m.suite !in st.cfg.suites then
      Fail(OtherAlert)
    else if !st.cfg.handler(m) then
      Fail(BadExtensions)
    else if (m.keyShare.Some? && m.keyShare.value.group !in st.offeredDh) || m.suite !in SUITES then
      Fail(OtherAlert)
    else
      var alg := SUITES[m.suite];
      var usingPsk := m.selectedPsk == Some(0);
      var params := st.params.(usingPsk := usingPsk, usingDh := m.keyShare.Some?, suite := m.suite);
      var dh := if m.keyShare.Some? then
                  c.agree(m.keyShare.value.group, m.keyShare.value.public, st.offeredDh[m.keyShare.value.group])
                else None;
      var early := if usingPsk then st.early else c.EarlySecret(alg, c.zero(alg));
      var secret := c.HandshakeSecret(alg, early, if dh.Some? then dh.value else c.zero(alg));
      var transcript := ToSeq(st.first) + ToSeq(st.retry) + [ClientHello(st.hello), m];
      var keys := ClientKeys(alg, params, transcript, st.cfg.certs, None, c.MasterSecret(alg, secret),
                             c.Secret(alg, secret, ClientHandshake, transcript),
                                 c.Secret(alg, secret, ServerHandshake, transcript));
      (CWaitEE(keys, st.cfg.handler), [RekeyIn(KeySet(m.suite, keys.serverHandshake))])
  }

  // ----- The rest of the server's flight -----

  function Heard(keys: ClientKeys, m: Message): ClientKeys {
    keys.(transcript := keys.transcript + [m])
  }

  function OnEncryptedExtensions(st: ClientState, m: Message): ClientResult
    requires st.CWaitEE? && m.EncryptedExtensions?
  {
    var params := st.keys.params.(usingEarlyData := m.earlyData,
                                  proto := if m.proto.Some? then m.proto.value else st.keys.params.proto);
    var keys := Heard(st.keys, m).(params := params);
    if !st.handler(m) then Fail(BadExtensions)
    else if params.usingPsk then (CWaitFinished(keys, None), [])
    else (CWaitCertCR(keys), [])
  }

  function OnCertificateOrRequest(st: ClientState, m: Message): ClientResult
    requires st.CWaitCertCR?
  {
    match m
    case Certificate(chain) => (CWaitCV(Heard(st.keys, m), None, chain), [])
    case CertificateRequest(context, _) =>
      if context != [] then
        Fail(OtherAlert)
      else
        (CWaitCert(Heard(st.keys, m).(params := st.keys.params.(usingClientAuth := true)), Some(m)), [])
    case _ => Fail(OtherAlert)
  }

  function OnCertificateVerify(c: Crypto, st: ClientState, m: Message): ClientResult
    requires st.CWaitCV? && m.CertificateVerify?
  {
    if st.chain == [] then
      Fail(Crash)
    else if !c.verify(st.chain[0], m.scheme, m.signature, c.digest(st.keys.alg, st.keys.transcript)) then
      Fail(BadSignature)
    else if !Passes(st.keys.judge, st.chain) then
      Fail(BadCertificate)
    else
      (CWaitFinished(Heard(st.keys, m), st.request), [])
  }

  // ----- The client's second flight -----

  /** The client's certificate messages, after the given transcript. */
  function CertificateFlight(c: Crypto, keys: ClientKeys, request: Option<Message>,
                             transcript: seq<Message>): Option<seq<Message>> {
    if !keys.params.usingClientAuth then
      Some([])
    else if request.None? || !request.value.CertificateRequest? || request.value.schemes.None? then
      None
    else
      match SelectCertificate(c, None, request.value.schemes.value, keys.certs)
      case None => Some([Certificate([])])
      case Some((cert, scheme)) =>
        var h := c.digest(keys.alg, transcript + [Certificate(cert.chain)]);
        Some([Certificate(cert.chain), CertificateVerify(scheme, c.sign(cert.key, scheme, h))])
  }

  function OnServerFinished(c: Crypto, st: ClientState, m: Message): ClientResult
    requires st.CWaitFinished? && m.Finished?
  {
    var keys, alg := st.keys, st.keys.alg;
    if m.verifyData != c.FinishedData(alg, keys.serverHandshake, keys.transcript) then
      Fail(BadFinished)
    else
      var t4 := keys.transcript + [m];
      var early := EndOfEarly(keys.params);
      match CertificateFlight(c, keys, st.request, t4 + early)
      case None => Fail(OtherAlert)
      case Some(certs) =>
        var t5 := t4 + early + certs;
        var finished := Finished(c.FinishedData(alg, keys.clientHandshake, t5));
        var t6 := t5 + [finished];
        var conn := Connected(keys.params, c.Secret(alg, keys.master, ClientTraffic, t4),
                              c.Secret(alg, keys.master, ServerTraffic, t4),
                              c.Secret(alg, keys.master, Exporter, t4), c.Secret(alg, keys.master, Resumption, t6));
        (CConnected(conn),
         Sends(early) + ([RekeyOut(KeySet(keys.params.suite, keys.clientHandshake))] + (Sends(certs + [finished])
         + [RekeyIn(KeySet(keys.params.suite, conn.serverTraffic)),
            RekeyOut(KeySet(keys.params.suite, conn.clientTraffic))])))
  }

  /** The reaction to the next message in every state that waits for one. */
  function ClientNext(c: Crypto, st: ClientState, m: Message): ClientResult {
    match st
    case CWaitSH(_, _, _, _, _, _, _) =>
      if m.HelloRetryRequest? then OnRetry(c, st, m)
      else if m.ServerHello? then OnServerHello(c, st, m)
      else Fail(OtherAlert)
    case CWaitEE(_, _) =>
      if m.EncryptedExtensions? then OnEncryptedExtensions(st, m) else Fail(OtherAlert)
    case CWaitCertCR(_) =>
      OnCertificateOrRequest(st, m)
    case CWaitCert(keys, request) =>
      if m.Certificate? then (CWaitCV(Heard(keys, m), request, m.chain), []) else Fail(OtherAlert)
    case CWaitCV(_, _, _) =>
      if m.CertificateVerify? then OnCertificateVerify(c, st, m) else Fail(OtherAlert)
    case CWaitFinished(_, _) =>
      if m.Finished? then OnServerFinished(c, st, m) else Fail(OtherAlert)
    case _ => (st, [])
  }
}
