/** What the secrets of a connection depend on (section 7.1 of RFC 8446), over every run. */
module TlsSecrets {
  import opened Wrappers
  import opened TlsMessages
  import opened TlsSession
  import opened TlsAgreement
  import opened TlsHandshake
  import opened TlsRuns
  import Client = TlsClient
  import Server = TlsServer

  /** Hashes and key derivations without collisions. */
  ghost predicate Injective(c: Crypto) {
    && (forall alg, alg', t, t' :: c.digest(alg, t) == c.digest(alg', t') ==> alg == alg' && t == t')
    && (forall alg, alg', s, s', k, k' :: c.extract(alg, s, k) == c.extract(alg', s', k')
                                          ==> alg == alg' && s == s' && k == k')
    && (forall alg, alg', b, b', l, l', h, h' :: c.derive(alg, b, l, h) == c.derive(alg', b', l', h')
                                                 ==> alg == alg' && b == b' && l == l' && h == h')
  }

  /** Each input is extracted under a salt that is derived from what was extracted before it. */
  ghost function Ladder(c: Crypto, alg: HashAlg, inputs: seq<Bytes>): Bytes
    requires inputs != []
    decreases |inputs|
  {
    var n := |inputs| - 1;
    var salt := if n == 0 then c.zero(alg) else c.derive(alg, Ladder(c, alg, inputs[..n]), Derived, c.digest(alg, []));
    c.extract(alg, salt, inputs[n])
  }

  lemma {:induction false} LaddersDiffer(c: Crypto, alg: HashAlg, a: seq<Bytes>, b: seq<Bytes>)
    requires Injective(c) && |a| == |b| > 0 && Ladder(c, alg, a) == Ladder(c, alg, b)
    ensures a == b
    decreases |a|
  {
    var n := |a| - 1;
    assert a == a[..n] + [a[n]] && b == b[..n] + [b[n]];
    if n > 0 {
      LaddersDiffer(c, alg, a[..n], b[..n]);
    }
  }

  // ----- What goes into a handshake, by its messages and the client's private keys -----

  function Messages(records: seq<Record>): (ms: seq<Message>)
    ensures |ms| == |records| && forall i :: 0 <= i < |ms| ==> ms[i] == records[i].message
  {
    seq(|records|, i requires 0 <= i < |records| => records[i].message)
  }

  /** The Diffie-Hellman secret of the client's private key and the share in the ServerHello; zeros without one. */
  ghost function Exchanged(c: Crypto, alg: HashAlg, keys: map<nat, Bytes>, share: Option<KeyShare>): Bytes {
    if share.Some? && share.value.group in keys
        && c.agree(share.value.group, share.value.public, keys[share.value.group]).Some? then
      c.agree(share.value.group, share.value.public, keys[share.value.group]).value
    else c.zero(alg)
  }

  /** The key that the ServerHello selects from the client's store; zeros if it selects none. */
  ghost function Preshared(c: Crypto, alg: HashAlg, cfg: Client.ClientConfig, selected: Option<nat>): Bytes {
    if selected == Some(0) && cfg.serverName in cfg.psks then cfg.psks[cfg.serverName].key else c.zero(alg)
  }

  /** A run in which the server's flight is sent at step `flight`. */
  datatype Run = Run(cfg: Client.ClientConfig, scfg: Server.ServerConfig, ss: seq<Session>, steps: seq<Step>,
                     flight: nat)
  {
    ghost predicate Ok(c: Crypto) {
      Setup(c, cfg, scfg) && IsRun(c, cfg, scfg, ss, steps) && SendsFlight(ss, steps, flight)
    }

    /** The flight is on its way, and the client waits for it. */
    ghost predicate Sent() {
      && flight + 1 < |ss| && ss[flight].client.CWaitSH? && ss[flight + 1].toClient != []
      && ss[flight + 1].toClient[0].message.ServerHello? && ss[flight + 1].toClient[0].message.suite in SUITES
    }

    ghost function ServerHello(): Message
      requires Sent()
    {
      ss[flight + 1].toClient[0].message
    }

    ghost function Alg(): HashAlg
      requires Sent()
    {
      SUITES[ServerHello().suite]
    }

    ghost function Dh(c: Crypto): Bytes
      requires Sent()
    {
      Exchanged(c, Alg(), ss[flight].client.offeredDh, ServerHello().keyShare)
    }

    ghost function Psk(c: Crypto): Bytes
      requires Sent()
    {
      Preshared(c, Alg(), cfg, ServerHello().selectedPsk)
    }

    /** The messages up to the last hello of the client. */
    ghost function Hellos(): seq<Message>
      requires Sent()
    {
      var st := ss[flight].client;
      ToSeq(st.first) + ToSeq(st.retry) + [ClientHello(st.hello)]
    }

    /** The messages up to the ServerHello. */
    ghost function ToServerHello(): seq<Message>
      requires Sent()
    {
      Hellos() + [ServerHello()]
    }

    /** The messages up to the server's Finished message. */
    ghost function ToServerFinished(): seq<Message>
      requires Sent()
    {
      Hellos() + Messages(ss[flight + 1].toClient)
    }

    /** The messages up to the client's Finished message. */
    ghost function ToClientFinished(c: Crypto): seq<Message>
      requires Sent()
    {
      var s := ss[flight + 1];
      ToServerFinished() + Messages(ClientRun(c, s.client, s.clientConn, s.toClient).sent)
    }
  }

  // ----- The secrets of a client that has heard the flight -----

  ghost predicate SecretsAre(c: Crypto, alg: HashAlg, psk: Bytes, dh: Bytes, t: seq<Message>, u: seq<Message>,
                             x: Connected) {
    var master := Ladder(c, alg, [psk, dh, c.zero(alg)]);
    && x.clientTraffic == c.derive(alg, master, ClientTraffic, c.digest(alg, t))
    && x.serverTraffic == c.derive(alg, master, ServerTraffic, c.digest(alg, t))
    && x.exporter == c.derive(alg, master, Exporter, c.digest(alg, t))
    && x.resumption == c.derive(alg, master, Resumption, c.digest(alg, u))
  }

  lemma LadderIs(c: Crypto, alg: HashAlg, psk: Bytes, dh: Bytes)
    ensures Ladder(c, alg, [psk]) == c.EarlySecret(alg, psk)
    ensures Ladder(c, alg, [psk, dh]) == c.HandshakeSecret(alg, c.EarlySecret(alg, psk), dh)
    ensures Ladder(c, alg, [psk, dh, c.zero(alg)])
            == c.MasterSecret(alg, c.HandshakeSecret(alg, c.EarlySecret(alg, psk), dh))
  {
    assert [psk, dh][..1] == [psk];
    assert [psk, dh, c.zero(alg)][..2] == [psk, dh];
  }

  /** What the server's choices put into the key schedule is what the client's messages and keys say. */
  lemma ScheduleIs(c: Crypto, scfg: Server.ServerConfig, st: Client.ClientState, neg: Server.Negotiated, random: Bytes)
    requires st.CWaitSH? && OfferOk(c, st) && NegOk(c, scfg, st, neg) && neg.params.suite in SUITES
    ensures var ks, hello := Server.KeySchedule(c, neg, random), Server.HelloOf(neg, random);
            var psk, dh := Preshared(c, ks.alg, st.cfg, hello.selectedPsk),
                           Exchanged(c, ks.alg, st.offeredDh, hello.keyShare);
            && ks.hello == hello && ks.alg == SUITES[hello.suite]
            && ks.transcript == ToSeq(st.first) + ToSeq(st.retry) + [ClientHello(st.hello), hello]
            && ks.master == Ladder(c, ks.alg, [psk, dh, c.zero(ks.alg)])
            && ks.serverHandshake
               == c.derive(ks.alg, Ladder(c, ks.alg, [psk, dh]), ServerHandshake, c.digest(ks.alg, ks.transcript))
            && ks.clientHandshake
               == c.derive(ks.alg, Ladder(c, ks.alg, [psk, dh]), ClientHandshake, c.digest(ks.alg, ks.transcript))
  {
    hide Ladder;
    var alg, hello := SUITES[neg.params.suite], Server.HelloOf(neg, random);
    LadderIs(c, alg, Preshared(c, alg, st.cfg, hello.selectedPsk), Exchanged(c, alg, st.offeredDh, hello.keyShare));
  }

  lemma MessagesOfParts(a: seq<Record>, b: seq<Record>)
    ensures Messages(a + b) == Messages(a) + Messages(b)
  {
  }

  lemma MessagesAre(keys: Option<KeySet>, ms: seq<Message>)
    ensures Messages(Records(keys, ms)) == ms
  {
  }

  /** The flight on the wire completes the transcript that both ends hash. */
  lemma FlightIsHashed(c: Crypto, scfg: Server.ServerConfig, neg: Server.Negotiated, ks: Server.Schedule,
                       hellos: seq<Message>)
    requires (neg.params.usingPsk || neg.cert.Some?) && ks.transcript == hellos + [ks.hello]
    ensures AfterFlight(c, scfg, neg, ks).transcript == hellos + Messages(FlightRecords(c, scfg, neg, ks))
  {
    var auth := ServerAuth(c, scfg, neg, ks);
    var fin := Finished(c.FinishedData(ks.alg, ks.serverHandshake, ks.transcript + [Server.Extensions(neg)] + auth));
    var keys, ms := Some(KeySet(neg.params.suite, ks.serverHandshake)), [Server.Extensions(neg)] + auth + [fin];
    MessagesOfParts([Record(None, ks.hello)], Records(keys, ms));
    MessagesAre(keys, ms);
    assert Messages([Record(None, ks.hello)]) == [ks.hello];
    assert hellos + ([ks.hello] + ms) == hellos + [ks.hello] + [Server.Extensions(neg)] + auth + [fin];
  }

  lemma SecondFlightIsHashed(keysOut: Option<KeySet>, k: Client.ClientKeys, certs: seq<Message>, finished: Message)
    ensures Messages(SecondFlight(keysOut, k, certs, finished)) == EndOfEarly(k.params) + certs + [finished]
  {
    var a, b := EndOfEarly(k.params), certs + [finished];
    var keys := Some(KeySet(k.params.suite, k.clientHandshake));
    MessagesOfParts(Records(keysOut, a), Records(keys, b));
    MessagesAre(keysOut, a);
    MessagesAre(keys, b);
  }

  lemma FlightGivesSecrets(c: Crypto, scfg: Server.ServerConfig, st: Client.ClientState, neg: Server.Negotiated,
                           random: Bytes, conn: Conn)
    requires st.CWaitSH? && Setup(c, st.cfg, scfg) && OfferOk(c, st) && NegOk(c, scfg, st, neg)
             && neg.params.suite in SUITES
    requires conn.keysIn.None? && !ClientRefuses(st.cfg, neg, random)
    ensures var ks, hello := Server.KeySchedule(c, neg, random), Server.HelloOf(neg, random);
            var flight := FlightRecords(c, scfg, neg, ks);
            var end := ClientRun(c, st, conn, flight);
            var t := ToSeq(st.first) + ToSeq(st.retry) + [ClientHello(st.hello)] + Messages(flight);
            && end.state.CConnected?
            && SecretsAre(c, SUITES[hello.suite], Preshared(c, SUITES[hello.suite], st.cfg, hello.selectedPsk),
                          Exchanged(c, SUITES[hello.suite], st.offeredDh, hello.keyShare), t, t + Messages(end.sent),
                          end.state.conn)
  {
    hide ClientRun, Setup, OfferOk, FlightRecords, SecondFlight, Ladder, Server.KeySchedule, AfterFlight, Exchanged,
         Preshared, Client.CertificateFlight;
    var ks := Server.KeySchedule(c, neg, random);
    var hellos := ToSeq(st.first) + ToSeq(st.retry) + [ClientHello(st.hello)];
    ScheduleIs(c, scfg, st, neg, random);
    assert ks.transcript == hellos + [ks.hello];
    FlightIsHashed(c, scfg, neg, ks, hellos);
    var certs, finished, x := ClientEndsConnected(c, scfg, st, neg, random, conn);
    SecondFlightIsHashed(conn.keysOut, ClientHoldsLast(c, scfg, st, neg, ks), certs, finished);
  }

  // ----- Over every run -----

  /** The client waits for the flight, and what is on its way to the client are the records of the flight. */
  lemma FlightOnItsWay(c: Crypto, r: Run)
    requires r.Ok(c)
    ensures var s, s' := r.ss[r.flight], r.ss[r.flight + 1];
            && s.server.SNegotiated? && s.client.CWaitSH? && s'.client == s.client && s'.clientConn == s.clientConn
            && SameConfig(r.cfg, s.client.cfg) && Setup(c, s.client.cfg, r.scfg) && s.clientConn.keysIn.None?
            && OfferOk(c, s.client) && NegOk(c, r.scfg, s.client, s.server.neg) && s.server.neg.params.suite in SUITES
            && (s.server.neg.params.usingPsk || s.server.neg.cert.Some?)
            && s'.toClient
               == FlightRecords(c, r.scfg, s.server.neg, Server.KeySchedule(c, s.server.neg, r.steps[r.flight].random))
  {
    hide NegOk, OfferOk, Inv, Next, Enabled, Server.KeySchedule, FlightRecords;
    var s, random := r.ss[r.flight], r.steps[r.flight].random;
    RunKeepsInv(c, r.cfg, r.scfg, r.ss, r.steps, r.flight);
    NegotiatedIsAnswering(c, r.cfg, r.scfg, s);
    assert Takes(c, s, r.steps[r.flight], r.ss[r.flight + 1]);
    SuiteIsKnown(c, s, random);
    FlightStep(c, s, random);
  }

  lemma FlightHead(c: Crypto, scfg: Server.ServerConfig, neg: Server.Negotiated, random: Bytes)
    requires (neg.params.usingPsk || neg.cert.Some?) && neg.params.suite in SUITES
    ensures var ks := Server.KeySchedule(c, neg, random);
            var records := FlightRecords(c, scfg, neg, ks);
            && |records| > 1 && records[0].message == ks.hello == Server.HelloOf(neg, random)
            && records[1].keys == Some(KeySet(neg.params.suite, ks.serverHandshake))
  {
  }

  /** The session that the flight leaves, and the client's side of the outcome. */
  lemma FlightOfRun(c: Crypto, r: Run)
    requires r.Ok(c)
    ensures r.Sent()
    ensures var s' := r.ss[r.flight + 1];
            !ClientRefuses(r.cfg, r.ss[r.flight].server.neg, r.steps[r.flight].random) ==>
              var end := ClientRun(c, s'.client, s'.clientConn, s'.toClient).state;
              && end.CConnected?
              && SecretsAre(c, r.Alg(), r.Psk(c), r.Dh(c), r.ToServerFinished(), r.ToClientFinished(c), end.conn)
  {
    hide SecretsAre, ClientRun, NegOk, OfferOk, IsRun, Setup, Exchanged, Server.KeySchedule, Messages, FlightRecords;
    var s, random := r.ss[r.flight], r.steps[r.flight].random;
    FlightOnItsWay(c, r);
    FlightHead(c, r.scfg, s.server.neg, random);
    if !ClientRefuses(r.cfg, s.server.neg, random) {
      FlightGivesSecrets(c, r.scfg, s.client, s.server.neg, random, s.clientConn);
    }
  }

  lemma SuiteIsKnown(c: Crypto, s: Session, random: Bytes)
    requires Enabled(s, ServerSends(random)) && Late(Next(c, s, ServerSends(random)).server)
    ensures var neg := s.server.neg; neg.params.suite in SUITES && (neg.params.usingPsk || neg.cert.Some?)
  {
  }

  lemma {:induction false} OutcomeStays(c: Crypto, r: Run, k: nat)
    requires r.Ok(c) && r.flight < k < |r.ss|
    ensures Outcome(c, r.ss[k]) == Outcome(c, r.ss[r.flight + 1])
  {
    hide Outcome, Next, Setup;
    if k > r.flight + 1 {
      OutcomeStays(c, r, k - 1);
      var s, step := r.ss[k - 1], r.steps[k - 1];
      FlightSettles(c, r.cfg, r.scfg, r.ss, r.steps, r.flight, k - 1);
      assert Takes(c, s, step, r.ss[k]);
      SettledIsLate(c, r.cfg, s, ClientRefuses(r.cfg, r.ss[r.flight].server.neg, r.steps[r.flight].random),
                    ServerRefuses(c, r.cfg, r.scfg, r.ss[r.flight].server.neg.params.usingPsk));
      if Late(s.server) {
        OutcomeIsStable(c, s, step);
      } else {
        FailureIsStable(c, s, step);
      }
    }
  }

  lemma SettledIsLate(c: Crypto, cfg: Client.ClientConfig, s: Session, x: bool, y: bool)
    requires Settled(c, cfg, s, x, y)
    ensures (Late(s.server) || s.server.SFailed?) && !s.client.CStart?
  {
  }

  /** One of the ends is connected and holds `x`. */
  ghost predicate Holds(s: Session, x: Connected) {
    s.client == Client.CConnected(x) || s.server == Server.SConnected(x)
  }

  lemma HeldIsOutcome(c: Crypto, cfg: Client.ClientConfig, s: Session, a: bool, b: bool, x: Connected)
    requires Settled(c, cfg, s, a, b) && Holds(s, x)
    ensures Outcome(c, s).client == Client.CConnected(x) && !a
  {
    if s.server == Server.SConnected(x) {
      ConnectedServerStays(c, s.server, s.serverConn,
                           s.toServer + ClientRun(c, s.client, s.clientConn, s.toClient).sent);
    }
  }

  /** The four secrets of a connected end, by the messages of its run, the exchanged keys and the pre-shared key. */
  lemma HeldSecrets(c: Crypto, r: Run, k: nat, x: Connected)
    requires r.Ok(c) && r.flight < k < |r.ss| && Holds(r.ss[k], x)
    ensures r.Sent() && SecretsAre(c, r.Alg(), r.Psk(c), r.Dh(c), r.ToServerFinished(), r.ToClientFinished(c), x)
  {
    hide SecretsAre, ClientRun, ServerRun, Settled, Setup, ClientRefuses, ServerRefuses;
    var neg, random := r.ss[r.flight].server.neg, r.steps[r.flight].random;
    FlightSettles(c, r.cfg, r.scfg, r.ss, r.steps, r.flight, k);
    HeldIsOutcome(c, r.cfg, r.ss[k], ClientRefuses(r.cfg, neg, random),
                  ServerRefuses(c, r.cfg, r.scfg, neg.params.usingPsk), x);
    OutcomeStays(c, r, k);
    FlightOfRun(c, r);
  }

  /** The keys of the flight and of the client's answer, by the messages up to the ServerHello. */
  lemma HandshakeKeys(c: Crypto, r: Run)
    requires r.Ok(c)
    ensures r.Sent() && |r.ss[r.flight + 1].toClient| > 1 && r.ss[r.flight + 1].toClient[1].keys.Some?
    ensures var base := Ladder(c, r.Alg(), [r.Psk(c), r.Dh(c)]);
            r.ss[r.flight + 1].toClient[1].keys.value.secret
            == c.derive(r.Alg(), base, ServerHandshake, c.digest(r.Alg(), r.ToServerHello()))
  {
    hide NegOk, OfferOk, Ladder, IsRun, Setup, Exchanged, Server.KeySchedule, FlightRecords;
    var s, random := r.ss[r.flight], r.steps[r.flight].random;
    FlightOnItsWay(c, r);
    FlightHead(c, r.scfg, s.server.neg, random);
    ScheduleIs(c, r.scfg, s.client, s.server.neg, random);
    var ks := Server.KeySchedule(c, s.server.neg, random);
    assert r.ToServerHello() == ks.transcript;
  }

  /** The early data on the wire, and its key, by the pre-shared key and the hello in front of it. */
  lemma EarlyDataKeys(c: Crypto, r: Run)
    requires r.Ok(c)
    ensures r.Sent()
    ensures if r.cfg.earlyData == [] then r.ss[r.flight].toServer == []
            else
              && r.cfg.serverName in r.cfg.psks && r.cfg.psks[r.cfg.serverName].suite in SUITES
              && var key := r.cfg.psks[r.cfg.serverName];
                 var alg, hello := SUITES[key.suite], ClientHello(r.ss[r.flight].client.hello);
                 var secret := c.derive(alg, Ladder(c, alg, [key.key]), EarlyTraffic, c.digest(alg, [hello]));
                 r.ss[r.flight].toServer == [Record(Some(KeySet(key.suite, secret)), ApplicationData(r.cfg.earlyData))]
  {
    hide Setup, NegOk, Ladder;
    FlightOfRun(c, r);
    RunKeepsInv(c, r.cfg, r.scfg, r.ss, r.steps, r.flight);
    NegotiatedIsAnswering(c, r.cfg, r.scfg, r.ss[r.flight]);
    if r.cfg.earlyData != [] {
      var key := OfferedKey(r.ss[r.flight].client);
      LadderIs(c, SUITES[key.suite], key.key, []);
    }
  }

  /** Without a pre-shared key, the server shows a certificate of its own that is for the name the client asked for. */
  lemma CertificateIsForName(c: Crypto, r: Run)
    requires r.Ok(c)
    ensures r.Sent()
    ensures r.ServerHello().selectedPsk.None? ==>
              exists cert :: && cert in r.scfg.certs && r.cfg.serverName != "" && r.cfg.serverName in cert.names
                             && Certificate(cert.chain) in Messages(r.ss[r.flight + 1].toClient)
  {
    hide IsRun, Setup, OfferOk, Server.KeySchedule, FlightRecords, Messages;
    var s, random := r.ss[r.flight], r.steps[r.flight].random;
    FlightOnItsWay(c, r);
    var ks := Server.KeySchedule(c, s.server.neg, random);
    FlightHead(c, r.scfg, s.server.neg, random);
    if !s.server.neg.params.usingPsk {
      CertificateIsSent(c, r.scfg, s.server.neg, ks);
    }
  }

  lemma CertificateIsSent(c: Crypto, scfg: Server.ServerConfig, neg: Server.Negotiated, ks: Server.Schedule)
    requires !neg.params.usingPsk && neg.cert.Some?
    ensures Certificate(neg.cert.value.0.chain) in Messages(FlightRecords(c, scfg, neg, ks))
  {
    var cert := Certificate(neg.cert.value.0.chain);
    var n := if scfg.requireClientAuth then 1 else 0;
    assert ServerAuth(c, scfg, neg, ks)[n] == cert;
    assert Messages(FlightRecords(c, scfg, neg, ks))[n + 2] == cert;
  }

  /** Two runs with the same hash function, pre-shared key, Diffie-Hellman secret and messages up to a point. */
  ghost predicate SameInputs(c: Crypto, r: Run, r': Run, t: seq<Message>, t': seq<Message>)
    requires r.Sent() && r'.Sent()
  {
    r.Alg() == r'.Alg() && r.Psk(c) == r'.Psk(c) && r.Dh(c) == r'.Dh(c) && t == t'
  }

  lemma DerivedIff(c: Crypto, r: Run, r': Run, purpose: Label, t: seq<Message>, t': seq<Message>)
    requires Injective(c) && r.Sent() && r'.Sent()
    ensures var a, a' := r.Alg(), r'.Alg();
            c.derive(a, Ladder(c, a, [r.Psk(c), r.Dh(c), c.zero(a)]), purpose, c.digest(a, t))
            == c.derive(a', Ladder(c, a', [r'.Psk(c), r'.Dh(c), c.zero(a')]), purpose, c.digest(a', t'))
            <==> SameInputs(c, r, r', t, t')
  {
    hide Ladder;
    var a := r.Alg();
    var in1, in2 := [r.Psk(c), r.Dh(c), c.zero(a)], [r'.Psk(c), r'.Dh(c), c.zero(a)];
    if a == r'.Alg() && Ladder(c, a, in1) == Ladder(c, a, in2) {
      LaddersDiffer(c, a, in1, in2);
      assert in1[0] == in2[0] && in1[1] == in2[1];
    }
  }

  /**
   Without collisions, connected ends of any two runs hold the same secret for a purpose if and only if the runs have
   the same pre-shared key, Diffie-Hellman secret and messages; secrets for different purposes always differ.
   */
  lemma SecretsDependOnAll(c: Crypto, r: Run, k: nat, x: Connected, r': Run, k': nat, x': Connected)
    requires Injective(c)
    requires r.Ok(c) && r.flight < k < |r.ss| && Holds(r.ss[k], x)
    requires r'.Ok(c) && r'.flight < k' < |r'.ss| && Holds(r'.ss[k'], x')
    ensures r.Sent() && r'.Sent()
    ensures x.clientTraffic == x'.clientTraffic <==>
            SameInputs(c, r, r', r.ToServerFinished(), r'.ToServerFinished())
    ensures x.serverTraffic == x'.serverTraffic <==>
            SameInputs(c, r, r', r.ToServerFinished(), r'.ToServerFinished())
    ensures x.exporter == x'.exporter <==> SameInputs(c, r, r', r.ToServerFinished(), r'.ToServerFinished())
    ensures x.resumption == x'.resumption <==>
            SameInputs(c, r, r', r.ToClientFinished(c), r'.ToClientFinished(c))
    ensures x.clientTraffic !in {x'.serverTraffic, x'.exporter, x'.resumption}
    ensures x.serverTraffic !in {x'.exporter, x'.resumption} && x.exporter != x'.resumption
  {
    hide Ladder, Holds, Messages, ClientRun, SameInputs, Exchanged, Preshared, Setup, IsRun, SendsFlight;
    HeldSecrets(c, r, k, x);
    HeldSecrets(c, r', k', x');
    DerivedIff(c, r, r', ClientTraffic, r.ToServerFinished(), r'.ToServerFinished());
    DerivedIff(c, r, r', ServerTraffic, r.ToServerFinished(), r'.ToServerFinished());
    DerivedIff(c, r, r', Exporter, r.ToServerFinished(), r'.ToServerFinished());
    DerivedIff(c, r, r', Resumption, r.ToClientFinished(c), r'.ToClientFinished(c));
  }

  // ----- Nobody is connected without the flight -----

  /** The server has not sent its flight, and what the client can have to read is a request to try again. */
  ghost predicate BeforeFlight(s: Session) {
    && (s.client.CStart? || s.client.CWaitSH? || s.client.CFailed?)
    && (s.server.SStart? || s.server.SNegotiated? || s.server.SFailed?)
    && forall i :: 0 <= i < |s.toClient| ==> s.toClient[i].message.HelloRetryRequest?
  }

  lemma HelloIsAnswered(c: Crypto, cfg: Server.ServerConfig, hello: Hello, input: Server.ServerInput, conn: Conn)
    ensures var (next, actions) := Server.OnClientHello(c, cfg, hello, input);
            && (next.SStart? || next.SNegotiated? || next.SFailed?)
            && forall i :: 0 <= i < |Written(conn, actions)| ==> Written(conn, actions)[i].message.HelloRetryRequest?
  {
    hide Server.Negotiate, Server.NegotiateSuite, Server.ChoosePsk, Server.OpenCookie;
    var (next, actions) := Server.OnClientHello(c, cfg, hello, input);
    NegotiationIsQuiet(c, cfg, hello, input);
    if actions != [] {
      OneAction(conn, actions[0]);
      assert actions == [actions[0]];
    }
  }

  lemma NegotiationIsQuiet(c: Crypto, cfg: Server.ServerConfig, hello: Hello, input: Server.ServerInput)
    ensures forall cookie, choice: Server.PskChoice, suite ::
              !choice.PskError? ==>
                var r := Server.Negotiate(c, cfg, hello, cookie, choice, suite, input);
                (r.0.SNegotiated? || r.0.SFailed?) && r.1 == []
  {
  }

  lemma StepBeforeFlight(c: Crypto, s: Session, step: Step)
    requires BeforeFlight(s) && Enabled(s, step)
    ensures var s' := Next(c, s, step);
            BeforeFlight(s') || (step.ServerSends? && s.server.SNegotiated? && Late(s'.server))
  {
    match step
    case ClientStarts(_, _) =>
    case ClientReceives =>
    case ServerAbsorbs =>
    case ServerReceives(input) =>
      if s.toServer[0].message.ClientHello? {
        HelloIsAnswered(c, s.server.cfg, s.toServer[0].message.hello, input, s.serverConn.(reading := Strict));
      }
    case ServerSends(_) =>
    case ServerTurns =>
  }

  /** An end that is connected has got there through a flight of the server. */
  lemma {:induction false} ConnectedHasFlight(c: Crypto, cfg: Client.ClientConfig, scfg: Server.ServerConfig,
                                              ss: seq<Session>, steps: seq<Step>, k: nat)
    requires IsRun(c, cfg, scfg, ss, steps) && k < |ss|
    ensures BeforeFlight(ss[k]) || exists j: nat :: j < k && SendsFlight(ss, steps, j)
  {
    hide Next, Enabled, BeforeFlight;
    if k == 0 {
      assert BeforeFlight(Fresh(cfg, scfg)) by {
        NothingSent(cfg, scfg);
      }
    } else {
      ConnectedHasFlight(c, cfg, scfg, ss, steps, k - 1);
      if BeforeFlight(ss[k - 1]) {
        assert Takes(c, ss[k - 1], steps[k - 1], ss[k]);
        StepBeforeFlight(c, ss[k - 1], steps[k - 1]);
        assert BeforeFlight(ss[k]) || SendsFlight(ss, steps, k - 1);
      }
    }
  }

  lemma NothingSent(cfg: Client.ClientConfig, scfg: Server.ServerConfig)
    ensures BeforeFlight(Fresh(cfg, scfg))
  {
  }

  // ----- The hellos of a run -----

  /** Step `a` is a start of the client, which then waits with the hello it has sent. */
  ghost predicate Starts(ss: seq<Session>, steps: seq<Step>, a: nat) {
    a < |steps| && a + 1 < |ss| && steps[a].ClientStarts? && ss[a + 1].client.CWaitSH?
  }

  ghost predicate WaitsSince(ss: seq<Session>, steps: seq<Step>, a: nat, k: nat) {
    a < k < |ss| && Starts(ss, steps, a) && ss[k].client == ss[a + 1].client
  }

  /** The client was told at `b` to try again with the hello it had sent at `a`. */
  ghost predicate ToldToRetry(c: Crypto, ss: seq<Session>, steps: seq<Step>, a: nat, b: nat, first: Option<Message>,
                              retry: Option<Message>) {
    && WaitsSince(ss, steps, a, b) && ss[b].toClient != [] && retry == Some(ss[b].toClient[0].message)
    && retry.value.HelloRetryRequest? && retry.value.suite in SUITES
    && first == Some(MessageHash(c.digest(SUITES[retry.value.suite], [ClientHello(ss[a + 1].client.hello)])))
  }

  ghost predicate HistoryIs(c: Crypto, ss: seq<Session>, steps: seq<Step>, k: nat)
    requires k < |ss|
  {
    var st := ss[k].client;
    && (st.CWaitSH? ==> exists a: nat :: WaitsSince(ss, steps, a, k))
    && (st.CWaitSH? || st.CStart? ==>
          || (st.first.None? && st.retry.None?)
          || exists a: nat, b: nat :: b < k && ToldToRetry(c, ss, steps, a, b, st.first, st.retry))
  }

  lemma ClientStarting(c: Crypto, st: Client.ClientState, random: Bytes, priv: nat -> Bytes)
    requires st.CStart?
    ensures var st' := Client.ClientStart(c, st, random, priv).0;
            st'.CFailed? || (st'.CWaitSH? && st'.first == st.first && st'.retry == st.retry)
  {
  }

  lemma ClientReading(c: Crypto, st: Client.ClientState, conn: Conn, r: Record)
    requires ClientWaits(st)
    ensures var st' := ClientReads(c, st, conn, r).0;
            && !st'.CWaitSH?
            && (st'.CStart? ==>
                  && st.CWaitSH? && r.message.HelloRetryRequest? && r.message.suite in SUITES
                  && st'.first == Some(MessageHash(c.digest(SUITES[r.message.suite], [ClientHello(st.hello)])))
                  && st'.retry == Some(r.message))
  {
  }

  lemma {:induction false} RunHasHistory(c: Crypto, cfg: Client.ClientConfig, scfg: Server.ServerConfig,
                                         ss: seq<Session>, steps: seq<Step>, k: nat)
    requires IsRun(c, cfg, scfg, ss, steps) && k < |ss|
    ensures HistoryIs(c, ss, steps, k)
  {
    hide Client.ClientStart, ClientReads, ServerReads, Server.FirstFlight, Absorbed, Server.AwaitFlight2;
    if k > 0 {
      RunHasHistory(c, cfg, scfg, ss, steps, k - 1);
      var s, step := ss[k - 1], steps[k - 1];
      assert Takes(c, s, step, ss[k]);
      match step
      case ClientStarts(random, priv) =>
        ClientStarting(c, s.client, random, priv);
        if ss[k].client.CWaitSH? {
          assert WaitsSince(ss, steps, k - 1, k);
        }
      case ClientReceives =>
        ClientReading(c, s.client, s.clientConn, s.toClient[0]);
        if ss[k].client.CStart? {
          var a: nat :| WaitsSince(ss, steps, a, k - 1);
          assert ToldToRetry(c, ss, steps, a, k - 1, ss[k].client.first, ss[k].client.retry);
        }
      case _ =>
        assert ss[k].client == s.client;
        if s.client.CWaitSH? {
          var a: nat :| WaitsSince(ss, steps, a, k - 1);
          assert WaitsSince(ss, steps, a, k);
        }
    }
  }

  /**
   What is hashed in front of the ServerHello: the client's hello, or the hash of its first hello, the request to try
   again and its second hello.
   */
  lemma HellosAre(c: Crypto, r: Run)
    requires r.Ok(c)
    ensures r.Sent() && exists a: nat :: Starts(r.ss, r.steps, a) && a < r.flight &&
                                         var hello := ClientHello(r.ss[a + 1].client.hello);
                                         || r.Hellos() == [hello]
                                         || HellosWithRetry(c, r, hello)
  {
    hide ToldToRetry, Setup, IsRun;
    FlightOfRun(c, r);
    RunHasHistory(c, r.cfg, r.scfg, r.ss, r.steps, r.flight);
    var st := r.ss[r.flight].client;
    var a: nat :| WaitsSince(r.ss, r.steps, a, r.flight);
    assert Starts(r.ss, r.steps, a);
    if st.first.Some? || st.retry.Some? {
      RetryIsHashed(c, r);
    }
  }

  /** The hash of a first hello and the request that answered it stand in front of the last hello. */
  ghost predicate HellosWithRetry(c: Crypto, r: Run, hello: Message)
    requires r.Sent()
  {
    exists a: nat, b: nat ::
      && WaitsSince(r.ss, r.steps, a, b) && b < r.flight && r.ss[b].toClient != []
      && var m := r.ss[b].toClient[0].message;
         m.HelloRetryRequest? && m.suite in SUITES
         && r.Hellos() == [MessageHash(c.digest(SUITES[m.suite], [ClientHello(r.ss[a + 1].client.hello)])), m, hello]
  }

  lemma RetryIsHashed(c: Crypto, r: Run)
    requires r.Sent() && HistoryIs(c, r.ss, r.steps, r.flight)
    requires r.ss[r.flight].client.first.Some? || r.ss[r.flight].client.retry.Some?
    ensures HellosWithRetry(c, r, ClientHello(r.ss[r.flight].client.hello))
  {
    var st := r.ss[r.flight].client;
    var a: nat, b: nat :| b < r.flight && ToldToRetry(c, r.ss, r.steps, a, b, st.first, st.retry);
    assert [st.first.value] + [st.retry.value] + [ClientHello(st.hello)]
           == [st.first.value, st.retry.value, ClientHello(st.hello)];
  }
}
