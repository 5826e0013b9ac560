/**
 Every run of a client and a server: how a session gets to the server's flight, and what holds from
 there on in every order of steps.
 */
module TlsHandshake {
  import opened Wrappers
  import opened Sequences
  import opened TlsMessages
  import opened TlsSession
  import opened TlsAgreement
  import Client = TlsClient
  import Server = TlsServer

  /** The key under an identity is the same on both sides. */
  ghost predicate Shared(cfg: Client.ClientConfig, scfg: Server.ServerConfig) {
    cfg.serverName in cfg.psks ==>
      var key := cfg.psks[cfg.serverName];
      key.identity in scfg.psks ==> scfg.psks[key.identity].key == key.key && scfg.psks[key.identity].suite == key.suite
  }

  /** What the two ends and the cryptography are assumed to be. */
  ghost predicate Setup(c: Crypto, cfg: Client.ClientConfig, scfg: Server.ServerConfig) {
    && c.Agrees() && c.Opens() && c.Separates()
    && Distinct(cfg.groups) && Shared(cfg, scfg)
    && (forall cert :: cert in cfg.certs || cert in scfg.certs ==> c.Signs(cert))
  }

  // ----- The client's offer -----

  function OfferedKey(st: Client.ClientState): Psk
    requires st.CWaitSH? && st.cfg.serverName in st.cfg.psks
  {
    st.cfg.psks[st.cfg.serverName]
  }

  ghost predicate SharesOk(c: Crypto, shares: seq<KeyShare>, keys: map<nat, Bytes>) {
    forall i :: 0 <= i < |shares| ==>
      shares[i].group in keys && c.public(shares[i].group, keys[shares[i].group]) == Some(shares[i].public)
  }

  /** The hello of a waiting client matches what the client remembers. */
  ghost predicate OfferOk(c: Crypto, st: Client.ClientState)
    requires st.CWaitSH?
  {
    var h := st.hello;
    && (forall x :: x in h.suites ==> x in st.cfg.suites)
    && SharesOk(c, h.keyShares, st.offeredDh)
    && h.serverName == Some(st.cfg.serverName)
    && h.earlyData == (st.cfg.earlyData != [])
    && st.params == NO_PARAMS.(serverName := st.cfg.serverName, sendingEarlyData := h.earlyData)
    && (h.psk.None? ==> !h.earlyData)
    && (h.psk.Some? ==>
          && st.cfg.serverName in st.cfg.psks && OfferedKey(st).suite in SUITES
          && h.psk.value.identities == [OfferedKey(st).identity]
          && h.psk.value.binders == [c.Binder(SUITES[OfferedKey(st).suite], OfferedKey(st), [Truncation(h)])]
          && st.early == c.EarlySecret(SUITES[OfferedKey(st).suite], OfferedKey(st).key))
  }

  /** The keys of the early data. */
  function EarlyKeys(c: Crypto, st: Client.ClientState): KeySet
    requires st.CWaitSH? && st.cfg.serverName in st.cfg.psks && OfferedKey(st).suite in SUITES
  {
    KeySet(OfferedKey(st).suite,
           c.Secret(SUITES[OfferedKey(st).suite], st.early, EarlyTraffic, [ClientHello(st.hello)]))
  }

  /** The early data that follows the hello. */
  ghost function EarlyRecords(c: Crypto, st: Client.ClientState): seq<Record>
    requires st.CWaitSH? && OfferOk(c, st)
  {
    if st.cfg.earlyData == [] then [] else [Record(Some(EarlyKeys(c, st)), ApplicationData(st.cfg.earlyData))]
  }

  ghost function WaitingConn(c: Crypto, st: Client.ClientState): Conn
    requires st.CWaitSH? && OfferOk(c, st)
  {
    FRESH.(keysOut := if st.cfg.earlyData == [] then None else Some(EarlyKeys(c, st)))
  }

  /** The shares are the public keys in order. */
  ghost predicate InOrder(c: Crypto, groups: seq<nat>, priv: nat -> Bytes, i: nat, shares: seq<KeyShare>) {
    && i + |shares| == |groups|
    && forall k :: 0 <= k < |shares| ==> shares[k].group == groups[i + k]
                                         && Some(shares[k].public) == c.public(groups[i + k], priv(i + k))
  }

  ghost predicate KeyOf(groups: seq<nat>, priv: nat -> Bytes, k: nat, g: nat, key: Bytes) {
    k < |groups| && groups[k] == g && key == priv(k)
  }

  lemma {:induction false} SharesInOrder(c: Crypto, groups: seq<nat>, priv: nat -> Bytes, i: nat)
    requires i <= |groups|
    ensures var r := Client.Shares(c, groups, priv, i); r.Some? ==> InOrder(c, groups, priv, i, r.value.0)
    decreases |groups| - i
  {
    if i < |groups| {
      SharesInOrder(c, groups, priv, i + 1);
      var r, rest := Client.Shares(c, groups, priv, i), Client.Shares(c, groups, priv, i + 1);
      if r.Some? {
        assert forall k :: 1 <= k < |r.value.0| ==> r.value.0[k] == rest.value.0[k - 1] && (i + 1) + (k - 1) == i + k;
      }
    }
  }

  /** Each group has a private key, which belongs to one of its shares. */
  lemma {:induction false} SharesHaveKeys(c: Crypto, groups: seq<nat>, priv: nat -> Bytes, i: nat, g: nat)
    requires i <= |groups|
    ensures var r := Client.Shares(c, groups, priv, i);
            r.Some? ==>
              && (g in groups[i..] ==> g in r.value.1)
              && (g in r.value.1 ==> exists k: nat :: KeyOf(groups, priv, k, g, r.value.1[g]))
    decreases |groups| - i
  {
    if i < |groups| {
      SharesHaveKeys(c, groups, priv, i + 1, g);
      assert groups[i..] == [groups[i]] + groups[i + 1..];
      assert KeyOf(groups, priv, i, groups[i], priv(i));
    }
  }

  ghost predicate SameKeys(c: Crypto, groups: seq<nat>, priv: nat -> Bytes, i: nat, j: nat)
    requires i < |groups| && j < |groups|
  {
    groups[i] == groups[j] ==> c.public(groups[i], priv(i)) == c.public(groups[j], priv(j))
  }

  /** A server can use every share, unless a group is offered twice with different keys. */
  lemma SharesOkIff(c: Crypto, groups: seq<nat>, priv: nat -> Bytes)
    requires Client.Shares(c, groups, priv, 0).Some?
    ensures SharesOk(c, Client.Shares(c, groups, priv, 0).value.0, Client.Shares(c, groups, priv, 0).value.1)
            <==> forall i, j :: 0 <= i < |groups| && 0 <= j < |groups| ==> SameKeys(c, groups, priv, i, j)
  {
    var (shares, keys) := Client.Shares(c, groups, priv, 0).value;
    SharesInOrder(c, groups, priv, 0);
    if forall i, j :: 0 <= i < |groups| && 0 <= j < |groups| ==> SameKeys(c, groups, priv, i, j) {
      forall i | 0 <= i < |shares|
        ensures shares[i].group in keys && c.public(shares[i].group, keys[shares[i].group]) == Some(shares[i].public)
      {
        SharesHaveKeys(c, groups, priv, 0, groups[i]);
        assert groups[0..] == groups;
        var k: nat :| KeyOf(groups, priv, k, groups[i], keys[groups[i]]);
        assert SameKeys(c, groups, priv, i, k);
      }
    } else {
      var i, j :| 0 <= i < |groups| && 0 <= j < |groups| && !SameKeys(c, groups, priv, i, j);
      assert shares[i].group == shares[j].group && shares[i].public != shares[j].public;
    }
  }

  lemma {:induction false} WithHashIsPart(suites: seq<nat>, alg: HashAlg)
    ensures forall x :: x in Client.WithHash(suites, alg) ==> x in suites
  {
    if suites != [] {
      WithHashIsPart(suites[1..], alg);
    }
  }

  lemma ActFirst(conn: Conn, a: Action, rest: seq<Action>)
    ensures ActAll(conn, [a] + rest) == ActAll(Act(conn, a), rest)
    ensures Written(conn, [a] + rest) == (if a.Send? then [Record(conn.keysOut, a.message)] else [])
            + Written(Act(conn, a), rest)
  {
    assert ([a] + rest)[1..] == rest;
  }

  /** Starting puts the hello, and the early data behind it, on the wire. */
  lemma StartOffers(c: Crypto, st: Client.ClientState, conn: Conn, random: Bytes, priv: nat -> Bytes)
    requires st.CStart? && Distinct(st.cfg.groups) && conn == FRESH
    ensures var (next, actions) := Client.ClientStart(c, st, random, priv);
            && (next.CWaitSH? || next.CFailed?)
            && (next.CWaitSH? ==>
                  && OfferOk(c, next) && next.cfg == st.cfg && next.first == st.first && next.retry == st.retry
                  && next.hello.cookie == (if st.cookie.Some? then st.cookie.value else [])
                  && ActAll(conn, actions) == WaitingConn(c, next)
                  && Written(conn, actions) == [Record(None, ClientHello(next.hello))] + EarlyRecords(c, next))
  {
    if Client.Shares(c, st.cfg.groups, priv, 0).Some? {
      SharesOkIff(c, st.cfg.groups, priv);
    }
    if Client.Shares(c, st.cfg.groups, priv, 0).Some? && st.cfg.serverName in st.cfg.psks
        && st.cfg.psks[st.cfg.serverName].suite in SUITES {
      WithHashIsPart(st.cfg.suites, SUITES[st.cfg.psks[st.cfg.serverName].suite]);
      var (next, actions) := Client.ClientStart(c, st, random, priv);
      if next.CWaitSH? {
        ActFirst(conn, actions[0], actions[1..]);
        if st.cfg.earlyData != [] {
          assert actions[1..] == [actions[1]] + [actions[2]];
          ActFirst(conn, actions[1], [actions[2]]);
        }
        assert actions == [actions[0]] + actions[1..];
      }
    }
  }

  // ----- The server's negotiation -----

  /** The client's second hello carries the cookie of the server's retry, and both remember the same first hello. */
  ghost predicate Retried(c: Crypto, scfg: Server.ServerConfig, first: Option<Message>, retry: Option<Message>,
                          cookie: Bytes) {
    && scfg.requireCookie && cookie != []
    && c.open(cookie).Some? && c.open(cookie).value.suite in SUITES
    && first == Some(MessageHash(c.open(cookie).value.helloDigest))
    && retry == Some(Server.Retry(c.open(cookie).value.suite, cookie))
  }

  ghost predicate HistoryOk(c: Crypto, scfg: Server.ServerConfig, st: Client.ClientState)
    requires st.CWaitSH?
  {
    || (st.first.None? && st.retry.None? && st.hello.cookie == [])
    || Retried(c, scfg, st.first, st.retry, st.hello.cookie)
  }

  /** The server's choices fit the waiting client. */
  ghost predicate NegOk(c: Crypto, scfg: Server.ServerConfig, st: Client.ClientState, neg: Server.Negotiated)
    requires st.CWaitSH? && OfferOk(c, st)
  {
    var p := neg.params;
    && neg.hello == st.hello && neg.first == st.first && neg.retry == st.retry
    && p.suite in st.cfg.suites
    && !p.usingClientAuth && p.sendingEarlyData == st.hello.earlyData && p.serverName == st.cfg.serverName
    && (if p.usingPsk then
          st.hello.psk.Some? && neg.selectedPsk == 0 && neg.pskSecret == OfferedKey(st).key
              && p.suite == OfferedKey(st).suite
        else
          && neg.cert.Some? && neg.cert.value.0 in scfg.certs && c.usable(neg.cert.value.1, neg.cert.value.0.key)
          && Carries(neg.cert.value.0, Some(st.cfg.serverName)))
    && (if p.usingDh then
          && neg.share.Some? && neg.dhSecret.Some? && neg.share.value.group in st.offeredDh
          && neg.dhSecret == c.agree(neg.share.value.group, neg.share.value.public, st.offeredDh[neg.share.value.group])
        else neg.dhSecret.None?)
    && (p.usingEarlyData ==> p.usingPsk && st.hello.earlyData && KeySet(p.suite, neg.earlyTraffic) == EarlyKeys(c, st))
  }

  lemma {:induction false} DhAgrees(c: Crypto, shares: seq<KeyShare>, keys: map<nat, Bytes>, groups: seq<nat>,
                                    priv: nat -> Bytes, i: nat)
    requires c.Agrees() && SharesOk(c, shares, keys) && i <= |shares|
    ensures var r := Server.NegotiateDh(c, shares, groups, priv, i);
            r.Some? ==> r.value.0.group in keys
                        && c.agree(r.value.0.group, r.value.0.public, keys[r.value.0.group]) == Some(r.value.1)
    decreases |shares| - i
  {
    if i < |shares| {
      DhAgrees(c, shares, keys, groups, priv, i + 1);
    }
  }

  /** A client offers one key only, so a chosen key is the client's. */
  lemma PskIsOffered(c: Crypto, scfg: Server.ServerConfig, st: Client.ClientState, cookie: Option<Cookie>,
                     input: Server.ServerInput)
    requires st.CWaitSH? && OfferOk(c, st) && Shared(st.cfg, scfg)
    ensures var choice := Server.ChoosePsk(c, scfg, st.hello, cookie, input);
            choice.PskChosen? ==>
              && st.hello.psk.Some? && choice.index == 0 && choice.psk.key == OfferedKey(st).key
              && choice.psk.suite == OfferedKey(st).suite
              && choice.alg == SUITES[OfferedKey(st).suite]
  {
    if st.hello.psk.Some? {
      var base := if cookie.Some? then [MessageHash(cookie.value.helloDigest), Server.Retry(0, st.hello.cookie)]
                  else [];
      assert Server.NegotiatePsk(c, st.hello.psk.value, base + [Truncation(st.hello)], scfg.psks, input.ageOk,
                                 1).PskNone?;
    }
  }

  lemma NegotiationFits(c: Crypto, scfg: Server.ServerConfig, st: Client.ClientState, input: Server.ServerInput)
    requires st.CWaitSH? && Setup(c, st.cfg, scfg) && OfferOk(c, st) && HistoryOk(c, scfg, st)
    ensures var (next, actions) := Server.OnClientHello(c, scfg, st.hello, input);
            || next.SFailed?
            || (next.SNegotiated? && next.cfg == scfg && actions == [] && NegOk(c, scfg, st, next.neg))
            || (next == Server.SStart(scfg) && st.first.None? && st.retry.None? && scfg.requireCookie
                && exists suite: nat, cookie: Bytes ::
                     && actions == [Send(Server.Retry(suite, cookie))] && cookie != [] && suite in SUITES
                     && c.open(cookie).Some?
                     && c.open(cookie).value.suite == suite
                     && c.open(cookie).value.helloDigest == c.digest(SUITES[suite], [ClientHello(st.hello)]))
  {
    hide Server.ChoosePsk, Server.Negotiate, Server.NegotiateSuite, NegOk;
    var cookie := Server.OpenCookie(c, st.hello, input);
    if cookie.Some? {
      var choice := Server.ChoosePsk(c, scfg, st.hello, cookie.value, input);
      var psk := if choice.PskChosen? then Some(choice.psk) else None;
      var suite := Server.NegotiateSuite(psk, st.hello.suites, scfg.suites);
      PskIsOffered(c, scfg, st, cookie.value, input);
      if !choice.PskError? && suite.Some? && (cookie.value.Some? ==> cookie.value.value.suite == suite.value) {
        NegotiateFits(c, scfg, st, cookie.value, choice, suite.value, input);
      }
    }
  }

  lemma NegotiateFits(c: Crypto, scfg: Server.ServerConfig, st: Client.ClientState, cookie: Option<Cookie>,
                      choice: Server.PskChoice, suite: nat, input: Server.ServerInput)
    requires st.CWaitSH? && c.Agrees() && OfferOk(c, st) && HistoryOk(c, scfg, st) && !choice.PskError?
    requires Server.OpenCookie(c, st.hello, input) == Some(cookie) && (cookie.Some? ==> cookie.value.suite == suite)
    requires suite in st.hello.suites && (choice.PskChosen? ==> suite == choice.psk.suite)
    requires choice.PskChosen? ==>
               && st.hello.psk.Some? && choice.index == 0 && choice.psk.key == OfferedKey(st).key
               && choice.psk.suite == OfferedKey(st).suite && choice.alg == SUITES[OfferedKey(st).suite]
    ensures var (next, actions) := Server.Negotiate(c, scfg, st.hello, cookie, choice, suite, input);
            next.SFailed? || (next.SNegotiated? && next.cfg == scfg && actions == [] && NegOk(c, scfg, st, next.neg))
  {
    hide Server.NegotiateDh;
    DhAgrees(c, st.hello.keyShares, st.offeredDh, scfg.groups, input.priv, 0);
  }

  /**
   The client's second binder leaves out the first hello and the retry, which the server's includes. So
   a server never accepts a second hello that offers a pre-shared key, unless binders collide.
   */
  lemma RetryRejectsPsk(c: Crypto, scfg: Server.ServerConfig, st: Client.ClientState, input: Server.ServerInput)
    requires st.CWaitSH? && OfferOk(c, st) && Retried(c, scfg, st.first, st.retry, st.hello.cookie)
             && st.hello.psk.Some?
    requires c.Binds()
    ensures Server.OnClientHello(c, scfg, st.hello, input).0.SFailed?
  {
    var cookie := Server.OpenCookie(c, st.hello, input);
    if cookie.Some? {
      var offer := st.hello.psk.value;
      var base := [MessageHash(cookie.value.value.helloDigest), Server.Retry(0, st.hello.cookie)];
      assert |base + [Truncation(st.hello)]| == 3;
      assert Server.NegotiatePsk(c, offer, base + [Truncation(st.hello)], scfg.psks, input.ageOk, 1).PskNone?;
      assert !Server.NegotiatePsk(c, offer, base + [Truncation(st.hello)], scfg.psks, input.ageOk, 0).PskChosen?;
    }
  }

  // ----- The client hears the server's flight -----

  /** What the client holds after the ServerHello. */
  ghost function ClientHolds(st: Client.ClientState, neg: Server.Negotiated, ks: Server.Schedule): Client.ClientKeys
    requires st.CWaitSH?
  {
    Client.ClientKeys(ks.alg, st.params.(usingPsk := neg.params.usingPsk, usingDh := neg.params.usingDh,
                                         suite := neg.params.suite),
                      ks.transcript, st.cfg.certs, None, ks.master, ks.clientHandshake, ks.serverHandshake)
  }

  lemma HelloIsHeard(c: Crypto, scfg: Server.ServerConfig, st: Client.ClientState, neg: Server.Negotiated,
                     random: Bytes)
    requires st.CWaitSH? && OfferOk(c, st) && NegOk(c, scfg, st, neg) && neg.params.suite in SUITES
    requires st.cfg.handler(Server.HelloOf(neg, random))
    ensures var ks := Server.KeySchedule(c, neg, random);
            Client.OnServerHello(c, st, ks.hello)
            == (Client.CWaitEE(ClientHolds(st, neg, ks), st.cfg.handler),
                [RekeyIn(KeySet(neg.params.suite, ks.serverHandshake))])
  {
  }

  /** A message that makes the client go on without an answer. */
  lemma QuietStep(c: Crypto, st: Client.ClientState, conn: Conn, m: Message, ms: seq<Message>, next: Client.ClientState)
    requires ClientWaits(st) && !m.ApplicationData? && Client.ClientNext(c, st, m) == (next, [])
    ensures ClientRun(c, st, conn, Records(conn.keysIn, [m] + ms)) == ClientRun(c, next, conn, Records(conn.keysIn, ms))
  {
    assert Records(conn.keysIn, [m] + ms)[1..] == Records(conn.keysIn, ms);
    var rest := ClientRun(c, next, conn, Records(conn.keysIn, ms));
    assert [] + rest.sent == rest.sent;
  }

  ghost function ServerAuth(c: Crypto, scfg: Server.ServerConfig, neg: Server.Negotiated,
                            ks: Server.Schedule): seq<Message>
    requires neg.params.usingPsk || neg.cert.Some?
  {
    if neg.params.usingPsk then []
        else Server.AuthFlight(c, ks.alg, scfg, neg.cert.value, ks.transcript + [Server.Extensions(neg)])
  }

  /** What the client holds when it waits for the server's Finished message. */
  ghost function ClientHoldsLast(c: Crypto, scfg: Server.ServerConfig, st: Client.ClientState, neg: Server.Negotiated,
                                 ks: Server.Schedule): Client.ClientKeys
    requires st.CWaitSH? && (neg.params.usingPsk || neg.cert.Some?)
  {
    ClientHolds(st, neg, ks).(
      params := neg.params.(usingClientAuth := !neg.params.usingPsk && scfg.requireClientAuth),
      transcript := ks.transcript + [Server.Extensions(neg)] + ServerAuth(c, scfg, neg, ks))
  }

  ghost function RequestOf(scfg: Server.ServerConfig, neg: Server.Negotiated): Option<Message> {
    if !neg.params.usingPsk && scfg.requireClientAuth then Some(CertificateRequest([], Some(scfg.schemes))) else None
  }

  lemma ExtensionsAreHeard(c: Crypto, st: Client.ClientState, scfg: Server.ServerConfig, neg: Server.Negotiated,
                           ks: Server.Schedule, conn: Conn, ms: seq<Message>)
    requires st.CWaitSH? && OfferOk(c, st) && NegOk(c, scfg, st, neg) && st.cfg.handler(Server.Extensions(neg))
    ensures var k := ClientHolds(st, neg, ks).(params := neg.params, transcript := ks.transcript
                                               + [Server.Extensions(neg)]);
            ClientRun(c, Client.CWaitEE(ClientHolds(st, neg, ks), st.cfg.handler), conn,
                      Records(conn.keysIn, [Server.Extensions(neg)] + ms))
            == ClientRun(c, if neg.params.usingPsk then Client.CWaitFinished(k, None) else Client.CWaitCertCR(k), conn,
                         Records(conn.keysIn, ms))
  {
    var k := ClientHolds(st, neg, ks).(params := neg.params, transcript := ks.transcript + [Server.Extensions(neg)]);
    var next := if neg.params.usingPsk then Client.CWaitFinished(k, None) else Client.CWaitCertCR(k);
    QuietStep(c, Client.CWaitEE(ClientHolds(st, neg, ks), st.cfg.handler), conn, Server.Extensions(neg), ms, next);
  }

  lemma CertificateIsHeard(c: Crypto, before: Client.ClientState, request: Option<Message>, cert: (Cert, nat),
                           conn: Conn, ms: seq<Message>)
    requires (before.CWaitCert? && before.request == request) || (before.CWaitCertCR? && request.None?)
    requires c.Signs(cert.0) && c.usable(cert.1, cert.0.key) && before.keys.judge.None?
    ensures var k, certificate := before.keys, Certificate(cert.0.chain);
            var h := c.digest(k.alg, k.transcript + [certificate]);
            var verify := CertificateVerify(cert.1, c.sign(cert.0.key, cert.1, h));
            ClientRun(c, before, conn, Records(conn.keysIn, [certificate] + ([verify] + ms)))
            == ClientRun(c, Client.CWaitFinished(k.(transcript := k.transcript + [certificate] + [verify]), request),
                         conn, Records(conn.keysIn, ms))
  {
    var certificate := Certificate(cert.0.chain);
    var k := Client.Heard(before.keys, certificate);
    var verify := CertificateVerify(cert.1, c.sign(cert.0.key, cert.1, c.digest(k.alg, k.transcript)));
    var waitCV := Client.CWaitCV(k, request, cert.0.chain);
    QuietStep(c, before, conn, certificate, [verify] + ms, waitCV);
    QuietStep(c, waitCV, conn, verify, ms, Client.CWaitFinished(Client.Heard(k, verify), request));
  }

  lemma AuthParts(a: seq<Message>, b: Message, d: Message, t: seq<Message>, ms: seq<Message>)
    ensures [b] + ([d] + ms) == [b, d] + ms && [] + [b, d] == [b, d]
    ensures t + a + [b] + [d] == t + (a + [b, d])
    ensures a + ([b, d] + ms) == (a + [b, d]) + ms
  {
  }

  /** The server's certificate messages lead the client to wait for the Finished message. */
  lemma AuthIsHeard(c: Crypto, scfg: Server.ServerConfig, k: Client.ClientKeys, cert: (Cert, nat), conn: Conn,
                    ms: seq<Message>)
    requires c.Signs(cert.0) && c.usable(cert.1, cert.0.key) && !k.params.usingClientAuth && k.judge.None?
    ensures var auth := Server.AuthFlight(c, k.alg, scfg, cert, k.transcript);
            var k' := k.(params := k.params.(usingClientAuth := scfg.requireClientAuth), transcript := k.transcript
                         + auth);
            var request := if scfg.requireClientAuth then Some(CertificateRequest([], Some(scfg.schemes))) else None;
            ClientRun(c, Client.CWaitCertCR(k), conn, Records(conn.keysIn, auth + ms))
            == ClientRun(c, Client.CWaitFinished(k', request), conn, Records(conn.keysIn, ms))
  {
    hide ClientRun;
    var certificate, t := Certificate(cert.0.chain), k.transcript;
    if scfg.requireClientAuth {
      var request := CertificateRequest([], Some(scfg.schemes));
      var h := c.digest(k.alg, t + [request] + [certificate]);
      var verify := CertificateVerify(cert.1, c.sign(cert.0.key, cert.1, h));
      AuthParts([request], certificate, verify, t, ms);
      var before := Client.CWaitCert(Client.Heard(k, request).(params := k.params.(usingClientAuth := true)),
                                     Some(request));
      QuietStep(c, Client.CWaitCertCR(k), conn, request, [certificate, verify] + ms, before);
      CertificateIsHeard(c, before, Some(request), cert, conn, ms);
    } else {
      var h := c.digest(k.alg, t + [certificate]);
      var verify := CertificateVerify(cert.1, c.sign(cert.0.key, cert.1, h));
      assert t + [] == t;
      AuthParts([], certificate, verify, t, ms);
      CertificateIsHeard(c, Client.CWaitCertCR(k), None, cert, conn, ms);
    }
  }

  /** The records of the client's second flight. */
  ghost function SecondFlight(keysOut: Option<KeySet>, k: Client.ClientKeys, certs: seq<Message>,
                              finished: Message): seq<Record> {
    Records(keysOut, EndOfEarly(k.params))
    + Records(Some(KeySet(k.params.suite, k.clientHandshake)), certs + [finished])
  }

  lemma SecondFlightIsSent(k: Client.ClientKeys, conn: Conn, certs: seq<Message>, finished: Message, x: Connected)
    ensures var early := EndOfEarly(k.params);
            var last := [RekeyIn(KeySet(k.params.suite, x.serverTraffic)),
                         RekeyOut(KeySet(k.params.suite, x.clientTraffic))];
            var actions := Sends(early) + ([RekeyOut(KeySet(k.params.suite, k.clientHandshake))]
                                           + (Sends(certs + [finished]) + last));
            && ActAll(conn, actions) == conn.(keysIn := Some(KeySet(k.params.suite, x.serverTraffic)),
                                              keysOut := Some(KeySet(k.params.suite, x.clientTraffic)))
            && Written(conn, actions) == SecondFlight(conn.keysOut, k, certs, finished)
  {
    var early := EndOfEarly(k.params);
    var last := [RekeyIn(KeySet(k.params.suite, x.serverTraffic)), RekeyOut(KeySet(k.params.suite, x.clientTraffic))];
    var rekey := RekeyOut(KeySet(k.params.suite, k.clientHandshake));
    var conn' := Act(conn, rekey);
    SendingRecords(conn, early);
    SendingRecords(conn', certs + [finished]);
    ActFirst(conn', last[0], [last[1]]);
    assert [last[0]] + [last[1]] == last;
    ActOnParts(conn', Sends(certs + [finished]), last);
    ActFirst(conn, rekey, Sends(certs + [finished]) + last);
    ActOnParts(conn, Sends(early), [rekey] + (Sends(certs + [finished]) + last));
  }

  /** What the client computes from the transcript `t` up to the server's Finished message and its own flight. */
  ghost function ClientResults(c: Crypto, k: Client.ClientKeys, t: seq<Message>, flight: seq<Message>): Connected {
    Connected(k.params, c.Secret(k.alg, k.master, ClientTraffic, t), c.Secret(k.alg, k.master, ServerTraffic, t),
              c.Secret(k.alg, k.master, Exporter, t), c.Secret(k.alg, k.master, Resumption, t + flight))
  }

  lemma FinishedIsHeard(c: Crypto, k: Client.ClientKeys, request: Option<Message>, conn: Conn)
      returns (certs: seq<Message>, finished: Message, x: Connected)
    requires k.params.usingClientAuth ==> request.Some? && request.value.CertificateRequest?
                                          && request.value.schemes.Some?
    ensures var early := EndOfEarly(k.params);
            var fin := Finished(c.FinishedData(k.alg, k.serverHandshake, k.transcript));
            var t := k.transcript + [fin];
            && Client.CertificateFlight(c, k, request, t + early) == Some(certs)
            && finished == Finished(c.FinishedData(k.alg, k.clientHandshake, t + early + certs))
            && x == ClientResults(c, k, t, early + certs + [finished])
            && ClientRun(c, Client.CWaitFinished(k, request), conn, Records(conn.keysIn, [fin]))
               == ClientEnd(Client.CConnected(x),
                            conn.(keysIn := Some(KeySet(k.params.suite, x.serverTraffic)),
                                  keysOut := Some(KeySet(k.params.suite, x.clientTraffic))),
                            SecondFlight(conn.keysOut, k, certs, finished))
  {
    var early := EndOfEarly(k.params);
    var fin := Finished(c.FinishedData(k.alg, k.serverHandshake, k.transcript));
    var t := k.transcript + [fin];
    certs := Client.CertificateFlight(c, k, request, t + early).value;
    finished := Finished(c.FinishedData(k.alg, k.clientHandshake, t + early + certs));
    x := ClientResults(c, k, t, early + certs + [finished]);
    assert t + (early + certs + [finished]) == t + early + certs + [finished];
    SecondFlightIsSent(k, conn, certs, finished, x);
    var records := Records(conn.keysIn, [fin]);
    assert records[0] == Record(conn.keysIn, fin) && records[1..] == [];
    var flight := SecondFlight(conn.keysOut, k, certs, finished);
    assert ClientReads(c, Client.CWaitFinished(k, request), conn, records[0]).0 == Client.CConnected(x);
    assert flight + [] == flight;
  }

  ghost function FlightRecords(c: Crypto, scfg: Server.ServerConfig, neg: Server.Negotiated,
                               ks: Server.Schedule): seq<Record>
    requires neg.params.usingPsk || neg.cert.Some?
  {
    var auth := ServerAuth(c, scfg, neg, ks);
    var fin := Finished(c.FinishedData(ks.alg, ks.serverHandshake, ks.transcript + [Server.Extensions(neg)] + auth));
    [Record(None, ks.hello)]
        + Records(Some(KeySet(neg.params.suite, ks.serverHandshake)), [Server.Extensions(neg)] + auth + [fin])
  }

  lemma RestOfFlightIsHeard(c: Crypto, scfg: Server.ServerConfig, st: Client.ClientState, neg: Server.Negotiated,
                            ks: Server.Schedule, conn: Conn, fin: Message)
    requires st.CWaitSH? && Setup(c, st.cfg, scfg) && OfferOk(c, st) && NegOk(c, scfg, st, neg)
    requires st.cfg.handler(Server.Extensions(neg))
    ensures ClientRun(c, Client.CWaitEE(ClientHolds(st, neg, ks), st.cfg.handler), conn,
                      Records(conn.keysIn, [Server.Extensions(neg)] + ServerAuth(c, scfg, neg, ks) + [fin]))
            == ClientRun(c, Client.CWaitFinished(ClientHoldsLast(c, scfg, st, neg, ks), RequestOf(scfg, neg)), conn,
                         Records(conn.keysIn, [fin]))
  {
    var ext, auth := Server.Extensions(neg), ServerAuth(c, scfg, neg, ks);
    assert [ext] + auth + [fin] == [ext] + (auth + [fin]);
    ExtensionsAreHeard(c, st, scfg, neg, ks, conn, auth + [fin]);
    if neg.params.usingPsk {
      assert [] + [fin] == [fin];
      assert ks.transcript + [ext] + [] == ks.transcript + [ext];
    } else {
      AuthIsHeard(c, scfg, ClientHolds(st, neg, ks).(params := neg.params, transcript := ks.transcript + [ext]),
                  neg.cert.value, conn, [fin]);
    }
  }

  /** The client's extension handler refuses one of the two messages of the server's flight that it is shown. */
  predicate ClientRefuses(cfg: Client.ClientConfig, neg: Server.Negotiated, random: Bytes) {
    !cfg.handler(Server.HelloOf(neg, random)) || !cfg.handler(Server.Extensions(neg))
  }

  lemma {:induction false} FirstIsHeard(c: Crypto, scfg: Server.ServerConfig, st: Client.ClientState,
                                        neg: Server.Negotiated, random: Bytes, conn: Conn,
                     records: seq<Record>)
    requires st.CWaitSH? && OfferOk(c, st) && NegOk(c, scfg, st, neg) && neg.params.suite in SUITES
    requires conn.keysIn.None? && st.cfg.handler(Server.HelloOf(neg, random))
    requires records != [] && records[0] == Record(None, Server.KeySchedule(c, neg, random).hello)
    requires Server.KeySchedule(c, neg, random).hello == Server.HelloOf(neg, random)
    ensures var ks := Server.KeySchedule(c, neg, random);
            ClientRun(c, st, conn, records)
            == ClientRun(c, Client.CWaitEE(ClientHolds(st, neg, ks), st.cfg.handler),
                         conn.(keysIn := Some(KeySet(neg.params.suite, ks.serverHandshake))), records[1..])
  {
    hide NegOk, OfferOk, Client.OnServerHello, Server.KeySchedule;
    var ks := Server.KeySchedule(c, neg, random);
    var keys := KeySet(neg.params.suite, ks.serverHandshake);
    HelloIsHeard(c, scfg, st, neg, random);
    ActFirst(conn, RekeyIn(keys), []);
    assert [RekeyIn(keys)] + [] == [RekeyIn(keys)];
    var end := ClientRun(c, Client.CWaitEE(ClientHolds(st, neg, ks), st.cfg.handler), conn.(keysIn := Some(keys)),
                         records[1..]);
    assert [] + end.sent == end.sent;
  }

  /** If no extension handler refuses, the client takes the whole flight; nobody judges the server's certificate. */
  lemma FlightIsHeard(c: Crypto, scfg: Server.ServerConfig, st: Client.ClientState, neg: Server.Negotiated,
                      random: Bytes, conn: Conn)
    requires st.CWaitSH? && Setup(c, st.cfg, scfg) && OfferOk(c, st) && NegOk(c, scfg, st, neg)
             && neg.params.suite in SUITES
    requires conn.keysIn.None? && !ClientRefuses(st.cfg, neg, random)
    ensures var ks := Server.KeySchedule(c, neg, random);
            var k := ClientHoldsLast(c, scfg, st, neg, ks);
            var keys := Some(KeySet(neg.params.suite, ks.serverHandshake));
            var fin := Finished(c.FinishedData(k.alg, k.serverHandshake, k.transcript));
            ClientRun(c, st, conn, FlightRecords(c, scfg, neg, ks))
            == ClientRun(c, Client.CWaitFinished(k, RequestOf(scfg, neg)), conn.(keysIn := keys), Records(keys, [fin]))
  {
    hide ClientRun;
    var ks := Server.KeySchedule(c, neg, random);
    var records := FlightRecords(c, scfg, neg, ks);
    var conn' := conn.(keysIn := Some(KeySet(neg.params.suite, ks.serverHandshake)));
    assert records[0] == Record(None, ks.hello);
    FirstIsHeard(c, scfg, st, neg, random, conn, records);
    var k := ClientHoldsLast(c, scfg, st, neg, ks);
    RestOfFlightIsHeard(c, scfg, st, neg, ks, conn', Finished(c.FinishedData(k.alg, k.serverHandshake, k.transcript)));
  }

  lemma FailsAtOnce(c: Crypto, st: Client.ClientState, conn: Conn, records: seq<Record>)
    requires ClientWaits(st) && records != [] && ClientReads(c, st, conn, records[0])
             == (Client.CFailed(BadExtensions), [])
    ensures ClientRun(c, st, conn, records) == ClientEnd(Client.CFailed(BadExtensions), conn, [])
  {
  }

  lemma FlightIsRefused(c: Crypto, scfg: Server.ServerConfig, st: Client.ClientState, neg: Server.Negotiated,
                        random: Bytes, conn: Conn)
    requires st.CWaitSH? && OfferOk(c, st) && NegOk(c, scfg, st, neg) && neg.params.suite in SUITES
    requires conn.keysIn.None? && ClientRefuses(st.cfg, neg, random)
    ensures var end := ClientRun(c, st, conn, FlightRecords(c, scfg, neg, Server.KeySchedule(c, neg, random)));
            end.state == Client.CFailed(BadExtensions) && end.sent == []
  {
    hide ClientRun, Setup, ServerAuth;
    var ks := Server.KeySchedule(c, neg, random);
    var records := FlightRecords(c, scfg, neg, ks);
    assert records[0] == Record(None, ks.hello);
    if st.cfg.handler(ks.hello) {
      var keys := KeySet(neg.params.suite, ks.serverHandshake);
      FirstIsHeard(c, scfg, st, neg, random, conn, records);
      assert records[1] == Record(Some(keys), Server.Extensions(neg));
      FailsAtOnce(c, Client.CWaitEE(ClientHolds(st, neg, ks), st.cfg.handler), conn.(keysIn := Some(keys)),
                  records[1..]);
    } else {
      FailsAtOnce(c, st, conn, records);
    }
  }

  // ----- The server hears the client's second flight -----

  lemma ServerQuietStep(c: Crypto, st: Server.ServerState, conn: Conn, m: Message, ms: seq<Message>,
                        next: Server.ServerState)
    requires ServerWaits(st) && !st.SStart? && !m.ApplicationData? && Server.ServerNext(c, st, m) == (next, [])
    ensures ServerRun(c, st, conn, Records(conn.keysIn, [m] + ms))
            == ServerRun(c, next, conn.(reading := Strict), Records(conn.keysIn, ms))
  {
    assert Records(conn.keysIn, [m] + ms)[1..] == Records(conn.keysIn, ms);
  }

  /** The two ends hold the same before the client's certificate. */
  ghost predicate HoldSame(c: Crypto, k: Client.ClientKeys, sk: Server.ServerKeys, t: seq<Message>) {
    && sk.alg == k.alg && sk.params == k.params && sk.master == k.master && sk.clientHandshake == k.clientHandshake
    && sk.transcript == t + EndOfEarly(k.params)
    && sk.clientTraffic == c.Secret(k.alg, k.master, ClientTraffic, t)
    && sk.serverTraffic == c.Secret(k.alg, k.master, ServerTraffic, t)
    && sk.exporter == c.Secret(k.alg, k.master, Exporter, t)
  }

  lemma ClientFinishedIsHeard(c: Crypto, sk: Server.ServerKeys, conn: Conn, x: Connected)
    requires conn.keysIn == Some(KeySet(sk.params.suite, sk.clientHandshake))
    ensures var finished := Finished(c.FinishedData(sk.alg, sk.clientHandshake, sk.transcript));
            ServerRun(c, Server.SWaitFinished(sk), conn, Records(conn.keysIn, [finished]))
            == ServerEnd(Server.SConnected(Connected(sk.params, sk.clientTraffic, sk.serverTraffic, sk.exporter,
                                                     c.Secret(sk.alg, sk.master, Resumption,
                                                              sk.transcript + [finished]))),
                         conn.(keysIn := Some(KeySet(sk.params.suite, sk.clientTraffic)), reading := Strict))
  {
    var finished := Finished(c.FinishedData(sk.alg, sk.clientHandshake, sk.transcript));
    var records := Records(conn.keysIn, [finished]);
    assert records[0] == Record(conn.keysIn, finished) && records[1..] == [];
    var actions := [RekeyIn(KeySet(sk.params.suite, sk.clientTraffic))];
    ActFirst(conn.(reading := Strict), actions[0], []);
    assert Server.ServerNext(c, Server.SWaitFinished(sk), finished).1 == actions == [actions[0]] + [];
  }

  /** The judge of the server's application is asked about a chain, and refuses it. */
  predicate Condemned(judge: Judge, certs: seq<Message>) {
    |certs| == 2 && certs[0].Certificate? && !Passes(judge, certs[0].chain)
  }

  /**
   The client's certificate messages lead the server to wait for the Finished message, or to refuse the certificate.
   */
  lemma ClientAuthIsHeard(c: Crypto, sk: Server.ServerKeys, k: Client.ClientKeys, request: Option<Message>, conn: Conn,
                          certs: seq<Message>, ms: seq<Message>)
    requires sk.params == k.params && sk.alg == k.alg
    requires Client.CertificateFlight(c, k, request, sk.transcript) == Some(certs)
    requires forall cert :: cert in k.certs ==> c.Signs(cert)
    ensures var conn' := if certs == [] then conn else conn.(reading := Strict);
            ServerRun(c, Server.SWaitFlight2(sk), conn, Records(conn.keysIn, certs + ms))
            == if Condemned(sk.judge, certs) then ServerEnd(Server.SFailed(BadCertificate), conn')
               else ServerRun(c, Server.SWaitFinished(sk.(transcript := sk.transcript + certs)), conn',
                              Records(conn.keysIn, ms))
  {
    if certs == [] {
      assert certs + ms == ms && sk.transcript + certs == sk.transcript;
    } else {
      var sk1 := Server.Heard(sk, certs[0]);
      if |certs| == 1 {
        ServerQuietStep(c, Server.SWaitCert(sk), conn, certs[0], ms, Server.SWaitFinished(sk1));
        assert certs == [certs[0]];
      } else {
        assert certs == [certs[0], certs[1]];
        var waitCV := Server.SWaitCV(sk1, certs[0].chain);
        ServerQuietStep(c, Server.SWaitCert(sk), conn, certs[0], [certs[1]] + ms, waitCV);
        var next := if Condemned(sk.judge, certs) then Server.SFailed(BadCertificate)
                    else Server.SWaitFinished(Server.Heard(sk1, certs[1]));
        ServerQuietStep(c, waitCV, conn.(reading := Strict), certs[1], ms, next);
        assert [certs[0]] + ([certs[1]] + ms) == certs + ms;
        assert sk1.transcript + [certs[1]] == sk.transcript + certs;
      }
    }
  }

  /** Where the client's second flight leads a server that has the early data. */
  ghost function HeardBy(judge: Judge, certs: seq<Message>, suite: nat, x: Connected, conn: Conn): ServerEnd {
    if Condemned(judge, certs) then ServerEnd(Server.SFailed(BadCertificate), conn.(reading := Strict))
    else ServerEnd(Server.SConnected(x), conn.(keysIn := Some(KeySet(suite, x.clientTraffic)), reading := Strict))
  }

  /**
   After the early data, the client's second flight connects the server with the client's secrets, unless the judge
   refuses.
   */
  lemma SecondFlightIsHeard(c: Crypto, k: Client.ClientKeys, sk: Server.ServerKeys, t: seq<Message>,
                            request: Option<Message>, conn: Conn,
                            certs: seq<Message>, finished: Message, x: Connected)
    requires HoldSame(c, k, sk, t) && (forall cert :: cert in k.certs ==> c.Signs(cert))
    requires Client.CertificateFlight(c, k, request, sk.transcript) == Some(certs)
    requires finished == Finished(c.FinishedData(k.alg, k.clientHandshake, sk.transcript + certs))
    requires x == ClientResults(c, k, t, EndOfEarly(k.params) + certs + [finished])
    requires conn.keysIn == Some(KeySet(k.params.suite, k.clientHandshake))
    ensures ServerRun(c, Server.SWaitFlight2(sk), conn, Records(conn.keysIn, certs + [finished]))
            == HeardBy(sk.judge, certs, k.params.suite, x, conn)
  {
    ClientAuthIsHeard(c, sk, k, request, conn, certs, [finished]);
    var conn' := if certs == [] then conn else conn.(reading := Strict);
    if !Condemned(sk.judge, certs) {
      ClientFinishedIsHeard(c, sk.(transcript := sk.transcript + certs), conn', x);
      var early := EndOfEarly(k.params);
      assert t + (early + certs + [finished]) == sk.transcript + certs + [finished];
    }
  }

  /** The server takes the early data and its end. */
  lemma EarlyDataIsTaken(c: Crypto, sk: Server.ServerKeys, conn: Conn, data: Bytes, rest: seq<Record>)
    requires conn.reading.TakingEarlyData? && conn.keysIn.Some?
    ensures var keys := Some(KeySet(sk.params.suite, sk.clientHandshake));
            ServerRun(c, Server.SWaitEoed(sk), conn, [Record(conn.keysIn, ApplicationData(data))]
                      + (Records(conn.keysIn, [EndOfEarlyData]) + rest))
            == ServerRun(c, Server.SWaitFlight2(Server.Heard(sk, EndOfEarlyData)),
                         conn.(keysIn := keys, reading := Strict, early := conn.early + data), rest)
  {
    var keys := KeySet(sk.params.suite, sk.clientHandshake);
    var all := [Record(conn.keysIn, ApplicationData(data))] + (Records(conn.keysIn, [EndOfEarlyData]) + rest);
    assert all[1..] == Records(conn.keysIn, [EndOfEarlyData]) + rest;
    assert all[1..][0] == Record(conn.keysIn, EndOfEarlyData) && all[1..][1..] == rest;
    ActFirst(conn.(reading := Strict, early := conn.early + data), RekeyIn(keys), []);
    assert [RekeyIn(keys)] + [] == [RekeyIn(keys)];
    assert ServerRun(c, Server.SWaitEoed(sk), conn, all)
           == ServerRun(c, Server.SWaitEoed(sk), conn.(early := conn.early + data), all[1..]);
  }

  /** The server drops early data that its keys do not fit. */
  lemma EarlyDataIsDropped(c: Crypto, sk: Server.ServerKeys, conn: Conn, r: Record, rest: seq<Record>)
    requires conn.reading.SkippingEarlyData? && r.keys != conn.keysIn
    ensures ServerRun(c, Server.SWaitFlight2(sk), conn, [r] + rest) == ServerRun(c, Server.SWaitFlight2(sk), conn, rest)
  {
    assert ([r] + rest)[1..] == rest;
    var st := Server.AwaitFlight2(Server.SWaitFlight2(sk));
    assert ServerRun(c, st, conn, [r] + rest) == ServerRun(c, st, conn, rest);
  }

  // ----- The server sends its flight -----

  /** The server's state and connection after its flight. */
  ghost function AfterFlight(c: Crypto, scfg: Server.ServerConfig, neg: Server.Negotiated,
                             ks: Server.Schedule): Server.ServerKeys
    requires neg.params.usingPsk || neg.cert.Some?
  {
    var t3 := ks.transcript + [Server.Extensions(neg)] + ServerAuth(c, scfg, neg, ks);
    var t4 := t3 + [Finished(c.FinishedData(ks.alg, ks.serverHandshake, t3))];
    Server.ServerKeys(ks.alg, neg.params.(usingClientAuth := !neg.params.usingPsk && scfg.requireClientAuth), t4,
                      scfg.judge,
                      ks.master, ks.clientHandshake, c.Secret(ks.alg, ks.master, ClientTraffic, t4),
                          c.Secret(ks.alg, ks.master, ServerTraffic, t4), c.Secret(ks.alg, ks.master, Exporter, t4))
  }

  ghost function ConnAfterFlight(neg: Server.Negotiated, sk: Server.ServerKeys): Conn {
    var suite := neg.params.suite;
    Conn(Some(KeySet(suite, if neg.params.usingEarlyData then neg.earlyTraffic else sk.clientHandshake)),
         Some(KeySet(suite, sk.serverTraffic)),
         if neg.params.usingEarlyData then TakingEarlyData else SkippingEarlyData, [])
  }

  lemma OneAction(conn: Conn, a: Action)
    ensures ActAll(conn, [a]) == Act(conn, a) && Written(conn, [a]) == if a.Send? then [Record(conn.keysOut, a.message)]
            else []
  {
    var sent := if a.Send? then [Record(conn.keysOut, a.message)] else [];
    assert sent + [] == sent;
    ActFirst(conn, a, []);
    assert [a] + [] == [a];
  }

  lemma TwoActions(conn: Conn, a: Action, b: Action)
    requires !b.Send?
    ensures ActAll(conn, [a, b]) == Act(Act(conn, a), b)
            && Written(conn, [a, b]) == if a.Send? then [Record(conn.keysOut, a.message)] else []
  {
    var sent := if a.Send? then [Record(conn.keysOut, a.message)] else [];
    assert sent + [] == sent;
    ActFirst(conn, a, [b]);
    OneAction(Act(conn, a), b);
    assert [a] + [b] == [a, b];
  }

  lemma FlightActions(conn: Conn, hello: Message, ms: seq<Message>, k1: KeySet, k2: KeySet, k3: KeySet, reading: Action)
    requires conn.keysOut.None? && (reading.ReadEarlyData? || reading.ReadPastEarlyData?)
    ensures var actions := [Send(hello), RekeyOut(k1)] + Sends(ms) + [RekeyOut(k2)] + [RekeyIn(k3), reading];
            && ActAll(conn, actions) == Act(conn.(keysIn := Some(k3), keysOut := Some(k2)), reading)
            && Written(conn, actions) == [Record(None, hello)] + Records(Some(k1), ms)
  {
    var conn1 := conn.(keysOut := Some(k1));
    var first := [Send(hello), RekeyOut(k1)];
    var sent := [Record(None, hello)] + Records(Some(k1), ms);
    assert sent + [] == sent;
    TwoActions(conn, Send(hello), RekeyOut(k1));
    SendingRecords(conn1, ms);
    OneAction(conn1, RekeyOut(k2));
    TwoActions(conn.(keysOut := Some(k2)), RekeyIn(k3), reading);
    ActOnParts(conn, first, Sends(ms));
    ActOnParts(conn, first + Sends(ms), [RekeyOut(k2)]);
    ActOnParts(conn, first + Sends(ms) + [RekeyOut(k2)], [RekeyIn(k3), reading]);
  }

  lemma FlightIsSent(c: Crypto, scfg: Server.ServerConfig, neg: Server.Negotiated, random: Bytes)
    requires neg.params.usingPsk || neg.cert.Some?
    requires neg.params.usingDh ==> neg.share.Some?
    requires neg.params.suite in SUITES && scfg.handler(Server.HelloOf(neg, random))
             && scfg.handler(Server.Extensions(neg))
    ensures var (next, actions) := Server.FirstFlight(c, scfg, neg, random);
            var ks := Server.KeySchedule(c, neg, random);
            var sk := AfterFlight(c, scfg, neg, ks);
            && next == WaitingServer(neg, sk)
            && ActAll(FRESH, actions) == ConnAfterFlight(neg, sk)
            && Written(FRESH, actions) == FlightRecords(c, scfg, neg, ks)
  {
    var ks := Server.KeySchedule(c, neg, random);
    var sk := AfterFlight(c, scfg, neg, ks);
    var suite := neg.params.suite;
    var auth := ServerAuth(c, scfg, neg, ks);
    var fin := Finished(c.FinishedData(ks.alg, ks.serverHandshake, ks.transcript + [Server.Extensions(neg)] + auth));
    FlightActions(FRESH, ks.hello, [Server.Extensions(neg)] + auth + [fin], KeySet(suite, ks.serverHandshake),
                  KeySet(suite, sk.serverTraffic),
                  KeySet(suite, if neg.params.usingEarlyData then neg.earlyTraffic else sk.clientHandshake),
                  if neg.params.usingEarlyData then ReadEarlyData else ReadPastEarlyData);
  }

  /** Both ends are connected with the same parameters, secrets and keys, and accepted early data has arrived. */
  ghost predicate Agreed(e: Ends, early: Bytes) {
    && e.client.CConnected? && e.server == Server.SConnected(e.client.conn)
    && e.clientConn.keysIn == e.serverConn.keysOut
        == Some(KeySet(e.client.conn.params.suite, e.client.conn.serverTraffic))
    && e.clientConn.keysOut == e.serverConn.keysIn
        == Some(KeySet(e.client.conn.params.suite, e.client.conn.clientTraffic))
    && e.serverConn.early == if e.client.conn.params.usingEarlyData then early else []
  }

  /** The client's second flight, as the client builds it after the transcript `t`. */
  ghost predicate IsSecondFlight(c: Crypto, k: Client.ClientKeys, t: seq<Message>, request: Option<Message>,
                                 certs: seq<Message>, finished: Message, x: Connected) {
    var early := EndOfEarly(k.params);
    && Client.CertificateFlight(c, k, request, t + early) == Some(certs)
    && finished == Finished(c.FinishedData(k.alg, k.clientHandshake, t + early + certs))
    && x == ClientResults(c, k, t, early + certs + [finished])
  }

  /** The two ends hold the same when the server's flight is sent. */
  ghost predicate SameAfterFlight(c: Crypto, k: Client.ClientKeys, sk: Server.ServerKeys) {
    && sk.alg == k.alg && sk.params == k.params && sk.master == k.master && sk.clientHandshake == k.clientHandshake
    && sk.clientTraffic == c.Secret(k.alg, k.master, ClientTraffic, sk.transcript)
    && sk.serverTraffic == c.Secret(k.alg, k.master, ServerTraffic, sk.transcript)
    && sk.exporter == c.Secret(k.alg, k.master, Exporter, sk.transcript)
    && forall cert :: cert in k.certs ==> c.Signs(cert)
  }

  lemma EndWithEarlyData(c: Crypto, k: Client.ClientKeys, sk: Server.ServerKeys, request: Option<Message>, conn: Conn,
                         data: Bytes,
                         certs: seq<Message>, finished: Message, x: Connected)
    requires SameAfterFlight(c, k, sk) && IsSecondFlight(c, k, sk.transcript, request, certs, finished, x)
    requires k.params.usingEarlyData && conn.reading.TakingEarlyData? && conn.keysIn.Some? && conn.early == []
    ensures ServerRun(c, Server.SWaitEoed(sk), conn,
                      [Record(conn.keysIn, ApplicationData(data))] + SecondFlight(conn.keysIn, k, certs, finished))
            == HeardBy(sk.judge, certs, k.params.suite, x,
                       conn.(keysIn := Some(KeySet(k.params.suite, k.clientHandshake)), early := data))
  {
    var keys := Some(KeySet(k.params.suite, k.clientHandshake));
    EarlyDataIsTaken(c, sk, conn, data, Records(keys, certs + [finished]));
    assert [] + data == data;
    SecondFlightIsHeard(c, k, Server.Heard(sk, EndOfEarlyData), sk.transcript, request,
                        conn.(keysIn := keys, reading := Strict, early := data), certs, finished, x);
  }

  lemma EndWithout(c: Crypto, k: Client.ClientKeys, sk: Server.ServerKeys, request: Option<Message>, conn: Conn,
                   early: seq<Record>,
                   keys: Option<KeySet>, certs: seq<Message>, finished: Message, x: Connected)
    requires SameAfterFlight(c, k, sk) && IsSecondFlight(c, k, sk.transcript, request, certs, finished, x)
    requires !k.params.usingEarlyData && conn.reading.SkippingEarlyData?
    requires conn.keysIn == Some(KeySet(k.params.suite, k.clientHandshake))
    requires |early| <= 1 && (early != [] ==> early[0].keys != conn.keysIn)
    ensures ServerRun(c, Server.SWaitFlight2(sk), conn, early + SecondFlight(keys, k, certs, finished))
            == HeardBy(sk.judge, certs, k.params.suite, x, conn)
  {
    var rest := Records(conn.keysIn, certs + [finished]);
    assert SecondFlight(keys, k, certs, finished) == rest;
    assert sk.transcript + [] == sk.transcript;
    if early == [] {
      assert early + rest == rest;
    } else {
      assert early == [early[0]];
      EarlyDataIsDropped(c, sk, conn, early[0], rest);
    }
    SecondFlightIsHeard(c, k, sk, sk.transcript, request, conn, certs, finished, x);
  }

  lemma EarlyKeysDiffer(c: Crypto, st: Client.ClientState, neg: Server.Negotiated, random: Bytes)
    requires c.Separates() && st.CWaitSH? && st.cfg.serverName in st.cfg.psks && OfferedKey(st).suite in SUITES
             && neg.params.suite in SUITES
    ensures EarlyKeys(c, st) != KeySet(neg.params.suite, Server.KeySchedule(c, neg, random).clientHandshake)
  {
  }

  /** The server's state right after its flight. */
  ghost function WaitingServer(neg: Server.Negotiated, sk: Server.ServerKeys): Server.ServerState {
    if neg.params.usingEarlyData then Server.SWaitEoed(sk) else Server.SWaitFlight2(sk)
  }

  /** The server's connection when it has read the early data and waits for the second flight. */
  ghost function ConnForFlight2(st: Client.ClientState, neg: Server.Negotiated, sk: Server.ServerKeys): Conn
    requires st.CWaitSH?
  {
    ConnAfterFlight(neg, sk).(keysIn := Some(KeySet(neg.params.suite, sk.clientHandshake)),
                              early := if neg.params.usingEarlyData then st.cfg.earlyData else [])
  }

  lemma ServerEndIs(c: Crypto, scfg: Server.ServerConfig, st: Client.ClientState, neg: Server.Negotiated, random: Bytes,
                    certs: seq<Message>, finished: Message, x: Connected)
    requires st.CWaitSH? && Setup(c, st.cfg, scfg) && OfferOk(c, st) && NegOk(c, scfg, st, neg)
             && neg.params.suite in SUITES
    requires var ks := Server.KeySchedule(c, neg, random);
             IsSecondFlight(c, ClientHoldsLast(c, scfg, st, neg, ks), AfterFlight(c, scfg, neg, ks).transcript,
                            RequestOf(scfg, neg),
                            certs, finished, x)
    ensures var ks := Server.KeySchedule(c, neg, random);
            var k, sk := ClientHoldsLast(c, scfg, st, neg, ks), AfterFlight(c, scfg, neg, ks);
            ServerRun(c, WaitingServer(neg, sk), ConnAfterFlight(neg, sk),
                      EarlyRecords(c, st) + SecondFlight(WaitingConn(c, st).keysOut, k, certs, finished))
            == HeardBy(scfg.judge, certs, neg.params.suite, x, ConnForFlight2(st, neg, sk))
  {
    var ks := Server.KeySchedule(c, neg, random);
    var k, sk := ClientHoldsLast(c, scfg, st, neg, ks), AfterFlight(c, scfg, neg, ks);
    var conn := ConnAfterFlight(neg, sk);
    assert SameAfterFlight(c, k, sk);
    if neg.params.usingEarlyData {
      assert EarlyRecords(c, st) == [Record(conn.keysIn, ApplicationData(st.cfg.earlyData))];
      assert WaitingConn(c, st).keysOut == conn.keysIn;
      EndWithEarlyData(c, k, sk, RequestOf(scfg, neg), conn, st.cfg.earlyData, certs, finished, x);
    } else {
      if st.cfg.earlyData != [] {
        EarlyKeysDiffer(c, st, neg, random);
      }
      EndWithout(c, k, sk, RequestOf(scfg, neg), conn, EarlyRecords(c, st), WaitingConn(c, st).keysOut, certs, finished,
                 x);
    }
  }

  lemma EarlyDataAlone(c: Crypto, st: Server.ServerState, conn: Conn, records: seq<Record>)
    requires (st.SWaitEoed? || st.SWaitFlight2?) && |records| <= 1
    requires records != [] ==> Absorbs(conn, records[0])
    ensures ServerRun(c, st, conn, records).state == if st.SWaitEoed? then st else Server.AwaitFlight2(st)
  {
    var next := if st.SWaitEoed? then st else Server.AwaitFlight2(st);
    if records != [] {
      assert ServerRun(c, next, conn, records) == ServerRun(c, next, Absorbed(conn, records[0]), []);
    }
  }

  /** Without a second flight the server keeps waiting for one. */
  lemma ServerKeepsWaiting(c: Crypto, scfg: Server.ServerConfig, st: Client.ClientState, neg: Server.Negotiated,
                           random: Bytes)
    requires st.CWaitSH? && Setup(c, st.cfg, scfg) && OfferOk(c, st) && NegOk(c, scfg, st, neg)
             && neg.params.suite in SUITES
    ensures var sk := AfterFlight(c, scfg, neg, Server.KeySchedule(c, neg, random));
            var end := ServerRun(c, WaitingServer(neg, sk), ConnAfterFlight(neg, sk), EarlyRecords(c, st)).state;
            end.SWaitEoed? || end.SWaitCert? || end.SWaitFinished?
  {
    hide ServerRun, Server.KeySchedule;
    var sk := AfterFlight(c, scfg, neg, Server.KeySchedule(c, neg, random));
    if st.cfg.earlyData != [] {
      EarlyKeysDiffer(c, st, neg, random);
    }
    EarlyDataAlone(c, WaitingServer(neg, sk), ConnAfterFlight(neg, sk), EarlyRecords(c, st));
  }

  /** The client's side of the outcome, and the second flight it sends. */
  lemma ClientEndsConnected(c: Crypto, scfg: Server.ServerConfig, st: Client.ClientState, neg: Server.Negotiated,
                            random: Bytes, conn: Conn)
      returns (certs: seq<Message>, finished: Message, x: Connected)
    requires st.CWaitSH? && Setup(c, st.cfg, scfg) && OfferOk(c, st) && NegOk(c, scfg, st, neg)
             && neg.params.suite in SUITES
    requires conn.keysIn.None? && !ClientRefuses(st.cfg, neg, random)
    ensures var ks := Server.KeySchedule(c, neg, random);
            var k := ClientHoldsLast(c, scfg, st, neg, ks);
            && IsSecondFlight(c, k, AfterFlight(c, scfg, neg, ks).transcript, RequestOf(scfg, neg), certs, finished, x)
            && ClientRun(c, st, conn, FlightRecords(c, scfg, neg, ks))
               == ClientEnd(Client.CConnected(x),
                            conn.(keysIn := Some(KeySet(k.params.suite, x.serverTraffic)),
                                  keysOut := Some(KeySet(k.params.suite, x.clientTraffic))),
                            SecondFlight(conn.keysOut, k, certs, finished))
  {
    var ks := Server.KeySchedule(c, neg, random);
    var k := ClientHoldsLast(c, scfg, st, neg, ks);
    var keys := Some(KeySet(neg.params.suite, ks.serverHandshake));
    FlightIsHeard(c, scfg, st, neg, random, conn);
    certs, finished, x := FinishedIsHeard(c, k, RequestOf(scfg, neg), conn.(keysIn := keys));
  }

  lemma FlightStep(c: Crypto, s: Session, random: Bytes)
    requires s.server.SNegotiated? && s.server.neg.params.suite in SUITES && s.serverConn == FRESH && s.toClient == []
    requires Enabled(s, ServerSends(random)) && Late(Next(c, s, ServerSends(random)).server)
    ensures var neg, scfg := s.server.neg, s.server.cfg;
            var ks := Server.KeySchedule(c, neg, random);
            var sk := AfterFlight(c, scfg, neg, ks);
            Next(c, s, ServerSends(random))
            == s.(server := WaitingServer(neg, sk), serverConn := ConnAfterFlight(neg, sk),
                  toClient := FlightRecords(c, scfg, neg, ks))
  {
    FlightIsSent(c, s.server.cfg, s.server.neg, random);
    var flight := FlightRecords(c, s.server.cfg, s.server.neg, Server.KeySchedule(c, s.server.neg, random));
    assert [] + flight == flight;
  }

  /** The server asks for a certificate, the client has one, and the judge of the server's application refuses it. */
  predicate ServerRefuses(c: Crypto, cfg: Client.ClientConfig, scfg: Server.ServerConfig, usingPsk: bool) {
    && !usingPsk && scfg.requireClientAuth
    && var choice := SelectCertificate(c, None, scfg.schemes, cfg.certs);
       choice.Some? && !Passes(scfg.judge, choice.value.0.chain)
  }

  /** What a session ends in: the only late failures are refusals by an application. */
  ghost predicate Decided(e: Ends, early: Bytes, clientRefuses: bool, serverRefuses: bool) {
    if clientRefuses then e.client == Client.CFailed(BadExtensions)
        && (e.server.SWaitEoed? || e.server.SWaitCert? || e.server.SWaitFinished?)
    else if serverRefuses then e.client.CConnected? && e.server == Server.SFailed(BadCertificate)
    else Agreed(e, early)
  }

  lemma CondemnedIff(c: Crypto, scfg: Server.ServerConfig, st: Client.ClientState, neg: Server.Negotiated,
                     ks: Server.Schedule,
                     t: seq<Message>, certs: seq<Message>)
    requires st.CWaitSH? && (neg.params.usingPsk || neg.cert.Some?)
    requires Client.CertificateFlight(c, ClientHoldsLast(c, scfg, st, neg, ks), RequestOf(scfg, neg), t) == Some(certs)
    ensures Condemned(scfg.judge, certs) <==> ServerRefuses(c, st.cfg, scfg, neg.params.usingPsk)
  {
  }

  lemma OutcomeIs(c: Crypto, s: Session, ce: ClientEnd, se: ServerEnd)
    requires ClientRun(c, s.client, s.clientConn, s.toClient) == ce
    requires ServerRun(c, s.server, s.serverConn, s.toServer + ce.sent) == se
    ensures Outcome(c, s) == Ends(ce.state, ce.conn, se.state, se.conn)
  {
  }

  /** The session after the server's flight. */
  ghost predicate FlightSent(c: Crypto, scfg: Server.ServerConfig, st: Client.ClientState, neg: Server.Negotiated,
                             random: Bytes, s: Session)
    requires st.CWaitSH? && OfferOk(c, st) && (neg.params.usingPsk || neg.cert.Some?) && neg.params.suite in SUITES
  {
    var ks := Server.KeySchedule(c, neg, random);
    var sk := AfterFlight(c, scfg, neg, ks);
    s == Session(st, WaitingConn(c, st), WaitingServer(neg, sk), ConnAfterFlight(neg, sk), EarlyRecords(c, st),
                 FlightRecords(c, scfg, neg, ks))
  }

  lemma RefusalDecides(c: Crypto, scfg: Server.ServerConfig, st: Client.ClientState, neg: Server.Negotiated,
                       random: Bytes, s: Session)
    requires st.CWaitSH? && Setup(c, st.cfg, scfg) && OfferOk(c, st) && NegOk(c, scfg, st, neg)
             && neg.params.suite in SUITES
    requires FlightSent(c, scfg, st, neg, random, s) && ClientRefuses(st.cfg, neg, random)
    ensures Decided(Outcome(c, s), st.cfg.earlyData, true, ServerRefuses(c, st.cfg, scfg, neg.params.usingPsk))
  {
    hide ClientRun, ServerRun, Server.KeySchedule, AfterFlight, FlightRecords, NegOk, ServerRefuses;
    FlightIsRefused(c, scfg, st, neg, random, s.clientConn);
    ServerKeepsWaiting(c, scfg, st, neg, random);
    assert s.toServer + [] == s.toServer;
  }

  /** Two ends that have run through both flights, by what the judge says. */
  lemma EndsAreDecided(suite: nat, conn: Conn, serverConn: Conn, judge: Judge, certs: seq<Message>, x: Connected,
                       early: Bytes, refuses: bool)
    requires conn.keysIn == serverConn.keysOut == Some(KeySet(x.params.suite, x.serverTraffic))
             && suite == x.params.suite
    requires conn.keysOut == Some(KeySet(x.params.suite, x.clientTraffic))
    requires serverConn.early == if x.params.usingEarlyData then early else []
    requires refuses <==> Condemned(judge, certs)
    ensures var se := HeardBy(judge, certs, suite, x, serverConn);
            Decided(Ends(Client.CConnected(x), conn, se.state, se.conn), early, false, refuses)
  {
  }

  lemma AcceptanceDecides(c: Crypto, scfg: Server.ServerConfig, st: Client.ClientState, neg: Server.Negotiated,
                          random: Bytes, s: Session)
    requires st.CWaitSH? && Setup(c, st.cfg, scfg) && OfferOk(c, st) && NegOk(c, scfg, st, neg)
             && neg.params.suite in SUITES
    requires neg.params.usingPsk || neg.cert.Some?
    requires FlightSent(c, scfg, st, neg, random, s) && !ClientRefuses(st.cfg, neg, random)
    ensures Decided(Outcome(c, s), st.cfg.earlyData, false, ServerRefuses(c, st.cfg, scfg, neg.params.usingPsk))
  {
    hide ClientRun, ServerRun, Server.KeySchedule, FlightRecords, NegOk, OfferOk, Setup, ServerRefuses, Outcome,
        Decided, HeardBy,
         Client.CertificateFlight;
    var ks := Server.KeySchedule(c, neg, random);
    var k, sk := ClientHoldsLast(c, scfg, st, neg, ks), AfterFlight(c, scfg, neg, ks);
    var certs, finished, x := ClientEndsConnected(c, scfg, st, neg, random, s.clientConn);
    ServerEndIs(c, scfg, st, neg, random, certs, finished, x);
    CondemnedIff(c, scfg, st, neg, ks, sk.transcript + EndOfEarly(k.params), certs);
    var ce := ClientRun(c, s.client, s.clientConn, s.toClient);
    var serverConn := ConnForFlight2(st, neg, sk);
    OutcomeIs(c, s, ce, HeardBy(scfg.judge, certs, neg.params.suite, x, serverConn));
    EndsAreDecided(neg.params.suite, ce.conn, serverConn, scfg.judge, certs, x, st.cfg.earlyData,
                   ServerRefuses(c, st.cfg, scfg, neg.params.usingPsk));
  }

  /** The server's flight decides what the session ends in. */
  lemma FlightDecides(c: Crypto, s: Session, random: Bytes)
    requires s.client.CWaitSH? && s.server.SNegotiated? && Setup(c, s.client.cfg, s.server.cfg)
    requires OfferOk(c, s.client) && NegOk(c, s.server.cfg, s.client, s.server.neg)
    requires s.clientConn == WaitingConn(c, s.client) && s.serverConn == FRESH
    requires s.toClient == [] && s.toServer == EarlyRecords(c, s.client)
    requires Enabled(s, ServerSends(random)) && Late(Next(c, s, ServerSends(random)).server)
    ensures Decided(Outcome(c, Next(c, s, ServerSends(random))), s.client.cfg.earlyData,
                    ClientRefuses(s.client.cfg, s.server.neg, random),
                    ServerRefuses(c, s.client.cfg, s.server.cfg, s.server.neg.params.usingPsk))
  {
    hide ClientRun, ServerRun, Server.KeySchedule, AfterFlight, FlightRecords, NegOk, ServerRefuses, Outcome, Decided;
    var st, scfg, neg := s.client, s.server.cfg, s.server.neg;
    FlightStep(c, s, random);
    var s' := Next(c, s, ServerSends(random));
    if ClientRefuses(st.cfg, neg, random) {
      RefusalDecides(c, scfg, st, neg, random, s');
    } else {
      AcceptanceDecides(c, scfg, st, neg, random, s');
    }
  }
}
