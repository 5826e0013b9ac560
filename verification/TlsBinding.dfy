/**
 What an end knows when it accepts a Finished or CertificateVerify message, whatever records it was given before: the
 end that made the message has seen the same messages (sections 4.4.3 and 4.4.4 of RFC 8446).
 */
module TlsBinding {
  import opened Wrappers
  import opened TlsMessages
  import opened TlsSession
  import opened TlsAgreement
  import opened TlsHandshake
  import opened TlsSecrets
  import Client = TlsClient
  import Server = TlsServer

  /** Message authentication without collisions, and signatures that verify for what was signed only. */
  ghost predicate Authentic(c: Crypto) {
    && (forall alg, alg', k, k', h, h' :: c.finish(alg, k, h) == c.finish(alg', k', h')
                                          ==> alg == alg' && k == k' && h == h')
    && (forall cert, key, scheme, scheme', h, h' :: c.verify(cert, scheme, c.sign(key, scheme', h'), h) ==> h == h')
  }

  // ----- Every message is hashed -----

  /** What a client hashes: the messages up to here, once it has sent a hello. */
  ghost function Hashed(st: Client.ClientState): Option<seq<Message>> {
    match st
    case CWaitSH(_, _, _, _, first, retry, hello) => Some(ToSeq(first) + ToSeq(retry) + [ClientHello(hello)])
    case CWaitEE(keys, _) => Some(keys.transcript)
    case CWaitCertCR(keys) => Some(keys.transcript)
    case CWaitCert(keys, _) => Some(keys.transcript)
    case CWaitCV(keys, _, _) => Some(keys.transcript)
    case CWaitFinished(keys, _) => Some(keys.transcript)
    case _ => None
  }

  lemma ClientHashes(c: Crypto, st: Client.ClientState, m: Message)
    requires ClientWaits(st)
    ensures var st' := Client.ClientNext(c, st, m).0; ClientWaits(st') ==> Hashed(st') == Some(Hashed(st).value + [m])
  {
    if st.CWaitSH? {
      assert ToSeq(st.first) + ToSeq(st.retry) + [ClientHello(st.hello), m] == Hashed(st).value + [m];
    }
  }

  lemma RunFirst(c: Crypto, st: Client.ClientState, conn: Conn, records: seq<Record>)
    requires ClientWaits(st) && records != []
    ensures var (next, actions) := ClientReads(c, st, conn, records[0]);
            ClientRun(c, st, conn, records).state == ClientRun(c, next, ActAll(conn, actions), records[1..]).state
  {
  }

  lemma RunEnds(c: Crypto, st: Client.ClientState, conn: Conn, records: seq<Record>)
    requires records == [] || !ClientWaits(st)
    ensures ClientRun(c, st, conn, records).state == st
  {
  }

  lemma HashedFirst(before: seq<Message>, records: seq<Record>)
    requires records != []
    ensures before + Messages(records) == before + [records[0].message] + Messages(records[1..])
  {
  }

  /** A client that still waits has hashed every message it was given. */
  lemma {:induction false} ClientHashesAll(c: Crypto, st: Client.ClientState, conn: Conn, records: seq<Record>)
    requires ClientWaits(st) && ClientWaits(ClientRun(c, st, conn, records).state)
    ensures Hashed(ClientRun(c, st, conn, records).state) == Some(Hashed(st).value + Messages(records))
    decreases |records|
  {
    hide Client.ClientNext, Hashed, ActAll, ClientRun, ClientWaits;
    WaitingHashes(st);
    if records == [] {
      RunEnds(c, st, conn, records);
      assert Hashed(st).value + [] == Hashed(st).value;
    } else {
      var (next, actions) := ClientReads(c, st, conn, records[0]);
      RunFirst(c, st, conn, records);
      if !ClientWaits(next) {
        RunEnds(c, next, ActAll(conn, actions), records[1..]);
      } else {
        FailedWaitsNot();
        ClientHashes(c, st, records[0].message);
        ClientHashesAll(c, next, ActAll(conn, actions), records[1..]);
        HashedFirst(Hashed(st).value, records);
      }
    }
  }

  lemma FailedWaitsNot()
    ensures forall why :: !ClientWaits(Client.CFailed(why))
  {
  }

  lemma WaitingHashes(st: Client.ClientState)
    requires ClientWaits(st)
    ensures Hashed(st).Some?
  {
  }

  // ----- What acceptance means -----

  /** The transcript in front of a server's Finished message. */
  ghost function ServerHashed(c: Crypto, scfg: Server.ServerConfig, neg: Server.Negotiated, random: Bytes): seq<Message>
    requires neg.params.suite in SUITES && (neg.params.usingPsk || neg.cert.Some?)
  {
    var ks := Server.KeySchedule(c, neg, random);
    ks.transcript + [Server.Extensions(neg)] + ServerAuth(c, scfg, neg, ks)
  }

  /**
   Whatever a client has been given: if it gets connected by the Finished message of some server, then the two have
   hashed the same messages. So the server has seen the client's hellos, and the client the server's flight, unchanged.
   */
  lemma ConnectedMeansSameMessages(c: Crypto, st: Client.ClientState, conn: Conn, records: seq<Record>,
                                   scfg: Server.ServerConfig, neg: Server.Negotiated, random: Bytes)
    requires Injective(c) && Authentic(c) && st.CWaitSH?
    requires neg.params.suite in SUITES && (neg.params.usingPsk || neg.cert.Some?)
    requires var end := ClientRun(c, st, conn, records);
             var flight := FlightRecords(c, scfg, neg, Server.KeySchedule(c, neg, random));
             && ClientWaits(end.state)
             && Client.ClientNext(c, end.state, flight[|flight| - 1].message).0.CConnected?
    ensures ToSeq(st.first) + ToSeq(st.retry) + [ClientHello(st.hello)] + Messages(records)
            == ServerHashed(c, scfg, neg, random)
  {
    hide ClientRun, Server.KeySchedule, ServerAuth, Client.CertificateFlight, Messages;
    ClientHashesAll(c, st, conn, records);
    var ks := Server.KeySchedule(c, neg, random);
    var end := ClientRun(c, st, conn, records).state;
    assert end.CWaitFinished?;
    assert c.FinishedData(end.keys.alg, end.keys.serverHandshake, end.keys.transcript)
           == c.FinishedData(ks.alg, ks.serverHandshake, ServerHashed(c, scfg, neg, random));
  }

  /** The same for a signature: it is accepted only by a client with the signer's messages in front of it. */
  lemma SignatureMeansSameMessages(c: Crypto, st: Client.ClientState, conn: Conn, records: seq<Record>,
                                   alg: HashAlg, key: Bytes, scheme: nat, scheme': nat, t: seq<Message>)
    requires Injective(c) && Authentic(c) && st.CWaitSH?
    requires var end := ClientRun(c, st, conn, records).state;
             && end.CWaitCV?
             && !Client.ClientNext(c, end, CertificateVerify(scheme, c.sign(key, scheme', c.digest(alg, t)))).0.CFailed?
    ensures ToSeq(st.first) + ToSeq(st.retry) + [ClientHello(st.hello)] + Messages(records) == t
  {
    hide ClientRun, Messages;
    ClientHashesAll(c, st, conn, records);
    var end := ClientRun(c, st, conn, records).state;
    assert c.verify(end.chain[0], scheme, c.sign(key, scheme', c.digest(alg, t)),
                    c.digest(end.keys.alg, end.keys.transcript));
  }

  /** A server that has sent its flight hashes every message it takes, until it is connected. */
  lemma ServerHashes(c: Crypto, st: Server.ServerState, m: Message)
    requires st.SWaitEoed? || st.SWaitCert? || st.SWaitCV?
    ensures var st' := Server.ServerNext(c, st, m).0;
            !st'.SFailed? ==> (st'.SWaitFlight2? || st'.SWaitCV? || st'.SWaitFinished?)
                              && st'.keys == st.keys.(transcript := st.keys.transcript + [m])
  {
  }

  /** It gets connected by a client's Finished message if and only if the client holds its key and its messages. */
  lemma ServerConnectsIff(c: Crypto, st: Server.ServerState, alg: HashAlg, base: Bytes, t: seq<Message>)
    requires Injective(c) && Authentic(c) && st.SWaitFinished?
    ensures Server.ServerNext(c, st, Finished(c.finish(alg, base, c.digest(alg, t)))).0.SConnected?
            <==> alg == st.keys.alg && base == st.keys.clientHandshake && t == st.keys.transcript
  {
    assert c.FinishedData(st.keys.alg, st.keys.clientHandshake, st.keys.transcript)
           == c.finish(st.keys.alg, st.keys.clientHandshake, c.digest(st.keys.alg, st.keys.transcript));
  }

  /** And it accepts a signature only over its own messages. */
  lemma ServerAcceptsSignature(c: Crypto, st: Server.ServerState, alg: HashAlg, key: Bytes, scheme: nat, scheme': nat,
                               t: seq<Message>)
    requires Injective(c) && Authentic(c) && st.SWaitCV?
    requires !Server.ServerNext(c, st, CertificateVerify(scheme, c.sign(key, scheme', c.digest(alg, t)))).0.SFailed?
    ensures t == st.keys.transcript && Passes(st.keys.judge, st.chain)
  {
    assert c.verify(st.chain[0], scheme, c.sign(key, scheme', c.digest(alg, t)),
                    c.digest(st.keys.alg, st.keys.transcript));
  }

  // ----- Pre-shared keys -----

  /** A binder is made with one key, for one purpose and over one sequence of messages. */
  lemma BinderBinds(c: Crypto, alg: HashAlg, psk: Psk, t: seq<Message>, alg': HashAlg, psk': Psk, t': seq<Message>)
    requires Injective(c) && Authentic(c) && c.Binder(alg, psk, t) == c.Binder(alg', psk', t')
    ensures alg == alg' && psk.key == psk'.key && psk.isResumption == psk'.isResumption && t == t'
  {
  }

  /** So a server takes a pre-shared key only if the binder was made with that key, for the hello that it has got. */
  lemma {:induction false} ChosenKeyIsHeld(c: Crypto, offer: PskOffer, context: seq<Message>, psks: map<Bytes, Psk>,
                                           ageOk: Bytes -> bool, i: nat, alg: HashAlg, psk: Psk, t: seq<Message>)
    requires Injective(c) && Authentic(c) && i <= |offer.identities|
    requires var choice := Server.NegotiatePsk(c, offer, context, psks, ageOk, i);
             choice.PskChosen? && choice.index < |offer.binders| && offer.binders[choice.index] == c.Binder(alg, psk, t)
    ensures var choice := Server.NegotiatePsk(c, offer, context, psks, ageOk, i);
            && choice.psk.key == psk.key && choice.alg == alg && context == t
            && i <= choice.index < |offer.identities| && offer.identities[choice.index] in psks
            && psks[offer.identities[choice.index]] == choice.psk
            && forall j :: i <= j < choice.index ==> offer.identities[j] !in psks
    decreases |offer.identities| - i
  {
    hide Injective, Authentic;
    if offer.identities[i] !in psks {
      ChosenKeyIsHeld(c, offer, context, psks, ageOk, i + 1, alg, psk, t);
    } else {
      var key := psks[offer.identities[i]];
      BinderBinds(c, SUITES[key.suite], key, context, alg, psk, t);
    }
  }
}
