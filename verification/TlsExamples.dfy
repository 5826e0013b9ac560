/** One instance of the cryptography in which all its laws hold, and runs with it that get to the end. */
module TlsExamples {
  import opened Wrappers
  import opened TlsMessages
  import opened TlsSession
  import opened TlsAgreement
  import opened TlsHandshake
  import opened TlsRuns
  import opened TlsEncoding
  import opened TlsSecrets
  import opened TlsBinding
  import Client = TlsClient
  import Server = TlsServer

  function Number(l: Label): nat {
    match l
    case ExternalBinder => 0
    case ResumptionBinder => 1
    case EarlyTraffic => 2
    case ClientHandshake => 3
    case ServerHandshake => 4
    case ClientTraffic => 5
    case ServerTraffic => 6
    case Exporter => 7
    case Resumption => 8
    case Derived => 9
  }

  function Sealed(cookie: Cookie): Bytes {
    [cookie.suite, |cookie.helloDigest|] + cookie.helloDigest + cookie.application
  }

  function Opened(b: Bytes): Option<Cookie> {
    if |b| >= 2 && b[1] + 2 <= |b| then Some(Cookie(b[0], b[2..2 + b[1]], b[2 + b[1]..])) else None
  }

  function Mark(alg: HashAlg): nat {
    if alg.SHA256? then 0 else 1
  }

  /** Hashes and secrets are what goes into them, written in parts; a public key is the private one. */
  function Toy(): Crypto {
    Crypto((alg, ms: seq<Message>) => [Mark(alg)] + Parts(OfMessages(ms)),
           (alg, salt, key) => [Mark(alg)] + Parts([salt, key]),
           (alg, base, l, h) => [Mark(alg), Number(l)] + Parts([base, h]),
           (alg, key, h) => [Mark(alg)] + Parts([key, h]), alg => [],
           (g, priv) => Some(priv), (g, public, priv) => Some([|public| + |priv|]), (scheme, key) => true,
           (key, scheme, h) => h, (cert, scheme, signature, h) => signature == h,
           (cookie, nonce) => Sealed(cookie), b => Opened(b))
  }

  lemma OpensSealed(cookie: Cookie)
    ensures Opened(Sealed(cookie)) == Some(cookie)
  {
    var b := Sealed(cookie);
    assert b[2..2 + |cookie.helloDigest|] == cookie.helloDigest && b[2 + |cookie.helloDigest|..] == cookie.application;
  }

  lemma PairIs(a: nat, x: Bytes, y: Bytes, a': nat, x': Bytes, y': Bytes)
    requires [a] + Parts([x, y]) == [a'] + Parts([x', y'])
    ensures a == a' && x == x' && y == y'
  {
    hide Parts;
    var p, p' := [a] + Parts([x, y]), [a'] + Parts([x', y']);
    assert p[0] == a && p'[0] == a' && p[1..] == Parts([x, y]) && p'[1..] == Parts([x', y']);
    PartsAre([x, y], [x', y']);
    assert [x, y][0] == x && [x, y][1] == y && [x', y'][0] == x' && [x', y'][1] == y';
  }

  lemma DigestsDiffer(alg: HashAlg, t: seq<Message>, alg': HashAlg, t': seq<Message>)
    requires Toy().digest(alg, t) == Toy().digest(alg', t')
    ensures alg == alg' && t == t'
  {
    hide Parts, OfMessages;
    var p, p' := Toy().digest(alg, t), Toy().digest(alg', t');
    assert p[0] == Mark(alg) && p'[0] == Mark(alg');
    assert p[1..] == Parts(OfMessages(t)) && p'[1..] == Parts(OfMessages(t'));
    TranscriptIs(t, t');
  }

  lemma DerivedDiffer(alg: HashAlg, b: Bytes, l: Label, h: Bytes, alg': HashAlg, b': Bytes, l': Label, h': Bytes)
    requires Toy().derive(alg, b, l, h) == Toy().derive(alg', b', l', h')
    ensures alg == alg' && b == b' && l == l' && h == h'
  {
    hide Parts;
    var p, p' := Toy().derive(alg, b, l, h), Toy().derive(alg', b', l', h');
    assert p[0] == Mark(alg) && p'[0] == Mark(alg') && p[1] == Number(l) && p'[1] == Number(l');
    assert p[1..] == [Number(l)] + Parts([b, h]) && p'[1..] == [Number(l')] + Parts([b', h']);
    PairIs(Number(l), b, h, Number(l'), b', h');
  }

  lemma ToyIsInjective()
    ensures Injective(Toy()) && Authentic(Toy())
  {
    hide Parts, OfMessages;
    forall alg, alg', t, t' | Toy().digest(alg, t) == Toy().digest(alg', t') ensures alg == alg' && t == t' {
      DigestsDiffer(alg, t, alg', t');
    }
    forall alg, alg', s, s', k, k' | Toy().extract(alg, s, k) == Toy().extract(alg', s', k')
      ensures alg == alg' && s == s' && k == k'
    {
      PairIs(Mark(alg), s, k, Mark(alg'), s', k');
    }
    forall alg, alg', b, b', l, l', h, h' | Toy().derive(alg, b, l, h) == Toy().derive(alg', b', l', h')
      ensures alg == alg' && b == b' && l == l' && h == h'
    {
      DerivedDiffer(alg, b, l, h, alg', b', l', h');
    }
    forall alg, alg', k, k', h, h' | Toy().finish(alg, k, h) == Toy().finish(alg', k', h')
      ensures alg == alg' && k == k' && h == h'
    {
      PairIs(Mark(alg), k, h, Mark(alg'), k', h');
    }
  }

  lemma ToyBinds()
    ensures Toy().Binds()
  {
    hide Parts, OfMessages, Toy, Injective, Authentic;
    forall alg, alg', psk, psk', t, t' | Toy().Binder(alg, psk, t) == Toy().Binder(alg', psk', t') ensures |t| == |t'| {
      ToyIsInjective();
      BinderBinds(Toy(), alg, psk, t, alg', psk', t');
    }
  }

  /** The laws that the theorems assume hold together. */
  lemma LawsHold(cert: Cert)
    requires cert.chain != []
    ensures Toy().Agrees() && Toy().Opens() && Toy().Separates() && Toy().Binds() && Toy().Signs(cert)
    ensures Injective(Toy()) && Authentic(Toy())
  {
    ToyIsInjective();
    ToyBinds();
    forall cookie, nonce ensures Toy().open(Toy().seal(cookie, nonce)) == Some(cookie) {
      OpensSealed(cookie);
    }
  }

  const CERT := Cert([[1]], [7], ["s"])
  const KEY := Psk(0x1301, false, [9], [3], "")

  function ClientWith(psks: map<string, Psk>, earlyData: Bytes): Client.ClientConfig {
    Client.ClientConfig([0x1301], [1], [2], psks, [PskWithDh], [CERT], "s", [], earlyData, Some(chain => false), m =>
                        true)
  }

  function ServerWith(psks: map<Bytes, Psk>, judge: Judge): Server.ServerConfig {
    Server.ServerConfig([0x1301], [1], [2], psks, [CERT], [], true, false, true, judge, m => true)
  }

  function Input(): Server.ServerInput {
    Server.ServerInput(i => [6], [], Server.NoHandler, true, id => true)
  }

  // ----- Up to the server's flight -----

  /** The hello of these clients. */
  function HelloFor(psk: bool, earlyData: Bytes): Hello {
    var base := Hello([], [0x1301], Some([SUPPORTED_VERSION]), Some("s"), [KeyShare(1, [5])], Some([1]), Some([2]), [],
                      [], false, [], None);
    if psk then
      var open := base.(earlyData := earlyData != [], modes := [PskWithDh], psk := Some(PskOffer([[9]], [])));
      open.(psk := Some(PskOffer([[9]], [Toy().Binder(SHA256, KEY, [Truncation(open)])])))
    else
      base
  }

  function Private(): nat -> Bytes {
    i => [5]
  }

  function ClientOf(psk: bool, earlyData: Bytes): Client.ClientConfig {
    ClientWith(if psk then map["s" := KEY] else map[], earlyData)
  }

  function ServerOf(psk: bool, judge: Judge): Server.ServerConfig {
    ServerWith(if psk then map[[9] := KEY] else map[], judge)
  }

  lemma SetupHolds(psk: bool, earlyData: Bytes, judge: Judge)
    ensures Setup(Toy(), ClientOf(psk, earlyData), ServerOf(psk, judge))
  {
    LawsHold(CERT);
  }

  lemma ClientOffers(psk: bool, earlyData: Bytes)
    requires earlyData != [] ==> psk
    ensures var (st, actions) := Client.ClientStart(Toy(), Client.CStart(ClientOf(psk, earlyData), None, None, None),
                                                    [], Private());
            st.CWaitSH? && st.hello == HelloFor(psk, earlyData)
  {
    assert Client.Shares(Toy(), [1], Private(), 1) == Some(([], map[]));
    assert Client.Shares(Toy(), [1], Private(), 0) == Some(([KeyShare(1, [5])] + [], map[1 := [5]] + map[]));
    assert [KeyShare(1, [5])] + [] == [KeyShare(1, [5])];
    assert Client.WithHash([0x1301], SHA256) == [0x1301] + Client.WithHash([], SHA256) == [0x1301];
  }

  lemma KeyIsChosen(psk: bool, earlyData: Bytes, judge: Judge)
    ensures Server.ChoosePsk(Toy(), ServerOf(psk, judge), HelloFor(psk, earlyData), None, Input())
            == if psk then Server.PskChosen(0, KEY, SHA256) else Server.PskNone
  {
    hide Toy;
    if psk {
      var hello := HelloFor(psk, earlyData);
      var open := hello.(psk := Some(PskOffer([[9]], [])));
      assert [] + [Truncation(hello)] == [Truncation(open)];
      assert hello.psk.value.binders == [Toy().Binder(SHA256, KEY, [Truncation(open)])];
    }
  }

  lemma ServerNegotiates(psk: bool, earlyData: Bytes, judge: Judge)
    requires earlyData != [] ==> psk
    ensures var (st, actions) := Server.OnClientHello(Toy(), ServerOf(psk, judge), HelloFor(psk, earlyData), Input());
            st.SNegotiated? && st.neg.params.usingPsk == psk && st.neg.params.suite == 0x1301
  {
    hide Server.ChoosePsk;
    KeyIsChosen(psk, earlyData, judge);
    assert Server.NegotiateDh(Toy(), HelloFor(psk, earlyData).keyShares, [1], Input().priv, 0).Some?;
  }

  lemma FirstStep(psk: bool, earlyData: Bytes, judge: Judge)
    requires earlyData != [] ==> psk
    ensures var s, step := Fresh(ClientOf(psk, earlyData), ServerOf(psk, judge)), ClientStarts([], Private());
            && Enabled(s, step) && Offering(Toy(), ClientOf(psk, earlyData), ServerOf(psk, judge), Next(Toy(), s, step))
            && Next(Toy(), s, step).client.hello == HelloFor(psk, earlyData)
  {
    hide Offering, Client.ClientStart, Toy, ClientOf, ServerOf;
    var c, cfg, scfg := Toy(), ClientOf(psk, earlyData), ServerOf(psk, judge);
    SetupHolds(psk, earlyData, judge);
    StartingStep(c, cfg, scfg, Fresh(cfg, scfg), ClientStarts([], Private()));
    ClientOffers(psk, earlyData);
  }

  lemma SecondStep(psk: bool, earlyData: Bytes, judge: Judge, s: Session)
    requires earlyData != [] ==> psk
    requires Offering(Toy(), ClientOf(psk, earlyData), ServerOf(psk, judge), s)
             && s.client.hello == HelloFor(psk, earlyData)
    ensures Enabled(s, ServerReceives(Input())) && Next(Toy(), s, ServerReceives(Input())).server.SNegotiated?
    ensures Next(Toy(), s, ServerReceives(Input())).server.neg.params.usingPsk == psk
    ensures Next(Toy(), s, ServerReceives(Input())).server.neg.params.suite == 0x1301
    ensures Answering(Toy(), ClientOf(psk, earlyData), ServerOf(psk, judge), Next(Toy(), s, ServerReceives(Input())))
  {
    hide Answering, Server.OnClientHello, Toy, ClientOf, HelloFor, OfferOk, HistoryOk;
    var c, cfg, scfg := Toy(), ClientOf(psk, earlyData), ServerOf(psk, judge);
    SetupHolds(psk, earlyData, judge);
    assert s.toServer[0] == Record(None, ClientHello(s.client.hello));
    ServerNegotiates(psk, earlyData, judge);
    OfferingStep(c, cfg, scfg, s, ServerReceives(Input()));
  }

  lemma ThirdStep(psk: bool, earlyData: Bytes, judge: Judge, s: Session)
    requires Answering(Toy(), ClientOf(psk, earlyData), ServerOf(psk, judge), s) && s.server.neg.params.suite == 0x1301
    ensures Enabled(s, ServerSends([])) && Late(Next(Toy(), s, ServerSends([])).server)
  {
    hide AfterFlight, Server.FirstFlight, Toy, OfferOk, EarlyRecords, WaitingConn, ActAll, Written,
         Server.KeySchedule, FlightRecords;
    assert SUITES[0x1301] == SHA256;
    FlightIsSent(Toy(), s.server.cfg, s.server.neg, []);
  }

  /** The client starts, the server negotiates and sends its flight. */
  lemma FlightIsReached(psk: bool, earlyData: Bytes, judge: Judge) returns (ss: seq<Session>, steps: seq<Step>)
    requires earlyData != [] ==> psk
    ensures IsRun(Toy(), ClientOf(psk, earlyData), ServerOf(psk, judge), ss, steps) && SendsFlight(ss, steps, 2)
    ensures ss[2].server.neg.params.usingPsk == psk
  {
    hide Next, Enabled, Offering, Answering, Toy, ClientOf, ServerOf, Takes;
    var c, cfg, scfg := Toy(), ClientOf(psk, earlyData), ServerOf(psk, judge);
    var s0, step0 := Fresh(cfg, scfg), ClientStarts([], Private());
    FirstStep(psk, earlyData, judge);
    var s1, step1 := Next(c, s0, step0), ServerReceives(Input());
    SecondStep(psk, earlyData, judge, s1);
    var s2, step2 := Next(c, s1, step1), ServerSends([]);
    ThirdStep(psk, earlyData, judge, s2);
    ss, steps := [s0], [];
    LongerRun(c, cfg, scfg, ss, steps, step0);
    ss, steps := ss + [s1], steps + [step0];
    LongerRun(c, cfg, scfg, ss, steps, step1);
    ss, steps := ss + [s2], steps + [step1];
    LongerRun(c, cfg, scfg, ss, steps, step2);
    ss, steps := ss + [Next(c, s2, step2)], steps + [step2];
  }

  lemma RefusalIs(psk: bool, earlyData: Bytes, judge: Judge, neg: Server.Negotiated, random: Bytes)
    ensures !ClientRefuses(ClientOf(psk, earlyData), neg, random)
    ensures ServerRefuses(Toy(), ClientOf(psk, earlyData), ServerOf(psk, judge), psk)
            <==> !psk && !Passes(judge, CERT.chain)
  {
    assert FirstUsable(Toy(), [2], CERT.key) == Some(2);
    assert SelectByScheme(Toy(), [2], [CERT]) == Some((CERT, 2));
  }

  /**
   With and without a pre-shared key and early data the two ends get connected, although the judge of the client's
   application refuses every certificate. A judge of the server's application that refuses the client's certificate
   leaves the client connected and the server failed.
   */
  lemma RunsEnd(psk: bool, earlyData: Bytes, judge: Judge) returns (ss: seq<Session>, steps: seq<Step>)
    requires earlyData != [] ==> psk
    ensures IsRun(Toy(), ClientOf(psk, earlyData), ServerOf(psk, judge), ss, steps) && AtRest(ss[|steps|])
    ensures if psk || Passes(judge, CERT.chain) then Agreed(EndsOf(ss[|steps|]), earlyData)
            else ss[|steps|].client.CConnected? && ss[|steps|].server == Server.SFailed(BadCertificate)
  {
    hide Next, Enabled, Takes, Toy, ServerOf, ClientRefuses, ServerRefuses, Agreed, AtRest;
    var c, cfg, scfg := Toy(), ClientOf(psk, earlyData), ServerOf(psk, judge);
    SetupHolds(psk, earlyData, judge);
    ss, steps := FlightIsReached(psk, earlyData, judge);
    RefusalIs(psk, earlyData, judge, ss[2].server.neg, steps[2].random);
    ss, steps := ComesToRest(c, cfg, scfg, ss, steps, 2);
    HandshakeCompletesIff(c, cfg, scfg, ss, steps, 2, |steps|);
  }
}
