/**
 Every run of a session, from two fresh ends on: what the ends agree on, that they do not fail late, and that they
 finish.
 */
module TlsRuns {
  import opened Wrappers
  import opened TlsMessages
  import opened TlsSession
  import opened TlsAgreement
  import opened TlsHandshake
  import Client = TlsClient
  import Server = TlsServer

  function Fresh(cfg: Client.ClientConfig, scfg: Server.ServerConfig): Session {
    Session(Client.CStart(cfg, None, None, None), FRESH, Server.SStart(scfg), FRESH, [], [])
  }

  ghost predicate IsRun(c: Crypto, cfg: Client.ClientConfig, scfg: Server.ServerConfig, ss: seq<Session>,
                        steps: seq<Step>) {
    && |ss| == |steps| + 1 && ss[0] == Fresh(cfg, scfg)
    && forall i :: 0 <= i < |steps| ==> Takes(c, ss[i], steps[i], ss[i + 1])
  }

  ghost predicate Takes(c: Crypto, s: Session, step: Step, s': Session) {
    Enabled(s, step) && s' == Next(c, s, step)
  }

  // ----- Where a session can be -----

  /** A retry narrows the client's suites and changes nothing else of its configuration. */
  ghost predicate SameConfig(cfg: Client.ClientConfig, now: Client.ClientConfig) {
    now == cfg.(suites := now.suites)
  }

  ghost predicate Starting(c: Crypto, cfg: Client.ClientConfig, scfg: Server.ServerConfig, s: Session) {
    && s.client.CStart? && SameConfig(cfg, s.client.cfg) && s.server == Server.SStart(scfg)
    && s.clientConn == FRESH && s.serverConn == FRESH && s.toServer == [] && s.toClient == []
    && (if s.client.cookie.None? then s.client.first.None? && s.client.retry.None?
        else Retried(c, scfg, s.client.first, s.client.retry, s.client.cookie.value))
  }

  ghost predicate Offering(c: Crypto, cfg: Client.ClientConfig, scfg: Server.ServerConfig, s: Session) {
    && s.client.CWaitSH? && SameConfig(cfg, s.client.cfg) && OfferOk(c, s.client) && HistoryOk(c, scfg, s.client)
    && s.server == Server.SStart(scfg) && s.serverConn == FRESH && s.clientConn == WaitingConn(c, s.client)
    && s.toServer == [Record(None, ClientHello(s.client.hello))] + EarlyRecords(c, s.client) && s.toClient == []
  }

  ghost predicate Retrying(c: Crypto, cfg: Client.ClientConfig, scfg: Server.ServerConfig, s: Session) {
    && s.client.CWaitSH? && SameConfig(cfg, s.client.cfg) && s.client.retry.None? && s.server == Server.SStart(scfg)
    && s.clientConn == FRESH && s.serverConn == FRESH && s.toServer == []
    && |s.toClient| == 1 && s.toClient[0].keys.None? && s.toClient[0].message.HelloRetryRequest?
    && var m := s.toClient[0].message;
       && m.suite in SUITES && m.cookie.Some? && m.cookie.value != [] && c.open(m.cookie.value).Some?
       && scfg.requireCookie
       && m == Server.Retry(m.suite, m.cookie.value)
       && c.open(m.cookie.value).value.suite == m.suite
       && c.open(m.cookie.value).value.helloDigest == c.digest(SUITES[m.suite], [ClientHello(s.client.hello)])
  }

  ghost predicate Answering(c: Crypto, cfg: Client.ClientConfig, scfg: Server.ServerConfig, s: Session) {
    && s.client.CWaitSH? && SameConfig(cfg, s.client.cfg) && OfferOk(c, s.client)
    && s.server.SNegotiated? && s.server.cfg == scfg && NegOk(c, scfg, s.client, s.server.neg)
    && s.serverConn == FRESH && s.clientConn == WaitingConn(c, s.client)
    && s.toServer == EarlyRecords(c, s.client) && s.toClient == []
  }

  /** The server's flight is on its way, and the outcome is fixed: agreement, or a refusal by an application. */
  ghost predicate Settled(c: Crypto, cfg: Client.ClientConfig, s: Session, clientRefuses: bool, serverRefuses: bool) {
    (Late(s.server) || s.server.SFailed?) && Decided(Outcome(c, s), cfg.earlyData, clientRefuses, serverRefuses)
  }

  /** The handshake has failed before the server's flight, or is about to. */
  ghost predicate Lost(s: Session) {
    || s.server.SFailed?
    || (s.client.CFailed? && s.server.SStart? && s.toServer == [])
    || (s.server.SStart? && s.serverConn == FRESH && s.toServer != [] && s.toServer[0].message.ApplicationData?)
  }

  ghost predicate Inv(c: Crypto, cfg: Client.ClientConfig, scfg: Server.ServerConfig, s: Session) {
    || Lost(s) || Starting(c, cfg, scfg, s) || Offering(c, cfg, scfg, s) || Retrying(c, cfg, scfg, s)
    || Answering(c, cfg, scfg, s) || exists x, y :: Settled(c, cfg, s, x, y)
  }

  // ----- Every step keeps the session in one of these places -----

  lemma StartingStep(c: Crypto, cfg: Client.ClientConfig, scfg: Server.ServerConfig, s: Session, step: Step)
    requires Setup(c, cfg, scfg) && Starting(c, cfg, scfg, s) && Enabled(s, step)
    ensures var s' := Next(c, s, step); if s'.client.CWaitSH? then Offering(c, cfg, scfg, s') else Lost(s')
  {
    assert step.ClientStarts?;
    StartOffers(c, s.client, FRESH, step.random, step.priv);
    var s' := Next(c, s, step);
    if s'.client.CWaitSH? {
      var sent := [Record(None, ClientHello(s'.client.hello))] + EarlyRecords(c, s'.client);
      assert [] + sent == sent;
      assert Offering(c, cfg, scfg, s');
    } else {
      assert Client.ClientStart(c, s.client, step.random, step.priv).1 == [];
      assert Lost(s');
    }
  }

  lemma OfferingStep(c: Crypto, cfg: Client.ClientConfig, scfg: Server.ServerConfig, s: Session, step: Step)
    requires Setup(c, cfg, scfg) && Offering(c, cfg, scfg, s) && Enabled(s, step)
    ensures var s' := Next(c, s, step);
            if s'.server.SNegotiated? then Answering(c, cfg, scfg, s') else Retrying(c, cfg, scfg, s') || Lost(s')
  {
    assert step.ServerReceives?;
    var s' := Next(c, s, step);
    assert s.toServer[0] == Record(None, ClientHello(s.client.hello)) && s'.toServer == EarlyRecords(c, s.client);
    var result := Server.OnClientHello(c, scfg, s.client.hello, step.input);
    NegotiationFits(c, scfg, s.client, step.input);
    assert s'.server == result.0;
    if s'.server.SNegotiated? {
      assert s'.toClient == [];
      assert Answering(c, cfg, scfg, s');
    } else if s'.server.SStart? {
      ActFirst(FRESH, result.1[0], []);
      assert result.1 == [result.1[0]] + [];
      assert s'.toClient == [Record(None, result.1[0].message)];
      if s.client.cfg.earlyData == [] {
        assert Retrying(c, cfg, scfg, s');
      }
    }
  }

  lemma RetryingStep(c: Crypto, cfg: Client.ClientConfig, scfg: Server.ServerConfig, s: Session, step: Step)
    requires Retrying(c, cfg, scfg, s) && Enabled(s, step)
    ensures var s' := Next(c, s, step); Starting(c, cfg, scfg, s') || Lost(s')
  {
    assert step.ClientReceives?;
    var s' := Next(c, s, step);
    assert s'.toClient == [] && s'.toServer == [];
  }

  lemma AnsweringStep(c: Crypto, cfg: Client.ClientConfig, scfg: Server.ServerConfig, s: Session, step: Step)
    requires Setup(c, cfg, scfg) && Answering(c, cfg, scfg, s) && Enabled(s, step)
    ensures step.ServerSends?
    ensures var s' := Next(c, s, step);
            || s'.server.SFailed?
            || (Late(s'.server) && Settled(c, cfg, s', ClientRefuses(cfg, s.server.neg, step.random),
                                           ServerRefuses(c, cfg, scfg, s.server.neg.params.usingPsk)))
  {
    hide Decided, Outcome;
    assert step.ServerSends?;
    if Late(Next(c, s, step).server) {
      FlightDecides(c, s, step.random);
    }
  }

  lemma SettledStep(c: Crypto, cfg: Client.ClientConfig, s: Session, step: Step, x: bool, y: bool)
    requires Settled(c, cfg, s, x, y) && Enabled(s, step)
    ensures Settled(c, cfg, Next(c, s, step), x, y)
  {
    assert !s.client.CStart?;
    if Late(s.server) {
      OutcomeIsStable(c, s, step);
    } else {
      FailureIsStable(c, s, step);
    }
  }

  lemma LostStep(c: Crypto, s: Session, step: Step)
    requires Lost(s) && Enabled(s, step)
    ensures Lost(Next(c, s, step))
  {
  }

  lemma StepKeepsInv(c: Crypto, cfg: Client.ClientConfig, scfg: Server.ServerConfig, s: Session, step: Step)
    requires Setup(c, cfg, scfg) && Inv(c, cfg, scfg, s) && Enabled(s, step)
    ensures Inv(c, cfg, scfg, Next(c, s, step))
  {
    if Lost(s) {
      LostStep(c, s, step);
    } else if Starting(c, cfg, scfg, s) {
      StartingStep(c, cfg, scfg, s, step);
    } else if Offering(c, cfg, scfg, s) {
      OfferingStep(c, cfg, scfg, s, step);
    } else if Retrying(c, cfg, scfg, s) {
      RetryingStep(c, cfg, scfg, s, step);
    } else if Answering(c, cfg, scfg, s) {
      AnsweringStep(c, cfg, scfg, s, step);
    } else {
      var x, y :| Settled(c, cfg, s, x, y);
      SettledStep(c, cfg, s, step, x, y);
    }
  }

  lemma {:induction false} RunKeepsInv(c: Crypto, cfg: Client.ClientConfig, scfg: Server.ServerConfig, ss: seq<Session>,
                                       steps: seq<Step>, i: nat)
    requires Setup(c, cfg, scfg) && IsRun(c, cfg, scfg, ss, steps) && i < |ss|
    ensures Inv(c, cfg, scfg, ss[i])
  {
    if i == 0 {
      assert Starting(c, cfg, scfg, ss[0]);
    } else {
      RunKeepsInv(c, cfg, scfg, ss, steps, i - 1);
      assert Takes(c, ss[i - 1], steps[i - 1], ss[i]);
      StepKeepsInv(c, cfg, scfg, ss[i - 1], steps[i - 1]);
    }
  }

  // ----- What follows for every run -----

  lemma {:induction false} ConnectedServerStays(c: Crypto, st: Server.ServerState, conn: Conn, records: seq<Record>)
    requires st.SConnected?
    ensures ServerRun(c, st, conn, records).state == st
    decreases |records|
  {
    if records != [] && Absorbs(conn, records[0]) {
      ConnectedServerStays(c, st, Absorbed(conn, records[0]), records[1..]);
    }
  }

  /** If both ends get connected, they hold the same parameters and the same four secrets. */
  lemma EndsAgree(c: Crypto, cfg: Client.ClientConfig, scfg: Server.ServerConfig, ss: seq<Session>, steps: seq<Step>,
                  i: nat)
    requires Setup(c, cfg, scfg) && IsRun(c, cfg, scfg, ss, steps) && i < |ss|
    requires ss[i].client.CConnected? && ss[i].server.SConnected?
    ensures ss[i].client.conn == ss[i].server.conn
  {
    RunKeepsInv(c, cfg, scfg, ss, steps, i);
    var s := ss[i];
    ConnectedServerStays(c, s.server, s.serverConn, s.toServer + ClientRun(c, s.client, s.clientConn, s.toClient).sent);
  }

  /** Step `j` of the run is the server's flight, and it gets sent. */
  ghost predicate SendsFlight(ss: seq<Session>, steps: seq<Step>, j: nat) {
    && j < |steps| && j + 1 < |ss| && steps[j].ServerSends? && ss[j].server.SNegotiated? && Late(ss[j + 1].server)
  }

  lemma NegotiatedIsAnswering(c: Crypto, cfg: Client.ClientConfig, scfg: Server.ServerConfig, s: Session)
    requires Inv(c, cfg, scfg, s) && s.server.SNegotiated?
    ensures Answering(c, cfg, scfg, s)
  {
    hide Decided, Outcome, NegOk, OfferOk;
  }

  /** After the server's flight, the refusals that were on their way with it decide every state of the run. */
  lemma {:induction false} FlightSettles(c: Crypto, cfg: Client.ClientConfig, scfg: Server.ServerConfig,
                                         ss: seq<Session>, steps: seq<Step>,
                                         j: nat, k: nat)
    requires Setup(c, cfg, scfg) && IsRun(c, cfg, scfg, ss, steps) && SendsFlight(ss, steps, j) && j < k < |ss|
    ensures Settled(c, cfg, ss[k], ClientRefuses(cfg, ss[j].server.neg, steps[j].random),
                    ServerRefuses(c, cfg, scfg, ss[j].server.neg.params.usingPsk))
  {
    hide Settled, Answering, Inv, Next, Enabled, ClientRefuses, ServerRefuses, Setup;
    assert Takes(c, ss[k - 1], steps[k - 1], ss[k]);
    if k == j + 1 {
      RunKeepsInv(c, cfg, scfg, ss, steps, j);
      NegotiatedIsAnswering(c, cfg, scfg, ss[j]);
      AnsweringStep(c, cfg, scfg, ss[j], steps[j]);
    } else {
      FlightSettles(c, cfg, scfg, ss, steps, j, k - 1);
      SettledStep(c, cfg, ss[k - 1], steps[k - 1], ClientRefuses(cfg, ss[j].server.neg, steps[j].random),
                  ServerRefuses(c, cfg, scfg, ss[j].server.neg.params.usingPsk));
    }
  }

  lemma SettledFailure(c: Crypto, cfg: Client.ClientConfig, s: Session, x: bool, y: bool)
    requires Settled(c, cfg, s, x, y)
    ensures s.client.CFailed? ==> x && s.client.why == BadExtensions
    ensures s.server.SFailed? ==> !x && y && s.server.why == BadCertificate
  {
  }

  /**
   Once the server's flight is sent, an end fails only because an application refuses: the client when its extension
   handler refuses one of the two messages it is shown, the server when its judge refuses the client's certificate.
   */
  lemma LateFailureIsRefusal(c: Crypto, cfg: Client.ClientConfig, scfg: Server.ServerConfig, ss: seq<Session>,
                             steps: seq<Step>, j: nat, k: nat)
    requires Setup(c, cfg, scfg) && IsRun(c, cfg, scfg, ss, steps) && SendsFlight(ss, steps, j) && j < k < |ss|
    ensures ss[k].client.CFailed? ==> ss[k].client.why == BadExtensions
                                      && ClientRefuses(cfg, ss[j].server.neg, steps[j].random)
    ensures ss[k].server.SFailed? ==>
              && ss[k].server.why == BadCertificate && !ClientRefuses(cfg, ss[j].server.neg, steps[j].random)
              && ServerRefuses(c, cfg, scfg, ss[j].server.neg.params.usingPsk)
  {
    FlightSettles(c, cfg, scfg, ss, steps, j, k);
    SettledFailure(c, cfg, ss[k], ClientRefuses(cfg, ss[j].server.neg, steps[j].random),
                   ServerRefuses(c, cfg, scfg, ss[j].server.neg.params.usingPsk));
  }

  ghost predicate AtRest(s: Session) {
    forall step :: !Enabled(s, step)
  }

  function EndsOf(s: Session): Ends {
    Ends(s.client, s.clientConn, s.server, s.serverConn)
  }

  /** A session in which nothing can happen any more is its own outcome. */
  lemma RestIsOutcome(c: Crypto, s: Session)
    requires AtRest(s) && (Late(s.server) || s.server.SFailed?)
    ensures Outcome(c, s) == EndsOf(s)
  {
    var input := Server.ServerInput(i => [], [], Server.NoHandler, true, id => true);
    assert !Enabled(s, ClientReceives) && !Enabled(s, ServerAbsorbs) && !Enabled(s, ServerReceives(input))
           && !Enabled(s, ServerTurns);
    assert s.toServer + [] == s.toServer;
  }

  /**
   A handshake that gets to the server's flight completes, with agreement at both ends, if and only if no application
   refuses. What the judge of the client's application says does not matter.
   */
  lemma HandshakeCompletesIff(c: Crypto, cfg: Client.ClientConfig, scfg: Server.ServerConfig, ss: seq<Session>,
                              steps: seq<Step>,
                              j: nat, k: nat)
    requires Setup(c, cfg, scfg) && IsRun(c, cfg, scfg, ss, steps) && SendsFlight(ss, steps, j) && j < k < |ss|
             && AtRest(ss[k])
    ensures var clientRefuses := ClientRefuses(cfg, ss[j].server.neg, steps[j].random);
            var serverRefuses := ServerRefuses(c, cfg, scfg, ss[j].server.neg.params.usingPsk);
            && (Agreed(EndsOf(ss[k]), cfg.earlyData) <==> !clientRefuses && !serverRefuses)
            && (ss[k].client == Client.CFailed(BadExtensions) && !ss[k].server.SFailed? <==> clientRefuses)
            && (ss[k].client.CConnected? && ss[k].server == Server.SFailed(BadCertificate) <==> !clientRefuses
                                                                                                && serverRefuses)
  {
    hide Outcome;
    FlightSettles(c, cfg, scfg, ss, steps, j, k);
    RestIsOutcome(c, ss[k]);
  }

  /** A connection hands no judge of certificates to its state machine. */
  function ServerCapabilities(scfg: Server.ServerConfig): Server.ServerConfig {
    scfg.(judge := None)
  }

  /**
   So a connection completes every handshake that gets to the server's flight, whatever both applications think of
   certificates.
   */
  lemma ConnectionsCompleteIff(c: Crypto, cfg: Client.ClientConfig, scfg: Server.ServerConfig, ss: seq<Session>,
                               steps: seq<Step>,
                               j: nat, k: nat)
    requires Setup(c, cfg, ServerCapabilities(scfg)) && IsRun(c, cfg, ServerCapabilities(scfg), ss, steps)
    requires SendsFlight(ss, steps, j) && j < k < |ss| && AtRest(ss[k])
    ensures Agreed(EndsOf(ss[k]), cfg.earlyData) <==> !ClientRefuses(cfg, ss[j].server.neg, steps[j].random)
  {
    HandshakeCompletesIff(c, cfg, ServerCapabilities(scfg), ss, steps, j, k);
  }

  /** A settled session comes to rest. */
  lemma SettledStepsEnd(c: Crypto, cfg: Client.ClientConfig, s: Session, step: Step, x: bool, y: bool)
    requires Settled(c, cfg, s, x, y) && Enabled(s, step)
    ensures var s' := Next(c, s, step);
            || |s'.toClient| < |s.toClient|
            || (|s'.toClient| == |s.toClient| && |s'.toServer| < |s.toServer|)
            || (|s'.toClient| == |s.toClient| && |s'.toServer| == |s.toServer| && s.server.SWaitFlight2?
                && !s'.server.SWaitFlight2?)
  {
    assert !s.client.CStart?;
    if step.ServerReceives? {
      ServerReadingIsStable(c, s, step.input);
    }
  }

  lemma LongerRun(c: Crypto, cfg: Client.ClientConfig, scfg: Server.ServerConfig, ss: seq<Session>, steps: seq<Step>,
                  step: Step)
    requires IsRun(c, cfg, scfg, ss, steps) && Enabled(ss[|steps|], step)
    ensures IsRun(c, cfg, scfg, ss + [Next(c, ss[|steps|], step)], steps + [step])
  {
    hide Next, Enabled;
    var ss', steps' := ss + [Next(c, ss[|steps|], step)], steps + [step];
    forall i | 0 <= i < |steps'| ensures Takes(c, ss'[i], steps'[i], ss'[i + 1]) {
      if i < |steps| {
        assert Takes(c, ss[i], steps[i], ss[i + 1]);
      }
    }
  }

  /** Every run with the server's flight in it can be continued until it comes to rest, and every continuation does. */
  lemma {:induction false} ComesToRest(c: Crypto, cfg: Client.ClientConfig, scfg: Server.ServerConfig, ss: seq<Session>,
                                       steps: seq<Step>, j: nat)
      returns (ss': seq<Session>, steps': seq<Step>)
    requires Setup(c, cfg, scfg) && IsRun(c, cfg, scfg, ss, steps) && SendsFlight(ss, steps, j)
    ensures IsRun(c, cfg, scfg, ss', steps') && ss <= ss' && steps <= steps' && AtRest(ss'[|steps'|])
    decreases |ss[|steps|].toClient|, |ss[|steps|].toServer|, ss[|steps|].server.SWaitFlight2?
  {
    hide Settled, Next, Enabled, ClientRefuses, ServerRefuses, Setup;
    var last := ss[|steps|];
    if AtRest(last) {
      ss', steps' := ss, steps;
    } else {
      var step :| Enabled(last, step);
      FlightSettles(c, cfg, scfg, ss, steps, j, |steps|);
      SettledStepsEnd(c, cfg, last, step, ClientRefuses(cfg, ss[j].server.neg, steps[j].random),
                      ServerRefuses(c, cfg, scfg, ss[j].server.neg.params.usingPsk));
      LongerRun(c, cfg, scfg, ss, steps, step);
      ss', steps' := ComesToRest(c, cfg, scfg, ss + [Next(c, last, step)], steps + [step], j);
    }
  }
}
