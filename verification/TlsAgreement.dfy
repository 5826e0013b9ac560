/**
 What a session ends in once the server's flight is on its way: the outcome does not depend on the
 order of the steps, and both ends hold the same parameters and secrets.
 */
module TlsAgreement {
  import opened Wrappers
  import opened TlsMessages
  import opened TlsSession
  import Client = TlsClient
  import Server = TlsServer

  // ----- Running one end over all the records that wait for it -----

  datatype ClientEnd = ClientEnd(state: Client.ClientState, conn: Conn, sent: seq<Record>)

  datatype ServerEnd = ServerEnd(state: Server.ServerState, conn: Conn)

  /** The client after reading records until it fails or is connected. */
  function ClientRun(c: Crypto, st: Client.ClientState, conn: Conn, records: seq<Record>): ClientEnd
    decreases |records|
  {
    if records == [] || !ClientWaits(st) then ClientEnd(st, conn, [])
    else
      var (next, actions) := ClientReads(c, st, conn, records[0]);
      var end := ClientRun(c, next, ActAll(conn, actions), records[1..]);
      end.(sent := Written(conn, actions) + end.sent)
  }

  /** The server after reading records until it fails or is connected. */
  function ServerRun(c: Crypto, st: Server.ServerState, conn: Conn, records: seq<Record>): ServerEnd
    decreases |records|, st.SWaitFlight2?
  {
    if st.SWaitFlight2? then ServerRun(c, Server.AwaitFlight2(st), conn, records)
    else if records == [] || st.SFailed? then ServerEnd(st, conn)
    else if Absorbs(conn, records[0]) then ServerRun(c, st, Absorbed(conn, records[0]), records[1..])
    else if !ServerWaits(st) || st.SStart? then ServerEnd(st, conn)
    else
      var (next, actions) := LateReads(c, st, conn, records[0]);
      ServerRun(c, next, ActAll(conn.(reading := Strict), actions), records[1..])
  }

  datatype Ends = Ends(client: Client.ClientState, clientConn: Conn, server: Server.ServerState, serverConn: Conn)

  /** What the session ends in when all records are read. */
  function Outcome(c: Crypto, s: Session): Ends {
    var ce := ClientRun(c, s.client, s.clientConn, s.toClient);
    var se := ServerRun(c, s.server, s.serverConn, s.toServer + ce.sent);
    Ends(ce.state, ce.conn, se.state, se.conn)
  }

  /** The server has sent its flight and has not failed. */
  predicate Late(st: Server.ServerState) {
    st.SWaitEoed? || st.SWaitFlight2? || st.SWaitCert? || st.SWaitCV? || st.SWaitFinished? || st.SConnected?
  }

  /** After its flight the server only changes keys. */
  lemma ServerOnlyRekeys(c: Crypto, st: Server.ServerState, m: Message, conn: Conn)
    requires Late(st)
    ensures var (next, actions) := Server.ServerNext(c, st, m);
            Written(conn, actions) == [] && (Late(next) || next.SFailed?)
  {
  }

  lemma ClientReadingIsStable(c: Crypto, s: Session)
    requires Enabled(s, ClientReceives)
    ensures Outcome(c, Next(c, s, ClientReceives)) == Outcome(c, s)
  {
    hide ServerRun, ClientReads;
    var result := ClientReads(c, s.client, s.clientConn, s.toClient[0]);
    var s' := Next(c, s, ClientReceives);
    var w := Written(s.clientConn, result.1);
    var rest := ClientRun(c, s'.client, s'.clientConn, s'.toClient);
    assert ClientRun(c, s.client, s.clientConn, s.toClient) == rest.(sent := w + rest.sent);
    assert s.toServer + (w + rest.sent) == s'.toServer + rest.sent;
  }

  lemma ServerReadingIsStable(c: Crypto, s: Session, input: Server.ServerInput)
    requires Enabled(s, ServerReceives(input)) && Late(s.server)
    ensures var s' := Next(c, s, ServerReceives(input));
            Outcome(c, s') == Outcome(c, s) && (Late(s'.server) || s'.server.SFailed?) && s'.toClient == s.toClient
  {
    var sent := ClientRun(c, s.client, s.clientConn, s.toClient).sent;
    var records := s.toServer + sent;
    assert records[0] == s.toServer[0] && records[1..] == s.toServer[1..] + sent;
    ServerOnlyRekeys(c, s.server, s.toServer[0].message, s.serverConn.(reading := Strict));
    assert Next(c, s, ServerReceives(input)).toClient == s.toClient;
  }

  lemma ServerAbsorbingIsStable(c: Crypto, s: Session)
    requires Enabled(s, ServerAbsorbs)
    ensures Outcome(c, Next(c, s, ServerAbsorbs)) == Outcome(c, s)
  {
    var sent := ClientRun(c, s.client, s.clientConn, s.toClient).sent;
    var records := s.toServer + sent;
    assert records[0] == s.toServer[0] && records[1..] == s.toServer[1..] + sent;
    var st := if s.server.SWaitFlight2? then Server.AwaitFlight2(s.server) else s.server;
    assert ServerRun(c, st, s.serverConn, records)
           == ServerRun(c, st, Absorbed(s.serverConn, records[0]), records[1..]);
  }

  /** No step changes what the session ends in. */
  lemma OutcomeIsStable(c: Crypto, s: Session, step: Step)
    requires Enabled(s, step) && Late(s.server) && !s.client.CStart?
    ensures var s' := Next(c, s, step); Outcome(c, s') == Outcome(c, s) && (Late(s'.server) || s'.server.SFailed?)
  {
    match step
    case ClientReceives => ClientReadingIsStable(c, s);
    case ServerAbsorbs => ServerAbsorbingIsStable(c, s);
    case ServerReceives(input) => ServerReadingIsStable(c, s, input);
    case ServerTurns =>
    case _ =>
  }

  /** A server that has failed after its flight stays so, and the client's reading changes nothing either. */
  lemma FailureIsStable(c: Crypto, s: Session, step: Step)
    requires Enabled(s, step) && s.server.SFailed? && !s.client.CStart?
    ensures var s' := Next(c, s, step); Outcome(c, s') == Outcome(c, s) && s'.server == s.server
  {
    if step.ClientReceives? {
      ClientReadingIsStable(c, s);
    }
  }

  // ----- Writing a flight -----

  function Records(keys: Option<KeySet>, ms: seq<Message>): (r: seq<Record>)
    ensures |r| == |ms| && forall i :: 0 <= i < |ms| ==> r[i] == Record(keys, ms[i])
  {
    seq(|ms|, i requires 0 <= i < |ms| => Record(keys, ms[i]))
  }

  lemma {:induction false} ActOnParts(conn: Conn, a: seq<Action>, b: seq<Action>)
    ensures ActAll(conn, a + b) == ActAll(ActAll(conn, a), b)
    ensures Written(conn, a + b) == Written(conn, a) + Written(ActAll(conn, a), b)
    decreases |a|
  {
    if a == [] {
      assert a + b == b;
    } else {
      assert (a + b)[1..] == a[1..] + b;
      ActOnParts(Act(conn, a[0]), a[1..], b);
    }
  }

  lemma {:induction false} SendingRecords(conn: Conn, ms: seq<Message>)
    ensures ActAll(conn, Sends(ms)) == conn && Written(conn, Sends(ms)) == Records(conn.keysOut, ms)
    decreases |ms|
  {
    if ms != [] {
      assert Sends(ms)[1..] == Sends(ms[1..]);
      SendingRecords(conn, ms[1..]);
    }
  }
}
