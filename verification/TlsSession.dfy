/**
 A client and a server that talk over two reliable, ordered channels: every interleaving of their steps.
 */
module TlsSession {
  import opened Wrappers
  import opened TlsMessages
  import Client = TlsClient
  import Server = TlsServer

  /** A record on the wire: the keys it is protected with, and the message inside. */
  datatype Record = Record(keys: Option<KeySet>, message: Message)

  /** What the reading side does with records that it does not expect. */
  datatype Reading = Strict | TakingEarlyData | SkippingEarlyData

  /** One end's connection: the keys of each direction, how it reads, and the early data it got. */
  datatype Conn = Conn(keysIn: Option<KeySet>, keysOut: Option<KeySet>, reading: Reading, early: Bytes)

  const FRESH := Conn(None, None, Strict, [])

  datatype Session = Session(
    client: Client.ClientState,
    clientConn: Conn,
    server: Server.ServerState,
    serverConn: Conn,
    toServer: seq<Record>,
    toClient: seq<Record>)

  // ----- Taking actions -----

  function Act(conn: Conn, a: Action): Conn {
    match a
    case Send(_) => conn
    case RekeyIn(keys) => conn.(keysIn := Some(keys))
    case RekeyOut(keys) => conn.(keysOut := Some(keys))
    case ReadEarlyData => conn.(reading := TakingEarlyData)
    case ReadPastEarlyData => conn.(reading := SkippingEarlyData)
  }

  function ActAll(conn: Conn, actions: seq<Action>): Conn
    decreases |actions|
  {
    if actions == [] then conn else ActAll(Act(conn, actions[0]), actions[1..])
  }

  /** The records that the actions write, each under the keys of its moment. */
  function Written(conn: Conn, actions: seq<Action>): seq<Record>
    decreases |actions|
  {
    if actions == [] then []
    else (if actions[0].Send? then [Record(conn.keysOut, actions[0].message)] else [])
         + Written(Act(conn, actions[0]), actions[1..])
  }

  // ----- The client's steps -----

  function ClientReads(c: Crypto, st: Client.ClientState, conn: Conn, r: Record): Client.ClientResult {
    if r.keys != conn.keysIn then Client.Fail(BadRecord)
    else if r.message.ApplicationData? then Client.Fail(OtherAlert)
    else Client.ClientNext(c, st, r.message)
  }

  predicate ClientWaits(st: Client.ClientState) {
    !st.CStart? && !st.CConnected? && !st.CFailed?
  }

  // ----- The server's steps -----

  predicate ServerWaits(st: Server.ServerState) {
    !st.SNegotiated? && !st.SWaitFlight2? && !st.SConnected? && !st.SFailed?
  }

  /** A record that the server consumes without passing it to the state machine. */
  predicate Absorbs(conn: Conn, r: Record) {
    || (conn.reading.TakingEarlyData? && r.keys == conn.keysIn && r.message.ApplicationData?)
    || (conn.reading.SkippingEarlyData? && r.keys != conn.keysIn)
  }

  function Absorbed(conn: Conn, r: Record): Conn {
    if conn.reading.TakingEarlyData? && r.message.ApplicationData? then conn.(early := conn.early + r.message.data)
        else conn
  }

  /** How the server reads a record once its flight is sent. */
  function LateReads(c: Crypto, st: Server.ServerState, conn: Conn, r: Record): Server.ServerResult {
    if r.keys != conn.keysIn then Server.Fail(BadRecord)
    else if r.message.ApplicationData? then Server.Fail(OtherAlert)
    else Server.ServerNext(c, st, r.message)
  }

  function ServerReads(c: Crypto, st: Server.ServerState, conn: Conn, r: Record,
                       input: Server.ServerInput): Server.ServerResult {
    if !st.SStart? then LateReads(c, st, conn, r)
    else if r.keys != conn.keysIn then Server.Fail(BadRecord)
    else if r.message.ClientHello? then Server.OnClientHello(c, st.cfg, r.message.hello, input)
    else Server.Fail(OtherAlert)
  }

  // ----- Steps of the session -----

  function ClientMoves(s: Session, result: Client.ClientResult): Session {
    s.(client := result.0, clientConn := ActAll(s.clientConn, result.1), toServer := s.toServer
       + Written(s.clientConn, result.1))
  }

  function ServerMoves(s: Session, result: Server.ServerResult): Session {
    s.(server := result.0, serverConn := ActAll(s.serverConn, result.1), toClient := s.toClient
       + Written(s.serverConn, result.1))
  }

  datatype Step =
    | ClientStarts(random: Bytes, priv: nat -> Bytes)
    | ClientReceives
    | ServerAbsorbs
    | ServerReceives(input: Server.ServerInput)
    | ServerSends(random: Bytes)
    | ServerTurns

  ghost predicate Enabled(s: Session, step: Step) {
    match step
    case ClientStarts(_, _) => s.client.CStart?
    case ClientReceives => ClientWaits(s.client) && s.toClient != []
    case ServerAbsorbs => !s.server.SFailed? && s.toServer != [] && Absorbs(s.serverConn, s.toServer[0])
    case ServerReceives(_) => ServerWaits(s.server) && s.toServer != [] && !Absorbs(s.serverConn, s.toServer[0])
    case ServerSends(_) =>
      s.server.SNegotiated? && (s.server.neg.params.usingPsk || s.server.neg.cert.Some?)
          && (s.server.neg.params.usingDh ==> s.server.neg.share.Some?)
    case ServerTurns => s.server.SWaitFlight2?
  }

  ghost function Next(c: Crypto, s: Session, step: Step): Session
    requires Enabled(s, step)
  {
    match step
    case ClientStarts(random, priv) =>
      ClientMoves(s, Client.ClientStart(c, s.client, random, priv))
    case ClientReceives =>
      ClientMoves(s.(toClient := s.toClient[1..]), ClientReads(c, s.client, s.clientConn, s.toClient[0]))
    case ServerAbsorbs =>
      s.(toServer := s.toServer[1..], serverConn := Absorbed(s.serverConn, s.toServer[0]))
    case ServerReceives(input) =>
      ServerMoves(s.(toServer := s.toServer[1..], serverConn := s.serverConn.(reading := Strict)),
                  ServerReads(c, s.server, s.serverConn, s.toServer[0], input))
    case ServerSends(random) =>
      ServerMoves(s, Server.FirstFlight(c, s.server.cfg, s.server.neg, random))
    case ServerTurns =>
      s.(server := Server.AwaitFlight2(s.server))
  }
}
