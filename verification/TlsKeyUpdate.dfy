/**
 Two connected ends that update their keys and hand out tickets while records are on their way
 (sections 4.6.1, 4.6.3 and 7.2 of RFC 8446).
 */
module TlsKeyUpdate {
  import opened Wrappers
  import opened TlsMessages

  datatype Body = Data(data: Bytes) | KeyUpdate(requested: bool) | NewTicket(ticket: Bytes, nonce: Bytes)

  /** A record: the traffic secret it is protected with, and what is inside. */
  datatype Rec = Rec(secret: Bytes, body: Body)

  /** One end: the secrets of both directions and the tickets it has stored. */
  datatype End = End(
    isClient: bool,
    suite: nat,
    proto: string,
    resumption: Bytes,
    clientSecret: Bytes,
    serverSecret: Bytes,
    tickets: seq<Psk>)
  {
    function Out(): Bytes {
      if isClient then clientSecret else serverSecret
    }

    function In(): Bytes {
      if isClient then serverSecret else clientSecret
    }
  }

  /** The next secret of a direction, and the key of a ticket. */
  datatype Derivation = Derivation(client: Bytes -> Bytes, server: Bytes -> Bytes, ticketKey: (Bytes, Bytes) -> Bytes) {
    function Roll(ofClient: bool, secret: Bytes): Bytes {
      if ofClient then client(secret) else server(secret)
    }
  }

  function RollOut(d: Derivation, e: End): End {
    if e.isClient then e.(clientSecret := d.Roll(true, e.clientSecret))
        else e.(serverSecret := d.Roll(false, e.serverSecret))
  }

  function RollIn(d: Derivation, e: End): End {
    if e.isClient then e.(serverSecret := d.Roll(false, e.serverSecret))
        else e.(clientSecret := d.Roll(true, e.clientSecret))
  }

  function TicketOf(d: Derivation, e: End, ticket: Bytes, nonce: Bytes): Psk {
    Psk(e.suite, true, ticket, d.ticketKey(e.resumption, nonce), e.proto)
  }

  function Store(d: Derivation, e: End, ticket: Bytes, nonce: Bytes): End {
    e.(tickets := e.tickets + [TicketOf(d, e, ticket, nonce)])
  }

  /** The end after a received message and the records it answers with, or nothing if the message is unexpected. */
  function Processed(d: Derivation, e: End, body: Body): Option<(End, seq<Rec>)> {
    match body
    case Data(_) => Some((e, []))
    case KeyUpdate(requested) =>
      var f := RollIn(d, e);
      Some(if requested then (RollOut(d, f), [Rec(f.Out(), KeyUpdate(false))]) else (f, []))
    case NewTicket(ticket, nonce) => if e.isClient then Some((Store(d, e, ticket, nonce), [])) else None
  }

  class Connection {
    const d: Derivation
    var state: End
    /** What has been written, each record under the secret of its moment. */
    var written: seq<Rec>

    constructor (d: Derivation, state: End)
      ensures this.d == d && this.state == state && written == []
    {
      this.d, this.state, this.written := d, state, [];
    }

    method SendKeyUpdate(requested: bool)
      modifies this
      ensures state == RollOut(d, old(state)) && written == old(written) + [Rec(old(state.Out()), KeyUpdate(requested))]
      ensures state.Out() == if state.isClient then d.client(old(state.Out())) else d.server(old(state.Out()))
      ensures state.isClient == old(state.isClient) && state.In() == old(state.In())
    {
      var secret := state.Out();
      if state.isClient {
        state := state.(clientSecret := d.Roll(true, state.clientSecret));
      } else {
        state := state.(serverSecret := d.Roll(false, state.serverSecret));
      }
      written := written + [Rec(secret, KeyUpdate(requested))];
    }

    method ProcessMessage(body: Body) returns (ok: bool)
      modifies this
      ensures ok <==> Processed(d, old(state), body).Some?
      ensures if ok then Processed(d, old(state), body).value.0 == state
              && written == old(written) + Processed(d, old(state), body).value.1
              else state == old(state) && written == old(written)
      ensures state.In() == if !body.KeyUpdate? then old(state.In())
              else if state.isClient then d.server(old(state.In()))
              else d.client(old(state.In()))
      ensures state.Out() == if body != KeyUpdate(true) then old(state.Out())
              else if state.isClient then d.client(old(state.Out()))
              else d.server(old(state.Out()))
    {
      ok := true;
      match body
      case Data(_) =>
      case KeyUpdate(requested) =>
        if !state.isClient {
          state := state.(clientSecret := d.Roll(true, state.clientSecret));
        } else {
          state := state.(serverSecret := d.Roll(false, state.serverSecret));
        }
        if requested {
          SendKeyUpdate(false);
        }
      case NewTicket(ticket, nonce) =>
        if !state.isClient {
          return false;
        }
        state := state.(tickets := state.tickets
                        + [Psk(state.suite, true, ticket, d.ticketKey(state.resumption, nonce), state.proto)]);
    }
  }

  // ----- Both ends and the records between them -----

  datatype Link = Link(
    client: End,
    server: End,
    toServer: seq<Rec>,
    toClient: seq<Rec>,
    // How many updates each end has asked the other one for, and how many it has sent as a reply.
    clientAsked: nat,
    serverAsked: nat,
    clientReplied: nat,
    serverReplied: nat)

  datatype Step =
    | ClientSends(data: Bytes)
    | ServerSends(data: Bytes)
    | ClientUpdates(requested: bool)
    | ServerUpdates(requested: bool)
    | ServerIssues(ticket: Bytes, nonce: Bytes)
    | ClientReads
    | ServerReads

  function One(b: bool): nat {
    if b then 1 else 0
  }

  ghost predicate Next(d: Derivation, l: Link, step: Step, l': Link) {
    match step
    case ClientSends(data) => l' == l.(toServer := l.toServer + [Rec(l.client.Out(), Data(data))])
    case ServerSends(data) => l' == l.(toClient := l.toClient + [Rec(l.server.Out(), Data(data))])
    case ClientUpdates(requested) =>
      l' == l.(client := RollOut(d, l.client), toServer := l.toServer + [Rec(l.client.Out(), KeyUpdate(requested))],
               clientAsked := l.clientAsked + One(requested))
    case ServerUpdates(requested) =>
      l' == l.(server := RollOut(d, l.server), toClient := l.toClient + [Rec(l.server.Out(), KeyUpdate(requested))],
               serverAsked := l.serverAsked + One(requested))
    case ServerIssues(ticket, nonce) =>
      l' == l.(server := Store(d, l.server, ticket, nonce), toClient := l.toClient
               + [Rec(l.server.Out(), NewTicket(ticket, nonce))])
    case ClientReads =>
      && l.toClient != [] && l.toClient[0].secret == l.client.In()
      && var r := Processed(d, l.client, l.toClient[0].body);
         r.Some? && l' == l.(client := r.value.0, toClient := l.toClient[1..], toServer := l.toServer + r.value.1,
                             clientReplied := l.clientReplied + |r.value.1|)
    case ServerReads =>
      && l.toServer != [] && l.toServer[0].secret == l.server.In()
      && var r := Processed(d, l.server, l.toServer[0].body);
         r.Some? && l' == l.(server := r.value.0, toServer := l.toServer[1..], toClient := l.toClient + r.value.1,
                             serverReplied := l.serverReplied + |r.value.1|)
  }

  /** Two ends as the handshake leaves them. */
  ghost predicate Init(l: Link) {
    && l.client.isClient && !l.server.isClient && l.client == l.server.(isClient := true) && l.client.tickets == []
    && l.toServer == [] && l.toClient == []
    && l.clientAsked == 0 && l.serverAsked == 0 && l.clientReplied == 0 && l.serverReplied == 0
  }

  ghost predicate IsRun(d: Derivation, ls: seq<Link>, steps: seq<Step>) {
    && |ls| == |steps| + 1 && Init(ls[0])
    && forall i :: 0 <= i < |steps| ==> Next(d, ls[i], steps[i], ls[i + 1])
  }

  // ----- The invariant -----

  /** The secret after the updates among the records. */
  ghost function After(d: Derivation, ofClient: bool, secret: Bytes, q: seq<Rec>): Bytes
    decreases q
  {
    if q == [] then secret
        else After(d, ofClient, if q[0].body.KeyUpdate? then d.Roll(ofClient, secret) else secret, q[1..])
  }

  /** Each record is protected with the secret that its reader will have by then. */
  ghost predicate Readable(d: Derivation, ofClient: bool, secret: Bytes, q: seq<Rec>)
    decreases q
  {
    q == [] || (q[0].secret == secret
                && Readable(d, ofClient, if q[0].body.KeyUpdate? then d.Roll(ofClient, secret) else secret, q[1..]))
  }

  ghost function Requests(q: seq<Rec>): nat {
    if q == [] then 0 else One(q[0].body.KeyUpdate? && q[0].body.requested) + Requests(q[1..])
  }

  /** The tickets among the records, as their reader will store them. */
  ghost function TicketsIn(d: Derivation, e: End, q: seq<Rec>): seq<Psk> {
    if q == [] then [] else (if q[0].body.NewTicket? then [TicketOf(d, e, q[0].body.ticket, q[0].body.nonce)] else [])
                            + TicketsIn(d, e, q[1..])
  }

  lemma {:induction false} Append(d: Derivation, ofClient: bool, secret: Bytes, e: End, q: seq<Rec>, body: Body)
    requires Readable(d, ofClient, secret, q)
    ensures var out := After(d, ofClient, secret, q);
            var q' := q + [Rec(out, body)];
            && Readable(d, ofClient, secret, q')
            && After(d, ofClient, secret, q') == (if body.KeyUpdate? then d.Roll(ofClient, out) else out)
            && Requests(q') == Requests(q) + One(body.KeyUpdate? && body.requested)
            && TicketsIn(d, e, q')
                == TicketsIn(d, e, q) + if body.NewTicket? then [TicketOf(d, e, body.ticket, body.nonce)] else []
    decreases q
  {
    var out := After(d, ofClient, secret, q);
    if q == [] {
      assert [Rec(out, body)][1..] == [];
    } else {
      assert (q + [Rec(out, body)])[1..] == q[1..] + [Rec(out, body)];
      Append(d, ofClient, if q[0].body.KeyUpdate? then d.Roll(ofClient, secret) else secret, e, q[1..], body);
    }
  }

  /** One direction: who writes, who reads, and what is on the way. */
  ghost predicate DirectionOk(d: Derivation, writer: End, reader: End, q: seq<Rec>, asked: nat, replied: nat) {
    && Readable(d, writer.isClient, reader.In(), q)
    && writer.Out() == After(d, writer.isClient, reader.In(), q)
    && asked == replied + Requests(q)
  }

  ghost predicate NoTickets(q: seq<Rec>) {
    forall i :: 0 <= i < |q| ==> !q[i].body.NewTicket?
  }

  ghost predicate Inv(d: Derivation, l: Link) {
    && l.client.isClient && !l.server.isClient
    && l.client.suite == l.server.suite && l.client.proto == l.server.proto
    && l.client.resumption == l.server.resumption
    && DirectionOk(d, l.client, l.server, l.toServer, l.clientAsked, l.serverReplied)
    && DirectionOk(d, l.server, l.client, l.toClient, l.serverAsked, l.clientReplied)
    && NoTickets(l.toServer)
    && l.server.tickets == l.client.tickets + TicketsIn(d, l.client, l.toClient)
  }

  lemma {:induction false} TicketsSame(d: Derivation, e: End, f: End, q: seq<Rec>)
    requires e.suite == f.suite && e.proto == f.proto && e.resumption == f.resumption
    ensures TicketsIn(d, e, q) == TicketsIn(d, f, q)
  {
    if q != [] {
      TicketsSame(d, e, f, q[1..]);
    }
  }

  lemma WriteKeepsInv(d: Derivation, l: Link, step: Step, l': Link)
    requires Inv(d, l) && Next(d, l, step, l') && !step.ClientReads? && !step.ServerReads?
    ensures Inv(d, l')
  {
    if |l'.toServer| > |l.toServer| {
      Append(d, true, l.server.In(), l.client, l.toServer, l'.toServer[|l.toServer|].body);
    } else {
      Append(d, false, l.client.In(), l.client, l.toClient, l'.toClient[|l.toClient|].body);
      assert l.server.tickets + [] == l.server.tickets;
    }
    TicketsSame(d, l.client, l'.client, l'.toClient);
  }

  lemma ClientReadKeepsInv(d: Derivation, l: Link, l': Link)
    requires Inv(d, l) && Next(d, l, ClientReads, l')
    ensures Inv(d, l')
  {
    var body := l.toClient[0].body;
    TicketsSame(d, l.client, l'.client, l.toClient[1..]);
    var rest := TicketsIn(d, l.client, l.toClient[1..]);
    if body.NewTicket? {
      assert l.client.tickets + ([TicketOf(d, l.client, body.ticket, body.nonce)] + rest) == l'.client.tickets + rest;
    } else {
      assert [] + rest == rest;
    }
    if body.KeyUpdate? && body.requested {
      Append(d, true, l.server.In(), l.client, l.toServer, KeyUpdate(false));
    } else {
      assert l.toServer + [] == l.toServer;
    }
  }

  lemma ServerReadKeepsInv(d: Derivation, l: Link, l': Link)
    requires Inv(d, l) && Next(d, l, ServerReads, l')
    ensures Inv(d, l')
  {
    var body := l.toServer[0].body;
    if body.KeyUpdate? && body.requested {
      Append(d, false, l.client.In(), l.client, l.toClient, KeyUpdate(false));
      assert TicketsIn(d, l.client, l.toClient) + [] == TicketsIn(d, l.client, l.toClient);
    } else {
      assert l.toClient + [] == l.toClient;
    }
  }

  lemma StepKeepsInv(d: Derivation, l: Link, step: Step, l': Link)
    requires Inv(d, l) && Next(d, l, step, l')
    ensures Inv(d, l')
  {
    match step
    case ClientReads => ClientReadKeepsInv(d, l, l');
    case ServerReads => ServerReadKeepsInv(d, l, l');
    case _ => WriteKeepsInv(d, l, step, l');
  }

  lemma InitInv(d: Derivation, l: Link)
    requires Init(l)
    ensures Inv(d, l)
  {
  }

  lemma {:induction false} RunKeepsInv(d: Derivation, ls: seq<Link>, steps: seq<Step>, i: nat)
    requires IsRun(d, ls, steps) && i < |ls|
    ensures Inv(d, ls[i])
  {
    if i == 0 {
      InitInv(d, ls[0]);
    } else {
      RunKeepsInv(d, ls, steps, i - 1);
      StepKeepsInv(d, ls[i - 1], steps[i - 1], ls[i]);
    }
  }

  // ----- What follows for every run -----

  ghost function Rolled(d: Derivation, ofClient: bool, secret: Bytes, n: nat): Bytes
    decreases n
  {
    if n == 0 then secret else Rolled(d, ofClient, d.Roll(ofClient, secret), n - 1)
  }

  ghost function Updates(q: seq<Rec>): nat {
    if q == [] then 0 else One(q[0].body.KeyUpdate?) + Updates(q[1..])
  }

  lemma {:induction false} AfterIsRolled(d: Derivation, ofClient: bool, secret: Bytes, q: seq<Rec>)
    ensures After(d, ofClient, secret, q) == Rolled(d, ofClient, secret, Updates(q))
    decreases q
  {
    if q != [] {
      AfterIsRolled(d, ofClient, if q[0].body.KeyUpdate? then d.Roll(ofClient, secret) else secret, q[1..]);
    }
  }

  /** In each direction the writer is ahead of the reader by exactly the updates that are on their way. */
  lemma SecretsDifferByUpdatesInFlight(d: Derivation, ls: seq<Link>, steps: seq<Step>, i: nat)
    requires IsRun(d, ls, steps) && i < |ls|
    ensures var l := ls[i];
            && l.client.clientSecret == Rolled(d, true, l.server.clientSecret, Updates(l.toServer))
            && l.server.serverSecret == Rolled(d, false, l.client.serverSecret, Updates(l.toClient))
  {
    RunKeepsInv(d, ls, steps, i);
    AfterIsRolled(d, true, ls[i].server.In(), ls[i].toServer);
    AfterIsRolled(d, false, ls[i].client.In(), ls[i].toClient);
  }

  // ----- How often the secrets have been derived -----

  ghost function Iterated(f: Bytes -> Bytes, secret: Bytes, n: nat): Bytes {
    if n == 0 then secret else f(Iterated(f, secret, n - 1))
  }

  /** The step writes an update: the client's own, or its reply to a request. */
  ghost predicate ClientWrites(l: Link, step: Step) {
    step.ClientUpdates? || (step.ClientReads? && l.toClient != [] && l.toClient[0].body == KeyUpdate(true))
  }

  ghost predicate ServerWrites(l: Link, step: Step) {
    step.ServerUpdates? || (step.ServerReads? && l.toServer != [] && l.toServer[0].body == KeyUpdate(true))
  }

  ghost predicate ClientTakes(l: Link, step: Step) {
    step.ClientReads? && l.toClient != [] && l.toClient[0].body.KeyUpdate?
  }

  ghost predicate ServerTakes(l: Link, step: Step) {
    step.ServerReads? && l.toServer != [] && l.toServer[0].body.KeyUpdate?
  }

  /** How many updates each end has written and read in the first `i` steps. */
  datatype Counts = Counts(clientWrote: nat, serverWrote: nat, clientRead: nat, serverRead: nat)

  ghost function Counted(ls: seq<Link>, steps: seq<Step>, i: nat): Counts
    requires i <= |steps| && i <= |ls|
  {
    if i == 0 then
      Counts(0, 0, 0, 0)
    else
      var c, l, step := Counted(ls, steps, i - 1), ls[i - 1], steps[i - 1];
      Counts(c.clientWrote + One(ClientWrites(l, step)), c.serverWrote + One(ServerWrites(l, step)),
             c.clientRead + One(ClientTakes(l, step)), c.serverRead + One(ServerTakes(l, step)))
  }

  /** A step derives the next secret of a direction at the end that writes or takes an update, and nowhere else. */
  lemma StepDerives(d: Derivation, l: Link, step: Step, l': Link)
    requires l.client.isClient && !l.server.isClient && Next(d, l, step, l')
    ensures l'.client.isClient && !l'.server.isClient
    ensures l'.client.clientSecret == if ClientWrites(l, step) then d.client(l.client.clientSecret)
            else l.client.clientSecret
    ensures l'.server.serverSecret == if ServerWrites(l, step) then d.server(l.server.serverSecret)
            else l.server.serverSecret
    ensures l'.client.serverSecret == if ClientTakes(l, step) then d.server(l.client.serverSecret)
            else l.client.serverSecret
    ensures l'.server.clientSecret == if ServerTakes(l, step) then d.client(l.server.clientSecret)
            else l.server.clientSecret
  {
  }

  /**
   Each secret is the one of the handshake with the derivation of its direction applied as often as its end has written
   or read an update.
   */
  lemma {:induction false} SecretsAreIterated(d: Derivation, ls: seq<Link>, steps: seq<Step>, i: nat)
    requires IsRun(d, ls, steps) && i < |ls|
    ensures var n, first, l := Counted(ls, steps, i), ls[0].client, ls[i];
            && l.client.isClient && !l.server.isClient
            && l.client.clientSecret == Iterated(d.client, first.clientSecret, n.clientWrote)
            && l.server.clientSecret == Iterated(d.client, first.clientSecret, n.serverRead)
            && l.server.serverSecret == Iterated(d.server, first.serverSecret, n.serverWrote)
            && l.client.serverSecret == Iterated(d.server, first.serverSecret, n.clientRead)
  {
    hide Next, ClientWrites, ServerWrites, ClientTakes, ServerTakes;
    if i > 0 {
      SecretsAreIterated(d, ls, steps, i - 1);
      assert Next(d, ls[i - 1], steps[i - 1], ls[i]);
      StepDerives(d, ls[i - 1], steps[i - 1], ls[i]);
    }
  }

  lemma {:induction false} UpdatesAppend(q: seq<Rec>, r: Rec)
    ensures Updates(q + [r]) == Updates(q) + One(r.body.KeyUpdate?)
  {
    if q == [] {
      assert (q + [r])[1..] == [];
    } else {
      assert (q + [r])[1..] == q[1..] + [r];
      UpdatesAppend(q[1..], r);
    }
  }

  lemma StepCounts(d: Derivation, l: Link, step: Step, l': Link)
    requires l.client.isClient && !l.server.isClient && Next(d, l, step, l')
    ensures Updates(l'.toServer) + One(ServerTakes(l, step)) == Updates(l.toServer) + One(ClientWrites(l, step))
    ensures Updates(l'.toClient) + One(ClientTakes(l, step)) == Updates(l.toClient) + One(ServerWrites(l, step))
  {
    if |l'.toServer| > |l.toServer| {
      UpdatesAppend(l.toServer, l'.toServer[|l.toServer|]);
      assert l'.toServer == l.toServer + [l'.toServer[|l.toServer|]];
    }
    if |l'.toClient| > |l.toClient| {
      UpdatesAppend(l.toClient, l'.toClient[|l.toClient|]);
      assert l'.toClient == l.toClient + [l'.toClient[|l.toClient|]];
    }
    assert l.toServer + [] == l.toServer && l.toClient + [] == l.toClient;
  }

  /** No update is lost: those on their way are the ones that were written and not read yet. */
  lemma {:induction false} UpdatesInFlight(d: Derivation, ls: seq<Link>, steps: seq<Step>, i: nat)
    requires IsRun(d, ls, steps) && i < |ls|
    ensures var n := Counted(ls, steps, i);
            && n.clientWrote == n.serverRead + Updates(ls[i].toServer)
            && n.serverWrote == n.clientRead + Updates(ls[i].toClient)
  {
    hide Next, ClientWrites, ServerWrites, ClientTakes, ServerTakes, Iterated;
    if i > 0 {
      UpdatesInFlight(d, ls, steps, i - 1);
      SecretsAreIterated(d, ls, steps, i - 1);
      assert Next(d, ls[i - 1], steps[i - 1], ls[i]);
      StepCounts(d, ls[i - 1], steps[i - 1], ls[i]);
    }
  }

  /** A derivation that never comes back to a secret it has left. */
  ghost predicate NeverRepeats(f: Bytes -> Bytes, secret: Bytes) {
    forall m: nat, n: nat :: Iterated(f, secret, m) == Iterated(f, secret, n) ==> m == n
  }

  function Longer(secret: Bytes): Bytes {
    secret + [0]
  }

  /** There are such derivations. */
  lemma LongerNeverRepeats(secret: Bytes)
    ensures NeverRepeats(Longer, secret)
  {
    forall n: nat ensures |Iterated(Longer, secret, n)| == |secret| + n {
      LengthOfIterated(secret, n);
    }
  }

  lemma {:induction false} LengthOfIterated(secret: Bytes, n: nat)
    ensures |Iterated(Longer, secret, n)| == |secret| + n
  {
    if n > 0 {
      LengthOfIterated(secret, n - 1);
    }
  }

  /** Then both ends hold the same secret of a direction if and only if no update is on its way in it. */
  lemma EqualIffNoneInFlight(d: Derivation, ls: seq<Link>, steps: seq<Step>, i: nat)
    requires IsRun(d, ls, steps) && i < |ls|
    requires NeverRepeats(d.client, ls[0].client.clientSecret) && NeverRepeats(d.server, ls[0].client.serverSecret)
    ensures ls[i].client.clientSecret == ls[i].server.clientSecret <==> Updates(ls[i].toServer) == 0
    ensures ls[i].client.serverSecret == ls[i].server.serverSecret <==> Updates(ls[i].toClient) == 0
  {
    SecretsAreIterated(d, ls, steps, i);
    UpdatesInFlight(d, ls, steps, i);
  }

  /** And an end keeps the secret it writes with exactly as long as it writes no update. */
  lemma UpdateChangesSecret(d: Derivation, ls: seq<Link>, steps: seq<Step>, i: nat, j: nat)
    requires IsRun(d, ls, steps) && i < |ls| && j < |ls|
    requires NeverRepeats(d.client, ls[0].client.clientSecret) && NeverRepeats(d.server, ls[0].client.serverSecret)
    ensures ls[i].client.clientSecret == ls[j].client.clientSecret <==>
            Counted(ls, steps, i).clientWrote == Counted(ls, steps, j).clientWrote
    ensures ls[i].server.serverSecret == ls[j].server.serverSecret <==>
            Counted(ls, steps, i).serverWrote == Counted(ls, steps, j).serverWrote
  {
    SecretsAreIterated(d, ls, steps, i);
    SecretsAreIterated(d, ls, steps, j);
  }

  /** A record that waits can always be read: its keys fit and its message is expected. */
  lemma WaitingRecordsAreReadable(d: Derivation, ls: seq<Link>, steps: seq<Step>, i: nat)
    requires IsRun(d, ls, steps) && i < |ls|
    ensures ls[i].toServer != [] ==> exists l' :: Next(d, ls[i], ServerReads, l')
    ensures ls[i].toClient != [] ==> exists l' :: Next(d, ls[i], ClientReads, l')
  {
    RunKeepsInv(d, ls, steps, i);
    var l := ls[i];
    if l.toServer != [] {
      var r := Processed(d, l.server, l.toServer[0].body).value;
      assert Next(d, l, ServerReads, l.(server := r.0, toServer := l.toServer[1..], toClient := l.toClient + r.1,
                                        serverReplied := l.serverReplied + |r.1|));
    }
    if l.toClient != [] {
      var r := Processed(d, l.client, l.toClient[0].body).value;
      assert Next(d, l, ClientReads, l.(client := r.0, toClient := l.toClient[1..], toServer := l.toServer + r.1,
                                        clientReplied := l.clientReplied + |r.1|));
    }
  }

  /** Every request draws exactly one reply, and every reply was asked for. */
  lemma OneReplyPerRequest(d: Derivation, ls: seq<Link>, steps: seq<Step>, i: nat)
    requires IsRun(d, ls, steps) && i < |ls|
    ensures ls[i].clientAsked == ls[i].serverReplied + Requests(ls[i].toServer)
    ensures ls[i].serverAsked == ls[i].clientReplied + Requests(ls[i].toClient)
  {
    RunKeepsInv(d, ls, steps, i);
  }

  /**
   When nothing is on its way, both ends hold the same secrets, all requests are answered and all tickets are known to
   both.
   */
  lemma QuietMeansEqual(d: Derivation, ls: seq<Link>, steps: seq<Step>, i: nat)
    requires IsRun(d, ls, steps) && i < |ls| && ls[i].toServer == [] && ls[i].toClient == []
    ensures ls[i].client == ls[i].server.(isClient := true)
    ensures ls[i].clientAsked == ls[i].serverReplied && ls[i].serverAsked == ls[i].clientReplied
  {
    RunKeepsInv(d, ls, steps, i);
    assert ls[i].client.tickets + [] == ls[i].client.tickets;
  }

  /** Reading all that is on its way comes to an end. */
  lemma ReadingEnds(d: Derivation, l: Link, step: Step, l': Link)
    requires Next(d, l, step, l') && (step.ClientReads? || step.ServerReads?)
    ensures |l'.toServer| + |l'.toClient| + Requests(l'.toServer) + Requests(l'.toClient)
            < |l.toServer| + |l.toClient| + Requests(l.toServer) + Requests(l.toClient)
  {
    var secret := if step.ClientReads? then RollIn(d, l.client).Out() else RollIn(d, l.server).Out();
    var q := if step.ClientReads? then l.toServer else l.toClient;
    RequestsAppend(q, Rec(secret, KeyUpdate(false)));
    assert l.toServer + [] == l.toServer && l.toClient + [] == l.toClient;
  }

  lemma {:induction false} RequestsAppend(q: seq<Rec>, r: Rec)
    ensures Requests(q + [r]) == Requests(q) + One(r.body.KeyUpdate? && r.body.requested)
  {
    if q == [] {
      assert (q + [r])[1..] == [];
    } else {
      assert (q + [r])[1..] == q[1..] + [r];
      RequestsAppend(q[1..], r);
    }
  }

  /** The keys of the tickets that were issued in some steps, by the resumption secret of the handshake. */
  ghost function Issued(d: Derivation, resumption: Bytes, steps: seq<Step>): seq<(Bytes, Bytes)> {
    if steps == [] then []
    else
      var n, last := |steps| - 1, steps[|steps| - 1];
      Issued(d, resumption, steps[..n])
      + if last.ServerIssues? then [(last.ticket, d.ticketKey(resumption, last.nonce))] else []
  }

  function Keys(tickets: seq<Psk>): (r: seq<(Bytes, Bytes)>)
    ensures |r| == |tickets| && forall i :: 0 <= i < |r| ==> r[i] == (tickets[i].identity, tickets[i].key)
  {
    seq(|tickets|, i requires 0 <= i < |tickets| => (tickets[i].identity, tickets[i].key))
  }

  /** The server knows the tickets it has issued, in order, each under the key derived from its nonce. */
  lemma {:induction false} TicketsAreThoseIssued(d: Derivation, ls: seq<Link>, steps: seq<Step>, i: nat)
    requires IsRun(d, ls, steps) && i < |ls|
    ensures ls[i].server.resumption == ls[0].server.resumption && !ls[i].server.isClient
    ensures Keys(ls[i].server.tickets) == Issued(d, ls[0].server.resumption, steps[..i])
  {
    if i > 0 {
      TicketsAreThoseIssued(d, ls, steps, i - 1);
      assert Next(d, ls[i - 1], steps[i - 1], ls[i]);
      assert steps[..i][..i - 1] == steps[..i - 1] && steps[..i][i - 1] == steps[i - 1];
      IssueAdds(d, ls[i - 1], steps[i - 1], ls[i]);
    }
  }

  lemma IssueAdds(d: Derivation, l: Link, step: Step, l': Link)
    requires !l.server.isClient && Next(d, l, step, l')
    ensures l'.server.resumption == l.server.resumption && !l'.server.isClient
    ensures Keys(l'.server.tickets)
            == Keys(l.server.tickets)
               + if step.ServerIssues? then [(step.ticket, d.ticketKey(l.server.resumption, step.nonce))] else []
  {
  }

  /** Every ticket that the client holds is known to the server with the same key, so it can resume with it. */
  lemma TicketsAreShared(d: Derivation, ls: seq<Link>, steps: seq<Step>, i: nat)
    requires IsRun(d, ls, steps) && i < |ls|
    ensures ls[i].client.tickets <= ls[i].server.tickets
  {
    RunKeepsInv(d, ls, steps, i);
  }
}
