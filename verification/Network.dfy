/**
 A client, a server and the two FIFO channels between them, as one transition system.

 An action that is not enabled changes nothing; an action whose code path reports an error ends the
 run with that fault. A statement about `Run(s, actions)` for every `actions` is therefore a
 statement about every interleaving.
 */
module Network {
  import opened Wrappers
  import opened MlsGroups
  import opened Messages
  import opened Persistence
  import opened Endpoints

  // ----- the hellos that open a connection -----

  /** Without or with a pre-handshake, which encrypts the hellos. */
  datatype Mode = Unprotected | Protected

  /** One record from one cipher to the other: it opens only under the same key and number. */
  function Carry(sender: Cipher, receiver: Cipher): Option<(Cipher, Cipher)> {
    if sender.sendKey == receiver.recvKey && sender.sendSeq == receiver.recvSeq then
      Some((sender.(sendSeq := sender.sendSeq + 1), receiver.(recvSeq := receiver.recvSeq + 1)))
    else None
  }

  /** The ciphers of client and server once both hellos are exchanged. Without a pre-handshake the hellos
      are not encrypted and the ciphers are new; with one, the two hellos travel under the pre-handshake
      keys, and the exported secrets are then installed in the same ciphers. A resumption and its
      confirmation are hellos like those of a fresh handshake. */
  function HandshakeCiphers(mode: Mode, clientSecrets: TrafficSecrets, serverSecrets: TrafficSecrets)
    : Option<(Cipher, Cipher)>
  {
    match mode
    case Unprotected => Some((NewCipher(clientSecrets, false), NewCipher(serverSecrets, true)))
    case Protected =>
      var pre := TrafficSecrets(PreHandshakeClientSecret, PreHandshakeServerSecret);
      match Carry(NewCipher(pre, false), NewCipher(pre, true))
      case None => None
      case Some((client, server)) =>
        match Carry(server, client)
        case None => None
        case Some((server', client')) =>
          Some((Install(client', Both(clientSecrets), false), Install(server', Both(serverSecrets), true)))
  }

  /** The number of the first record behind the hellos. */
  function First(mode: Mode): nat {
    if mode.Protected? then 1 else 0
  }

  function StartCipher(mode: Mode, secrets: TrafficSecrets, isServer: bool): Cipher {
    NewCipher(secrets, isServer).(sendSeq := First(mode), recvSeq := First(mode))
  }

  /** The hellos always arrive; behind a pre-handshake each side has used up one number either way. */
  lemma HellosArrive(mode: Mode, clientSecrets: TrafficSecrets, serverSecrets: TrafficSecrets)
    ensures HandshakeCiphers(mode, clientSecrets, serverSecrets)
         == Some((StartCipher(mode, clientSecrets, false), StartCipher(mode, serverSecrets, true)))
  {
  }

  // ----- the system -----

  /** The transport. While it is not up, a resumption may be on its way to the server, or the
      server's confirmation on its way back; the server, already established, may then act, and what it
      sends arrives behind the confirmation. */
  datatype Link =
    | Up
    | Down
    | Offered(commit: Commit, secrets: TrafficSecrets)
    | Answered(confirmation: Signal, clientCipher: Cipher)

  datatype System = System(
    mode: Mode, groupId: GroupId, client: Endpoint, server: Endpoint,
    toServer: seq<Record>, toClient: seq<Record>, link: Link)

  datatype Action =
    | ClientSends(data: Data)
    | ServerSends(data: Data)
    | ClientUpdates(requested: bool)
    | ServerUpdates(requested: bool)
    | ClientReads
    | ServerReads
    | ClientProcesses
    | ServerProcesses
    | LinkDrops
    | ClientResumes
    | OfferArrives
    | ConfirmationArrives

  function ClientEmits(s: System, e: Emission): System {
    s.(client := e.end, toServer := s.toServer + e.records)
  }

  function ServerEmits(s: System, e: Emission): System {
    s.(server := e.end, toClient := s.toClient + e.records)
  }

  function ClientEmitted(s: System, r: Result<Emission, Fault>): Result<System, Fault> {
    match r case Err(f) => Err(f) case Ok(e) => Ok(ClientEmits(s, e))
  }

  function ServerEmitted(s: System, r: Result<Emission, Fault>): Result<System, Fault> {
    match r case Err(f) => Err(f) case Ok(e) => Ok(ServerEmits(s, e))
  }

  function ClientRead(s: System): Result<System, Fault> {
    if s.client.held.Some? || s.toClient == [] then Ok(s)
    else
      match Read(s.client, s.toClient[0])
      case Err(f) => Err(f)
      case Ok(e) => Ok(s.(client := e, toClient := s.toClient[1..]))
  }

  function ServerRead(s: System): Result<System, Fault> {
    if s.server.held.Some? || s.toServer == [] then Ok(s)
    else
      match Read(s.server, s.toServer[0])
      case Err(f) => Err(f)
      case Ok(e) => Ok(s.(server := e, toServer := s.toServer[1..]))
  }

  /** A new connection: fresh ciphers, nothing in flight, nothing sent or received on it yet. */
  function Reset(e: Endpoint, cipher: Cipher): Endpoint {
    e.(cipher := cipher, held := None, sent := [], got := [])
  }

  /** Everything in flight is lost. The client keeps its handshake state, the server its database. */
  function Dropped(s: System): System {
    s.(client := Reset(s.client, s.client.cipher),
    server := Reset(s.server, s.server.cipher).(hs := NoHandshake),
    toServer := [], toClient := [], link := Down)
  }

  function Resumed(s: System): Result<System, Fault> {
    if !s.link.Down? || !s.client.hs.ClientSide? then Ok(s)
    else
      var r := ClientMachine.ResumeClient(s.client.hs.client, s.client.db, FreshId(s.client));
      match r.result
      case Err(e) => Err(HandshakeFailed(e))
      case Ok((secrets, commit)) =>
        Ok(s.(client := s.client.(hs := ClientSide(r.client), db := r.db, serial := s.client.serial + 1),
           link := Offered(commit, secrets)))
  }

  /** A refused resumption ends the connection attempt; it may still have changed the stored group. */
  function OfferArrived(s: System): System {
    if !s.link.Offered? then s
    else
      var p := ServerMachine.ProcessResumption(s.server.db.groups, s.link.commit);
      var server := s.server.(db := s.server.db.(groups := p.groups));
      match p.result
      case Err(_) => s.(server := server, link := Down)
      case Ok((hs, secrets, m)) =>
        match HandshakeCiphers(s.mode, s.link.secrets, secrets)
        case None => s.(server := server, link := Down)
        case Some((clientCipher, serverCipher)) =>
          s.(server := Reset(server.(hs := ServerSide(hs)), serverCipher), link := Answered(m, clientCipher))
  }

  function ConfirmationArrived(s: System): Result<System, Fault> {
    if !s.link.Answered? || !s.client.hs.ClientSide? then Ok(s)
    else
      var r := ClientMachine.ReceiveClient(s.client.hs.client, s.client.db, s.link.confirmation, FreshId(s.client));
      match r.result
      case Err(e) => Err(HandshakeFailed(e))
      case Ok(_) =>
        var client := Reset(s.client, s.link.clientCipher);
        Ok(s.(client := client.(hs := ClientSide(r.client), db := r.db), link := Up))
  }

  predicate AtServer(a: Action) {
    a.ServerSends? || a.ServerUpdates? || a.ServerReads? || a.ServerProcesses?
  }

  /** The server is established as soon as it has answered. */
  predicate ServerUp(link: Link) {
    link.Up? || link.Answered?
  }

  predicate Live(link: Link, a: Action) {
    link.Up? || (ServerUp(link) && AtServer(a))
  }

  function Next(s: System, a: Action): Result<System, Fault> {
    match a
    case LinkDrops => Ok(Dropped(s))
    case ClientResumes => Resumed(s)
    case OfferArrives => Ok(OfferArrived(s))
    case ConfirmationArrives => ConfirmationArrived(s)
    case _ => if Live(s.link, a) then NextUp(s, a) else Ok(s)
  }

  function NextUp(s: System, a: Action): Result<System, Fault> {
    match a
    case ClientSends(d) => Ok(ClientEmits(s, SendData(s.client, d)))
    case ServerSends(d) => Ok(ServerEmits(s, SendData(s.server, d)))
    case ClientUpdates(requested) => ClientEmitted(s, StartUpdate(s.client, requested))
    case ServerUpdates(requested) => ServerEmitted(s, StartUpdate(s.server, requested))
    case ClientReads => ClientRead(s)
    case ServerReads => ServerRead(s)
    case ClientProcesses => ClientEmitted(s, ProcessHeld(s.client))
    case ServerProcesses => ServerEmitted(s, ProcessHeld(s.server))
    case _ => Ok(s)
  }

  function Run(s: System, actions: seq<Action>): Result<System, Fault>
    decreases |actions|
  {
    if actions == [] then Ok(s)
    else
      match Next(s, actions[0])
      case Err(f) => Err(f)
      case Ok(s') => Run(s', actions[1..])
  }

  /** The only production caller of a client update passes `false` (src/mls_handshake/mod.rs:175). */
  predicate Honest(a: Action) {
    a.ClientUpdates? ==> !a.requested
  }

  predicate AllHonest(actions: seq<Action>) {
    forall a <- actions :: Honest(a)
  }

  // ----- the handshake that precedes a run -----

  function Establish(mode: Mode, clientDb: Database, serverDb: Database, profileId: ProfileId, groupId: GroupId)
    : Result<System, HandshakeError>
  {
    var add := CommitId(ServerParty, 0);
    var (server, groups, serverSecrets) := ServerMachine.CreateServerSession(serverDb.groups, groupId, add);
    match ClientMachine.JoinGroup(clientDb, profileId, groupId, [add])
    case Err(e) => Err(e)
    case Ok((client, db, clientSecrets)) =>
      match HandshakeCiphers(mode, clientSecrets, serverSecrets)
      case None => Err(DecodingError)
      case Some((clientCipher, serverCipher)) =>
        Ok(System(mode, groupId,
                  Endpoint(false, ClientSide(client), db, clientCipher, None, 0, [], []),
                  Endpoint(true, ServerSide(server), serverDb.(groups := groups), serverCipher, None, 1, [], []),
                  [], [], Up))
  }
}
