/** The handshake object of src/mls_handshake/mod.rs: a state machine of one role over a connection. */
module MlsHandshakes {
  import opened Wrappers
  import opened MlsGroups
  import opened Messages
  import opened Persistence
  import opened Endpoints

  datatype Machine =
    | NoMachine
    | OfClient(client: ClientMachine.ClientHandshakeState)
    | OfServer(server: ServerMachine.ServerHandshakeState)

  /** What the server reads first; what cannot be read, has another version or carries no key package is
      one case here. */
  datatype FirstMessage =
    | Unreadable(error: HandshakeError)
    | ClientHello(groupId: GroupId, add: CommitId)
    | Resumption(commit: Commit)

  /** The answer to a hello is a welcome, that to a resumption a confirmation. */
  function ServerHandshakeOf(hs: Handshake, db: Database, first: FirstMessage, answerLeaves: bool)
    : Dispatched<(TrafficSecrets, Option<Signal>)>
  {
    match first
    case Unreadable(e) => Dispatched(hs, db, Err(e))
    case ClientHello(groupId, add) =>
      var (s, groups, secrets) := ServerMachine.CreateServerSession(db.groups, groupId, add);
      Dispatched(ServerSide(s), db.(groups := groups),
                 if answerLeaves then Ok((secrets, None)) else Err(TransportError))
    case Resumption(commit) =>
      var p := ServerMachine.ProcessResumption(db.groups, commit);
      match p.result
      case Err(e) => Dispatched(hs, db.(groups := p.groups), Err(e))
      case Ok((s, secrets, m)) =>
        Dispatched(ServerSide(s), db.(groups := p.groups),
                   if answerLeaves then Ok((secrets, Some(m))) else Err(TransportError))
  }

  class MlsHandshake {
    const connection: Connection
    var state: Machine

    /** The objects that a step of the machine changes, besides the connection. */
    ghost function Machines(): set<object>
      reads this
    {
      match state
      case NoMachine => {}
      case OfClient(c) => {c}
      case OfServer(s) => {s}
    }

    ghost function View(): Handshake
      reads this, Machines()
    {
      match state
      case NoMachine => NoHandshake
      case OfClient(c) => ClientSide(c.View())
      case OfServer(s) => ServerSide(s.View())
    }

    constructor (connection: Connection)
      ensures this.connection == connection && View() == NoHandshake
    {
      this.connection := connection;
      state := NoMachine;
    }

    method UpdateHandshake(id: CommitId) returns (r: Result<(Option<SecretUpdate>, Signal), HandshakeError>)
      modifies Machines(), connection
      ensures Dispatched(View(), connection.View(), r)
           == Endpoints.UpdateHandshake(old(View()), old(connection.View()), false, id)
    {
      match state {
        case NoMachine =>
          r := Err(Uninitialized);
        case OfClient(c) =>
          var update := c.Update(connection, false, id);
          match update {
            case Err(e) => r := Err(e);
            case Ok((secret, m)) => r := Ok((Some(OnlyClient(secret)), m));
          }
        case OfServer(s) =>
          var update := s.Update(connection, false, id);
          match update {
            case Err(e) => r := Err(e);
            case Ok(m) => r := Ok((None, m));
          }
      }
    }

    method ProcessSignalingMessage(m: Signal, id: CommitId)
      returns (r: Result<(Option<SecretUpdate>, Option<Signal>), HandshakeError>)
      modifies Machines(), connection
      ensures Dispatched(View(), connection.View(), r)
           == Endpoints.ProcessSignalingMessage(old(View()), old(connection.View()), m, id)
    {
      match state {
        case NoMachine =>
          r := Err(Uninitialized);
        case OfClient(c) =>
          r := c.ReceiveSignalingMessage(connection, m, id);
        case OfServer(s) =>
          var answer := s.ReceiveSignalingMessage(connection, m, id);
          match answer {
            case Err(e) => r := Err(e);
            case Ok((secrets, response)) => r := Ok((Some(Both(secrets)), Some(response)));
          }
      }
    }

    /** The client's handshake: an old row goes with its group, then hellos are exchanged, the new group is
        joined and the row stored. The exchange yields the group to join, or an error: the hello could not
        be sent, no answer came, or the answer was not accepted. By then the old row is gone. */
    method ClientHandshake(profileId: ProfileId, exchange: Result<(GroupId, History), HandshakeError>)
      returns (r: Result<TrafficSecrets, HandshakeError>)
      modifies this, connection
      ensures
        exchange.Err? ==>
          var d := DeleteRow(old(connection.View()), profileId);
          && r == Err(if d.error.Some? then d.error.value else exchange.error)
          && View() == old(View()) && connection.View() == d.db
      ensures
        exchange.Ok? ==>
          match ClientMachine.JoinGroup(old(connection.View()), profileId, exchange.value.0, exchange.value.1)
          case Err(e) => r == Err(e) && View() == old(View()) && connection.View() == old(connection.View())
          case Ok((c, db, secrets)) => r == Ok(secrets) && View() == ClientSide(c) && connection.View() == db
    {
      var error := connection.DeleteState(profileId);
      if error.Some? {
        return Err(error.value);
      }
      if exchange.Err? {
        return Err(exchange.error);
      }
      var (groupId, history) := exchange.value;
      connection.groups := connection.groups[groupId := Group(history, None)];
      var c := Client(profileId, MlsSession(groupId, |history|), Running);
      error := connection.Store(c);
      assert error.None?;  // the profile's row was just deleted
      var machine := new ClientMachine.ClientHandshakeState(c);
      state := OfClient(machine);
      return Ok(Export(groupId, history));
    }

    /** The server's handshake, on whatever the client sends first. The machine is set before the answer is
        sent, so a failing transport leaves it set. The table is left alone. */
    method ServerHandshake(first: FirstMessage, answerLeaves: bool)
      returns (r: Result<(TrafficSecrets, Option<Signal>), HandshakeError>)
      modifies this, connection
      ensures Dispatched(View(), connection.View(), r)
           == ServerHandshakeOf(old(View()), old(connection.View()), first, answerLeaves)
    {
      var answer := None;
      var session, secrets;
      match first {
        case Unreadable(e) =>
          return Err(e);
        case ClientHello(groupId, add) =>
          connection.groups := connection.groups[groupId := Group([add], None)];
          session, secrets := MlsSession(groupId, 1), Export(groupId, [add]);
        case Resumption(commit) =>
          var update := connection.SessionProcessMlsUpdate(commit, true);
          if update.Err? {
            return Err(update.error);
          }
          secrets, session := update.value.0, update.value.1;
          answer := Some(ConnectionConfirmation(|connection.groups[session.groupId].history|));
      }
      var machine := new ServerMachine.ServerHandshakeState(
        ServerMachine.Server(session, ServerMachine.ServerInternal.Running));
      state := OfServer(machine);
      return if answerLeaves then Ok((secrets, answer)) else Err(TransportError);
    }

    /** Deletes what the handshake stored: a client's row with its group, a server's group. */
    method DeleteHandshake() returns (error: Option<HandshakeError>)
      modifies connection
      ensures Stored(connection.View(), error) == DeleteOf(old(View()), old(connection.View()))
    {
      match state {
        case NoMachine =>
          error := None;
        case OfClient(c) =>
          error := connection.DeleteState(c.profileId);
        case OfServer(s) =>
          error := connection.SessionDelete(s.session);
      }
    }
  }
}
