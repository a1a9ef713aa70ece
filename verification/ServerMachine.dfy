/** The server side of the protocol (src/mls_handshake/state_machine/server.rs). */
module ServerMachine {
  import opened Wrappers
  import opened MlsGroups
  import opened Messages
  import opened Persistence

  datatype ServerInternal = Running | WaitingForUpdate

  datatype Server = Server(session: MlsSession, internal: ServerInternal)

  datatype ServerOutcome<+T> = ServerOutcome(server: Server, groups: Groups, result: Result<T, HandshakeError>)

  function UpdateServer(s: Server, groups: Groups, requested: bool, id: CommitId): ServerOutcome<Signal> {
    if s.internal.WaitingForUpdate? then ServerOutcome(s, groups, Err(WaitingForResponse))
    else
      var u := Update(s.session, groups, id);
      match u.result
      case Err(e) => ServerOutcome(s, u.groups, Err(e))
      case Ok(commit) =>
        ServerOutcome(s.(internal := WaitingForUpdate), u.groups, Ok(ConnectionUpdate(requested, commit)))
  }

  /** A client commit overrides whatever the server was waiting for. */
  function ApplyUpdate(s: Server, groups: Groups, requested: bool, commit: Commit, id: CommitId)
    : ServerOutcome<(TrafficSecrets, Signal)>
  {
    var p := ProcessMlsUpdate(groups, commit, true);
    match p.result
    case Err(e) => ServerOutcome(s, p.groups, Err(e))
    case Ok((secrets, session)) =>
      var s' := Server(session, ServerInternal.Running);
      match CreateEpochKeyUpdate(session, p.groups)
      case Err(e) => ServerOutcome(s', p.groups, Err(e))
      case Ok(epoch) =>
        if !requested then ServerOutcome(s', p.groups, Ok((secrets, EpochKeyUpdate(epoch))))
        else
          var u := Update(session, p.groups, id);
          match u.result
          case Err(e) => ServerOutcome(s', u.groups, Err(e))
          case Ok(own) =>
            ServerOutcome(s'.(internal := WaitingForUpdate), u.groups, Ok((secrets, ConnectionUpdate(false, own))))
  }

  function ReceiveServer(s: Server, groups: Groups, m: Signal, id: CommitId)
    : ServerOutcome<(TrafficSecrets, Signal)>
  {
    match m
    case ConnectionUpdate(requested, commit) => ApplyUpdate(s, groups, requested, commit, id)
    case ConnectionConfirmation(_) => ServerOutcome(s, groups, Err(UnexpectedMessage))
    case EpochKeyUpdate(epoch) =>
      if !s.internal.WaitingForUpdate? then ServerOutcome(s, groups, Err(UnexpectedMessage))
      else
        var merged := MergeUpdate(s.session, groups);
        (match merged.result
         case Err(e) => ServerOutcome(s, merged.groups, Err(e))
         case Ok((session, secrets)) =>
           var s' := s.(session := session);
           match ProcessEpochKeyUpdate(session, merged.groups, epoch)
           case Some(e) => ServerOutcome(s', merged.groups, Err(e))
           case None =>
             match CreateEpochKeyUpdate(session, merged.groups)
             case Err(e) => ServerOutcome(s', merged.groups, Err(e))
             case Ok(own) =>
               ServerOutcome(s'.(internal := ServerInternal.Running), merged.groups,
                             Ok((secrets, EpochKeyUpdate(own)))))
    case KeyUpdate => ServerOutcome(s, groups, Err(Todo))
  }

  /** The server's answer to a resumption: a new handshake state on the stored group. */
  function ProcessResumption(groups: Groups, commit: Commit): Stepped<(Server, TrafficSecrets, Signal)> {
    var p := ProcessMlsUpdate(groups, commit, true);
    match p.result
    case Err(e) => Stepped(p.groups, Err(e))
    case Ok((secrets, session)) =>
      match CreateEpochKeyUpdate(session, p.groups)
      case Err(e) => Stepped(p.groups, Err(e))
      case Ok(epoch) =>
        Stepped(p.groups, Ok((Server(session, ServerInternal.Running), secrets, ConnectionConfirmation(epoch))))
  }

  /** The server half of a fresh handshake: a new group whose first commit adds the client. */
  function CreateServerSession(groups: Groups, groupId: GroupId, add: CommitId)
    : (Server, Groups, TrafficSecrets)
  {
    var group := Group([add], None);
    (Server(MlsSession(groupId, 1), ServerInternal.Running), groups[groupId := group], Export(groupId, [add]))
  }

  /** The server's handshake state, changed in place. */
  class ServerHandshakeState {
    var session: MlsSession
    var internal: ServerInternal

    ghost function View(): Server
      reads this
    {
      Server(session, internal)
    }

    constructor (s: Server)
      ensures View() == s
    {
      session, internal := s.session, s.internal;
    }

    method Update(connection: Connection, requested: bool, id: CommitId) returns (r: Result<Signal, HandshakeError>)
      modifies this, connection
      ensures ServerOutcome(View(), connection.groups, r)
           == UpdateServer(old(View()), old(connection.groups), requested, id)
      ensures connection.rows == old(connection.rows)
    {
      if internal.WaitingForUpdate? {
        return Err(WaitingForResponse);
      }
      var update := connection.SessionUpdate(session, id);
      if update.Err? {
        return Err(update.error);
      }
      internal := WaitingForUpdate;
      return Ok(ConnectionUpdate(requested, update.value));
    }

    method ProcessUpdate(connection: Connection, requested: bool, commit: Commit, id: CommitId)
      returns (r: Result<(TrafficSecrets, Signal), HandshakeError>)
      modifies this, connection
      ensures ServerOutcome(View(), connection.groups, r)
           == ApplyUpdate(old(View()), old(connection.groups), requested, commit, id)
      ensures connection.rows == old(connection.rows)
    {
      var processed := connection.SessionProcessMlsUpdate(commit, true);
      if processed.Err? {
        return Err(processed.error);
      }
      internal := ServerInternal.Running;
      session := processed.value.1;
      var response := EpochKeyUpdate(|connection.groups[session.groupId].history|);
      if requested {
        var own := connection.SessionUpdate(session, id);
        assert own.Ok?;
        internal := WaitingForUpdate;
        response := ConnectionUpdate(false, own.value);
      }
      return Ok((processed.value.0, response));
    }

    method ReceiveSignalingMessage(connection: Connection, m: Signal, id: CommitId)
      returns (r: Result<(TrafficSecrets, Signal), HandshakeError>)
      modifies this, connection
      ensures ServerOutcome(View(), connection.groups, r)
           == ReceiveServer(old(View()), old(connection.groups), m, id)
      ensures connection.rows == old(connection.rows)
    {
      match m
      case ConnectionUpdate(requested, commit) =>
        r := ProcessUpdate(connection, requested, commit, id);
      case ConnectionConfirmation(_) =>
        r := Err(UnexpectedMessage);
      case EpochKeyUpdate(epoch) =>
        if !internal.WaitingForUpdate? {
          return Err(UnexpectedMessage);
        }
        var merged := connection.SessionMergeUpdate(session);
        if merged.Err? {
          return Err(merged.error);
        }
        session := merged.value.0;
        var error := ProcessEpochKeyUpdate(session, connection.groups, epoch);
        if error.Some? {
          return Err(error.value);
        }
        internal := ServerInternal.Running;
        r := Ok((merged.value.1, EpochKeyUpdate(|connection.groups[session.groupId].history|)));
      case KeyUpdate =>
        r := Err(Todo);
    }
  }
}
