/** The client side of the protocol (src/mls_handshake/state_machine/client.rs). */
module ClientMachine {
  import opened Wrappers
  import opened MlsGroups
  import opened Messages
  import opened Persistence

  /** What a client step leaves behind; an error keeps whatever had already been changed. */
  datatype ClientOutcome<+T> = ClientOutcome(client: Client, db: Database, result: Result<T, HandshakeError>)

  type Reaction = (Option<SecretUpdate>, Option<Signal>)

  function UpdateClient(c: Client, db: Database, requested: bool, id: CommitId)
    : ClientOutcome<(Secret, Signal)>
  {
    if !c.internal.Running? then ClientOutcome(c, db, Err(WaitingForResponse))
    else
      var u := Update(c.session, db.groups, id);
      match u.result
      case Err(e) => ClientOutcome(c, db.(groups := u.groups), Err(e))
      case Ok(commit) =>
        var m := MergeUpdate(c.session, u.groups);
        match m.result
        case Err(e) => ClientOutcome(c, db.(groups := m.groups), Err(e))
        case Ok((session, secrets)) =>
          var c' := Client(c.profileId, session, WaitingForEpochKeyUpdate(PendingUpdate(commit, secrets)));
          ClientOutcome(c', UpdateRow(db.(groups := m.groups), c'),
                        Ok((secrets.client, ConnectionUpdate(requested, commit))))
  }

  function AcceptUpdate(c: Client, db: Database, requested: bool, commit: Commit, id: CommitId)
    : ClientOutcome<(Secret, Signal)>
  {
    var p := ProcessMlsUpdate(db.groups, commit, false);
    var db1 := db.(groups := p.groups);
    match p.result
    case Err(e) => ClientOutcome(c, db1, Err(e))
    case Ok((secrets, session)) =>
      var c1 := c.(session := session);
      match CreateEpochKeyUpdate(session, db1.groups)
      case Err(e) => ClientOutcome(c1, db1, Err(e))
      case Ok(epoch) =>
        if !requested then
          ClientOutcome(c1.(internal := WaitingForEpochKeyUpdateReturn(secrets.server)), db1,
                        Ok((secrets.client, EpochKeyUpdate(epoch))))
        else
          var u := Update(session, db1.groups, id);
          match u.result
          case Err(e) => ClientOutcome(c1, db1.(groups := u.groups), Err(e))
          case Ok(own) =>
            var m := MergeUpdate(session, u.groups);
            match m.result
            case Err(e) => ClientOutcome(c1, db1.(groups := m.groups), Err(e))
            case Ok((session', secrets')) =>
              ClientOutcome(Client(c.profileId, session', WaitingForEpochKeyUpdate(PendingUpdate(own, secrets'))),
                            db1.(groups := m.groups),
                            Ok((secrets'.client, ConnectionUpdate(false, own))))
  }

  /** Taking the state out leaves `Running` behind, also when the message is then refused. */
  function Confirm(c: Client, db: Database, epoch: nat, update: Option<SecretUpdate>): ClientOutcome<Reaction> {
    var c' := c.(internal := Running);
    match ProcessEpochKeyUpdate(c.session, db.groups, epoch)
    case Some(e) => ClientOutcome(c', db, Err(e))
    case None => ClientOutcome(c', UpdateRow(db, c'), Ok((update, None)))
  }

  function ReceiveClient(c: Client, db: Database, m: Signal, id: CommitId): ClientOutcome<Reaction> {
    match m
    case ConnectionUpdate(requested, commit) =>
      if !c.internal.Running? then ClientOutcome(c, db, Ok((None, None)))
      else
        var a := AcceptUpdate(c, db, requested, commit, id);
        (match a.result
         case Err(e) => ClientOutcome(a.client, a.db, Err(e))
         case Ok((secret, response)) =>
           ClientOutcome(a.client, UpdateRow(a.db, a.client), Ok((Some(OnlyClient(secret)), Some(response)))))
    case ConnectionConfirmation(epoch) =>
      if c.internal.WaitingForConnectionConfirmation? then Confirm(c, db, epoch, None)
      else ClientOutcome(c.(internal := Running), db, Err(UnexpectedMessage))
    case EpochKeyUpdate(epoch) =>
      (match c.internal
       case WaitingForEpochKeyUpdateReturn(server) => Confirm(c, db, epoch, Some(OnlyServer(server)))
       case WaitingForEpochKeyUpdate(p) => Confirm(c, db, epoch, Some(OnlyServer(p.secrets.server)))
       case _ => ClientOutcome(c.(internal := Running), db, Err(UnexpectedMessage)))
    case KeyUpdate => ClientOutcome(c, db, Err(Todo))
  }

  /** A client with an unconfirmed commit of its own offers that commit again; otherwise a fresh one.
      The stored row is not rewritten. */
  function ResumeClient(c: Client, db: Database, id: CommitId): ClientOutcome<(TrafficSecrets, Commit)> {
    match c.internal
    case WaitingForEpochKeyUpdate(p) =>
      ClientOutcome(c.(internal := WaitingForConnectionConfirmation(p)), db, Ok((p.secrets, p.commit)))
    case WaitingForConnectionConfirmation(p) => ClientOutcome(c, db, Ok((p.secrets, p.commit)))
    case _ =>
      var u := Update(c.session, db.groups, id);
      (match u.result
       case Err(_) => ClientOutcome(c.(internal := Running), db.(groups := u.groups), Err(ResumptionError))
       case Ok(commit) =>
         var m := MergeUpdate(c.session, u.groups);
         match m.result
         case Err(e) => ClientOutcome(c.(internal := Running), db.(groups := m.groups), Err(e))
         case Ok((session, secrets)) =>
           ClientOutcome(Client(c.profileId, session, WaitingForConnectionConfirmation(PendingUpdate(commit, secrets))),
                         db.(groups := m.groups), Ok((secrets, commit))))
  }

  /** The client half of a fresh handshake: drop an old row with its group, join, store the new row. */
  function JoinGroup(db: Database, profileId: ProfileId, groupId: GroupId, history: History)
    : Result<(Client, Database, TrafficSecrets), HandshakeError>
  {
    var d := DeleteRow(db, profileId);
    match d.error
    case Some(e) => Err(e)
    case None =>
      var c := Client(profileId, MlsSession(groupId, |history|), Running);
      var stored := StoreRow(d.db.(groups := d.db.groups[groupId := Group(history, None)]), c);
      match stored.error
      case Some(e) => Err(e)
      case None => Ok((c, stored.db, Export(groupId, history)))
  }

  /** From any consistent database, joining a group new to it succeeds and keeps the database
      consistent: one row for the profile, all other rows and groups untouched. */
  lemma JoinGroupSucceeds(db: Database, profileId: ProfileId, groupId: GroupId, history: History)
    requires Consistent(db) && groupId !in db.groups
    ensures
      var c := Client(profileId, MlsSession(groupId, |history|), Running);
      exists db' ::
        && JoinGroup(db, profileId, groupId, history) == Ok((c, db', Export(groupId, history)))
        && Consistent(db')
        && db'.rows == db.rows[profileId := c]
        && db'.groups == (if profileId in db.rows then db.groups - {db.rows[profileId].session.groupId}
                          else db.groups)[groupId := Group(history, None)]
  {
    DeleteRowSucceeds(db, profileId);
    var d := DeleteRow(db, profileId).db;
    var c := Client(profileId, MlsSession(groupId, |history|), Running);
    var db' := Database(d.groups[groupId := Group(history, None)], d.rows[profileId := c]);
    assert db'.rows == db.rows[profileId := c];
    assert JoinGroup(db, profileId, groupId, history) == Ok((c, db', Export(groupId, history)));
  }

  /** An attempt that failed after the old row was deleted makes no difference to the next one. */
  lemma FailedAttemptIsForgotten(db: Database, profileId: ProfileId, groupId: GroupId, history: History)
    requires Consistent(db)
    ensures Consistent(DeleteRow(db, profileId).db) && profileId !in DeleteRow(db, profileId).db.rows
    ensures JoinGroup(DeleteRow(db, profileId).db, profileId, groupId, history)
         == JoinGroup(db, profileId, groupId, history)
  {
    DeleteRowSucceeds(db, profileId);
    var d := DeleteRow(db, profileId).db;
    assert DeleteRow(d, profileId) == Stored(d, None);
  }

  /** The client's handshake state, changed in place. */
  class ClientHandshakeState {
    var profileId: ProfileId
    var session: MlsSession
    var internal: ClientInternal

    ghost function View(): Client
      reads this
    {
      Client(profileId, session, internal)
    }

    constructor (c: Client)
      ensures View() == c
    {
      profileId, session, internal := c.profileId, c.session, c.internal;
    }

    method Update(connection: Connection, requested: bool, id: CommitId)
      returns (r: Result<(Secret, Signal), HandshakeError>)
      modifies this, connection
      ensures ClientOutcome(View(), connection.View(), r)
           == UpdateClient(old(View()), old(connection.View()), requested, id)
    {
      if !internal.Running? {
        return Err(WaitingForResponse);
      }
      var update := connection.SessionUpdate(session, id);
      if update.Err? {
        return Err(update.error);
      }
      var merged := connection.SessionMergeUpdate(session);
      assert merged.Ok?;
      session := merged.value.0;
      internal := WaitingForEpochKeyUpdate(PendingUpdate(update.value, merged.value.1));
      connection.StoreUpdate(Client(profileId, session, internal));
      return Ok((merged.value.1.client, ConnectionUpdate(requested, update.value)));
    }

    method ProcessUpdate(connection: Connection, requested: bool, commit: Commit, id: CommitId)
      returns (r: Result<(Secret, Signal), HandshakeError>)
      modifies this, connection
      ensures ClientOutcome(View(), connection.View(), r)
           == AcceptUpdate(old(View()), old(connection.View()), requested, commit, id)
    {
      var processed := connection.SessionProcessMlsUpdate(commit, false);
      if processed.Err? {
        return Err(processed.error);
      }
      session := processed.value.1;
      var secrets := processed.value.0;
      var response := EpochKeyUpdate(|connection.groups[session.groupId].history|);
      if requested {
        var own := connection.SessionUpdate(session, id);
        assert own.Ok?;
        var merged := connection.SessionMergeUpdate(session);
        assert merged.Ok?;
        session := merged.value.0;
        secrets := merged.value.1;
        internal := WaitingForEpochKeyUpdate(PendingUpdate(own.value, secrets));
        response := ConnectionUpdate(false, own.value);
      } else {
        internal := WaitingForEpochKeyUpdateReturn(secrets.server);
      }
      return Ok((secrets.client, response));
    }

    method ReceiveSignalingMessage(connection: Connection, m: Signal, id: CommitId)
      returns (r: Result<Reaction, HandshakeError>)
      modifies this, connection
      ensures ClientOutcome(View(), connection.View(), r)
           == ReceiveClient(old(View()), old(connection.View()), m, id)
    {
      match m {
        case ConnectionUpdate(requested, commit) =>
          if !internal.Running? {
            return Ok((None, None));
          }
          var accepted := ProcessUpdate(connection, requested, commit, id);
          if accepted.Err? {
            return Err(accepted.error);
          }
          r := Ok((Some(OnlyClient(accepted.value.0)), Some(accepted.value.1)));
        case ConnectionConfirmation(epoch) =>
          var taken := internal;
          internal := Running;
          if !taken.WaitingForConnectionConfirmation? {
            return Err(UnexpectedMessage);
          }
          var error := ProcessEpochKeyUpdate(session, connection.groups, epoch);
          if error.Some? {
            return Err(error.value);
          }
          r := Ok((None, None));
        case EpochKeyUpdate(epoch) =>
          var taken := internal;
          internal := Running;
          if taken.Running? || taken.WaitingForConnectionConfirmation? {
            return Err(UnexpectedMessage);
          }
          var error := ProcessEpochKeyUpdate(session, connection.groups, epoch);
          if error.Some? {
            return Err(error.value);
          }
          var secret := if taken.WaitingForEpochKeyUpdateReturn? then taken.server else taken.pending.secrets.server;
          r := Ok((Some(OnlyServer(secret)), None));
        case KeyUpdate =>
          return Err(Todo);
      }
      connection.StoreUpdate(Client(profileId, session, internal));
    }

    method Resume(connection: Connection, id: CommitId)
      returns (r: Result<(TrafficSecrets, Commit), HandshakeError>)
      modifies this, connection
      ensures ClientOutcome(View(), connection.View(), r)
           == ResumeClient(old(View()), old(connection.View()), id)
    {
      var taken := internal;
      internal := Running;
      var pending: PendingUpdate;
      match taken {
        case WaitingForEpochKeyUpdate(p) => pending := p;
        case WaitingForConnectionConfirmation(p) => pending := p;
        case _ =>
          var update := connection.SessionUpdate(session, id);
          if update.Err? {
            return Err(ResumptionError);
          }
          var merged := connection.SessionMergeUpdate(session);
          assert merged.Ok?;
          session := merged.value.0;
          pending := PendingUpdate(update.value, merged.value.1);
      }
      internal := WaitingForConnectionConfirmation(pending);
      return Ok((pending.secrets, pending.commit));
    }
  }
}
