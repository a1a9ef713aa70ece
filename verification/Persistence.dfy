/**
 The storage of one side: the MLS groups and the table of client handshake states
 (src/mls_handshake/persistence.rs). The value `Database` and the functions on it specify the
 `Connection` class, which changes its fields in place as the SQLite connection does.
 */
module Persistence {
  import opened Wrappers
  import opened MlsGroups

  datatype PendingUpdate = PendingUpdate(commit: Commit, secrets: TrafficSecrets)

  datatype ClientInternal =
    | Running
    | WaitingForConnectionConfirmation(pending: PendingUpdate)
    | WaitingForEpochKeyUpdate(pending: PendingUpdate)
    | WaitingForEpochKeyUpdateReturn(server: Secret)

  /** The client handshake state: what a row of the table holds. */
  datatype Client = Client(profileId: ProfileId, session: MlsSession, internal: ClientInternal)

  datatype Database = Database(groups: Groups, rows: map<ProfileId, Client>)

  datatype Stored = Stored(db: Database, error: Option<HandshakeError>)

  // ----- table operations -----

  /** INSERT: a second row for a profile violates the primary key. */
  function StoreRow(db: Database, c: Client): Stored {
    if c.profileId in db.rows then Stored(db, Some(PersistenceError))
    else Stored(db.(rows := db.rows[c.profileId := c]), None)
  }

  function LoadRow(db: Database, profileId: ProfileId): Option<Client> {
    if profileId in db.rows then Some(db.rows[profileId]) else None
  }

  /** UPDATE: touches no row when the profile has none. */
  function UpdateRow(db: Database, c: Client): Database {
    if c.profileId in db.rows then db.(rows := db.rows[c.profileId := c]) else db
  }

  /** Deletes the group of the row first, then the row. */
  function DeleteRow(db: Database, profileId: ProfileId): Stored {
    match LoadRow(db, profileId)
    case None => Stored(db, None)
    case Some(c) =>
      var d := Delete(c.session, db.groups);
      match d.result
      case Err(e) => Stored(db.(groups := d.groups), Some(e))
      case Ok(_) => Stored(Database(d.groups, db.rows - {profileId}), None)
  }

  // ----- what every honest step keeps -----

  /** Each row is filed under its own profile, its group exists, and no two rows share a group. */
  ghost predicate Consistent(db: Database) {
    && (forall p <- db.rows :: db.rows[p].profileId == p && db.rows[p].session.groupId in db.groups)
    && (forall p, q :: p in db.rows && q in db.rows && p != q
                       ==> db.rows[p].session.groupId != db.rows[q].session.groupId)
  }

  /** Deletion succeeds on every consistent database, removes exactly the profile's row and group,
      and leaves a consistent database in which a new row for the profile can be inserted. */
  lemma DeleteRowSucceeds(db: Database, profileId: ProfileId)
    requires Consistent(db)
    ensures
      var d := DeleteRow(db, profileId);
      && d.error == None
      && Consistent(d.db)
      && d.db.rows == db.rows - {profileId}
      && d.db.groups == (if profileId in db.rows then db.groups - {db.rows[profileId].session.groupId} else db.groups)
  {
    if profileId !in db.rows {
      assert db.rows - {profileId} == db.rows;
    }
  }

  /** The SQLite connection of one side. */
  class Connection {
    var groups: Groups
    var rows: map<ProfileId, Client>

    ghost function View(): Database
      reads this
    {
      Database(groups, rows)
    }

    constructor (groups: Groups, rows: map<ProfileId, Client>)
      ensures View() == Database(groups, rows)
    {
      this.groups, this.rows := groups, rows;
    }

    method Store(c: Client) returns (error: Option<HandshakeError>)
      modifies this
      ensures Stored(View(), error) == StoreRow(old(View()), c)
    {
      if c.profileId in rows {
        return Some(PersistenceError);
      }
      rows := rows[c.profileId := c];
      return None;
    }

    method Load(profileId: ProfileId) returns (c: Option<Client>)
      ensures c == LoadRow(View(), profileId)
    {
      if profileId in rows {
        return Some(rows[profileId]);
      }
      return None;
    }

    method StoreUpdate(c: Client)
      modifies this
      ensures View() == UpdateRow(old(View()), c)
    {
      if c.profileId in rows {
        rows := rows[c.profileId := c];
      }
    }

    method DeleteState(profileId: ProfileId) returns (error: Option<HandshakeError>)
      modifies this
      ensures Stored(View(), error) == DeleteRow(old(View()), profileId)
    {
      var c := Load(profileId);
      if c.Some? {
        error := SessionDelete(c.value.session);
        if error.Some? {
          return;
        }
        rows := rows - {profileId};
      }
      return None;
    }

    // ----- MlsSession operations on the stored groups -----

    method SessionUpdate(s: MlsSession, id: CommitId) returns (r: Result<Commit, HandshakeError>)
      modifies this
      ensures Stepped(groups, r) == Update(s, old(groups), id) && rows == old(rows)
    {
      if s.groupId !in groups {
        return Err(InvalidSessionId);
      }
      var group := groups[s.groupId];
      if group.pending.Some? {
        return Err(ResumptionError);
      }
      groups := groups[s.groupId := group.(pending := Some(id))];
      return Ok(Commit(s.groupId, group.history, id));
    }

    method SessionDelete(s: MlsSession) returns (error: Option<HandshakeError>)
      modifies this
      ensures
        var d := Delete(s, old(groups));
        && groups == d.groups && rows == old(rows)
        && error == if d.result.Ok? then None else Some(d.result.error)
    {
      if s.groupId !in groups {
        return Some(InvalidSessionId);
      }
      groups := groups - {s.groupId};
      return None;
    }

    method SessionMergeUpdate(s: MlsSession) returns (r: Result<(MlsSession, TrafficSecrets), HandshakeError>)
      modifies this
      ensures Stepped(groups, r) == MergeUpdate(s, old(groups)) && rows == old(rows)
    {
      if s.groupId !in groups {
        return Err(InvalidSessionId);
      }
      var group := MergePending(groups[s.groupId]);
      groups := groups[s.groupId := group];
      return Ok((s.(epoch := |group.history|), Export(s.groupId, group.history)));
    }

    method SessionProcessMlsUpdate(commit: Commit, dropPending: bool)
      returns (r: Result<(TrafficSecrets, MlsSession), HandshakeError>)
      modifies this
      ensures Stepped(groups, r) == ProcessMlsUpdate(old(groups), commit, dropPending) && rows == old(rows)
    {
      if commit.groupId !in groups {
        return Err(InvalidSessionId);
      }
      var group := groups[commit.groupId];
      if commit.Epoch() == |group.history| + 1 && group.pending.Some? {
        group := MergePending(group);
      } else if dropPending {
        group := ClearPending(group);
      }
      groups := groups[commit.groupId := group];
      if commit.base != group.history {
        return Err(ConnectionUpdateError);
      }
      group := Group(group.history + [commit.id], None);
      groups := groups[commit.groupId := group];
      return Ok((Export(commit.groupId, group.history), MlsSession(commit.groupId, |group.history|)));
    }
  }
}
