/**
 What each operation of storage, group and state machines does in every case, errors included, in terms
 of the stored histories and rows alone: which error it reports, what it has already changed by then, and
 that everything else stays as it was. These hold of all states, not only of the reachable ones.
 */
module Outcomes {
  import opened Wrappers
  import opened MlsGroups
  import opened Messages
  import opened Persistence
  import opened Endpoints

  // ----- rows -----

  /** Inserting: a profile that has a row keeps it; otherwise exactly this row is new. */
  lemma StoreRowOutcome(db: Database, c: Client, q: ProfileId)
    ensures c.profileId in db.rows ==> StoreRow(db, c) == Stored(db, Some(PersistenceError))
    ensures
      c.profileId !in db.rows ==>
        var d := StoreRow(db, c);
        && d.error == None && d.db.groups == db.groups
        && LoadRow(d.db, q) == (if q == c.profileId then Some(c) else LoadRow(db, q))
  {
  }

  /** Updating: exactly an existing row is replaced; none is created. */
  lemma UpdateRowOutcome(db: Database, c: Client, q: ProfileId)
    ensures UpdateRow(db, c).groups == db.groups && UpdateRow(db, c).rows.Keys == db.rows.Keys
    ensures
      LoadRow(UpdateRow(db, c), q)
      == if q == c.profileId && LoadRow(db, q) != None then Some(c) else LoadRow(db, q)
  {
  }

  /** Deleting, also from a table that is not in order: without a row nothing happens; a row without its group
      is reported and kept; otherwise row and group go and nothing else. */
  lemma DeleteRowOutcome(db: Database, p: ProfileId)
    ensures p !in db.rows ==> DeleteRow(db, p) == Stored(db, None)
    ensures
      p in db.rows ==>
        var g := db.rows[p].session.groupId;
        DeleteRow(db, p) == if g in db.groups then Stored(Database(db.groups - {g}, db.rows - {p}), None)
        else Stored(db, Some(InvalidSessionId))
  {
  }

  // ----- groups -----

  /** All groups but `g` are the same. */
  predicate OtherGroupsKept(before: Groups, after: Groups, g: GroupId) {
    before.Keys == after.Keys && forall h :: h in before && h != g ==> after[h] == before[h]
  }

  /** Committing: refused without the group or over a pending commit, and then nothing changes; otherwise
      the group keeps its history and the commit is pending. */
  lemma CommitOutcome(s: MlsSession, groups: Groups, id: CommitId)
    ensures
      var u := Update(s, groups, id);
      if s.groupId !in groups then u == Stepped(groups, Err(InvalidSessionId))
      else if groups[s.groupId].pending.Some? then u == Stepped(groups, Err(ResumptionError))
      else
        && u.result == Ok(Commit(s.groupId, groups[s.groupId].history, id))
        && u.groups[s.groupId] == Group(groups[s.groupId].history, Some(id))
        && OtherGroupsKept(groups, u.groups, s.groupId)
  {
  }

  function WithPending(g: Group): History {
    if g.pending.Some? then g.history + [g.pending.value] else g.history
  }

  /** Merging: the pending commit, if any, becomes the last of the history; the cached epoch and the
      exported secrets are those of the new history. */
  lemma MergeOutcome(s: MlsSession, groups: Groups)
    ensures s.groupId !in groups ==> MergeUpdate(s, groups) == Stepped(groups, Err(InvalidSessionId))
    ensures
      s.groupId in groups ==>
        var g := groups[s.groupId];
        var h := WithPending(g);
        var m := MergeUpdate(s, groups);
        && m.result == Ok((MlsSession(s.groupId, |h|), Export(s.groupId, h)))
        && m.groups[s.groupId] == Group(h, None) && OtherGroupsKept(groups, m.groups, s.groupId)
  {
  }

  /** The history against which a commit is checked: the own pending commit counts as merged if the
      commit is one epoch ahead. */
  function CheckedAgainst(g: Group, commit: Commit): History {
    if |commit.base| == |g.history| + 1 then WithPending(g) else g.history
  }

  /** Processing a commit of the peer: accepted exactly if it was built on the history it is checked
      against, and then it is the last of the history. A refused one may still have made the group merge
      its own commit, or lose it if told to. */
  lemma ProcessOutcome(groups: Groups, commit: Commit, dropPending: bool)
    ensures
      commit.groupId !in groups ==>
        ProcessMlsUpdate(groups, commit, dropPending) == Stepped(groups, Err(InvalidSessionId))
    ensures
      commit.groupId in groups ==>
        var g := groups[commit.groupId];
        var h := CheckedAgainst(g, commit);
        var p := ProcessMlsUpdate(groups, commit, dropPending);
        && OtherGroupsKept(groups, p.groups, commit.groupId)
        && if commit.base == h then
             && p.result == Ok((Export(commit.groupId, h + [commit.id]), MlsSession(commit.groupId, |h| + 1)))
             && p.groups[commit.groupId] == Group(h + [commit.id], None)
           else
             && p.result == Err(ConnectionUpdateError)
             && p.groups[commit.groupId]
                == Group(h, if dropPending || h != g.history then None else g.pending)
  {
  }

  /** Deleting a group. */
  lemma DeleteGroupOutcome(s: MlsSession, groups: Groups)
    ensures
      Delete(s, groups)
      == if s.groupId in groups then Stepped(groups - {s.groupId}, Ok(())) else Stepped(groups, Err(InvalidSessionId))
  {
  }

  // ----- the client -----

  /** The client's database after a step that ends in `c` with history `h` of its group. */
  function Saved(db: Database, g: GroupId, h: History, c: Client): Database {
    Database(db.groups[g := Group(h, None)], if c.profileId in db.rows then db.rows[c.profileId := c] else db.rows)
  }

  /** An update of the client. While it waits, or if its group cannot commit, nothing at all changes. */
  lemma ClientUpdateOutcome(c: Client, db: Database, requested: bool, id: CommitId)
    ensures
      var o := ClientMachine.UpdateClient(c, db, requested, id);
      var g := c.session.groupId;
      if !c.internal.Running? then o == ClientMachine.ClientOutcome(c, db, Err(WaitingForResponse))
      else if g !in db.groups then o == ClientMachine.ClientOutcome(c, db, Err(InvalidSessionId))
      else if db.groups[g].pending.Some? then o == ClientMachine.ClientOutcome(c, db, Err(ResumptionError))
      else
        var h := db.groups[g].history;
        var commit := Commit(g, h, id);
        && o.result == Ok((ClientSecret(g, h + [id]), ConnectionUpdate(requested, commit)))
        && o.client == Client(c.profileId, MlsSession(g, |h| + 1),
                              WaitingForEpochKeyUpdate(PendingUpdate(commit, Export(g, h + [id]))))
        && o.db == Saved(db, g, h + [id], o.client)
  {
    var g := c.session.groupId;
    if g in db.groups && db.groups[g].pending.None? {
      CommitThenMerge(c.session, db.groups, id);
    }
  }

  /** Committing and merging at once leaves one group changed. */
  lemma CommitThenMerge(s: MlsSession, groups: Groups, id: CommitId)
    requires s.groupId in groups && groups[s.groupId].pending.None?
    ensures Update(s, groups, id).result.Ok?
    ensures
      var h := groups[s.groupId].history + [id];
      var m := MergeUpdate(s, Update(s, groups, id).groups);
      && m.groups == groups[s.groupId := Group(h, None)]
      && m.result == Ok((MlsSession(s.groupId, |h|), Export(s.groupId, h)))
  {
    var h := groups[s.groupId].history;
    assert Update(s, groups, id).groups == groups[s.groupId := Group(h, Some(id))];
  }

  /** Joining fails exactly if the profile has a row whose group is gone, and reports that. */
  lemma JoinGroupFailsIff(db: Database, p: ProfileId, g: GroupId, h: History)
    ensures
      var failed := p in db.rows && db.rows[p].session.groupId !in db.groups;
      && (ClientMachine.JoinGroup(db, p, g, h).Err? <==> failed)
      && (failed ==> ClientMachine.JoinGroup(db, p, g, h) == Err(InvalidSessionId))
  {
  }

  /** A confirmation of either kind: the wrong kind, a missing group or another epoch is an error, and any
      of these costs the client its waiting state in memory, while storage is left alone. */
  lemma ClientConfirmationOutcome(c: Client, db: Database, m: Signal, id: CommitId)
    requires m.ConnectionConfirmation? || m.EpochKeyUpdate?
    ensures
      var o := ClientMachine.ReceiveClient(c, db, m, id);
      var g := c.session.groupId;
      var running := c.(internal := Running);
      if m.ConnectionConfirmation? != c.internal.WaitingForConnectionConfirmation? || c.internal.Running? then
        o == ClientMachine.ClientOutcome(running, db, Err(UnexpectedMessage))
      else if g !in db.groups then
        o == ClientMachine.ClientOutcome(running, db, Err(InvalidSessionId))
      else if |db.groups[g].history| != m.epoch then
        o == ClientMachine.ClientOutcome(running, db, Err(ValidationError))
      else
        && o.client == running && o.db.groups == db.groups
        && o.db.rows == (if c.profileId in db.rows then db.rows[c.profileId := running] else db.rows)
        && o.result == Ok((match c.internal
                           case WaitingForEpochKeyUpdate(p) => Some(OnlyServer(p.secrets.server))
                           case WaitingForEpochKeyUpdateReturn(server) => Some(OnlyServer(server))
                           case _ => None, None))
  {
  }

  /** A commit of the server: ignored while the client waits; refused, with nothing but its group touched, if
      it does not fit; otherwise merged and confirmed, or, if asked for, answered by a commit on top. */
  lemma ClientCommitOutcome(c: Client, db: Database, requested: bool, commit: Commit, id: CommitId)
    ensures
      var o := ClientMachine.ReceiveClient(c, db, ConnectionUpdate(requested, commit), id);
      var g := commit.groupId;
      if !c.internal.Running? then o == ClientMachine.ClientOutcome(c, db, Ok((None, None)))
      else if g !in db.groups then o == ClientMachine.ClientOutcome(c, db, Err(InvalidSessionId))
      else if commit.base != CheckedAgainst(db.groups[g], commit) then
        && o.result == Err(ConnectionUpdateError) && o.client == c && o.db.rows == db.rows
        && o.db.groups == ProcessMlsUpdate(db.groups, commit, false).groups
      else
        var h := commit.base + [commit.id];
        if !requested then
          && o.result == Ok((Some(OnlyClient(ClientSecret(g, h))), Some(EpochKeyUpdate(|h|))))
          && o.client == Client(c.profileId, MlsSession(g, |h|), WaitingForEpochKeyUpdateReturn(ServerSecret(g, h)))
          && o.db == Saved(db, g, h, o.client)
        else
          && o.result == Ok((Some(OnlyClient(ClientSecret(g, h + [id]))),
                             Some(ConnectionUpdate(false, Commit(g, h, id)))))
          && o.client == Client(c.profileId, MlsSession(g, |h| + 1),
                                WaitingForEpochKeyUpdate(PendingUpdate(Commit(g, h, id), Export(g, h + [id]))))
          && o.db == Saved(db, g, h + [id], o.client)
  {
    if c.internal.Running? && commit.groupId in db.groups
       && commit.base == CheckedAgainst(db.groups[commit.groupId], commit) {
      var h := commit.base + [commit.id];
      var p := ProcessMlsUpdate(db.groups, commit, false);
      ProcessOutcome(db.groups, commit, false);
      AcceptedGroups(db.groups, p.groups, commit.groupId, Group(h, None));
      CommitThenMerge(p.result.value.1, p.groups, id);
      assert db.groups[commit.groupId := Group(h, None)][commit.groupId := Group(h + [id], None)]
          == db.groups[commit.groupId := Group(h + [id], None)];
    }
  }

  lemma AcceptedGroups(before: Groups, after: Groups, g: GroupId, group: Group)
    requires g in before && OtherGroupsKept(before, after, g) && after[g] == group
    ensures after == before[g := group]
  {
  }

  /** Resuming: an own unconfirmed commit is offered again and nothing but the state changes; otherwise a new
      one is made, and the row is not rewritten. A failure costs the waiting state and nothing else. */
  lemma ResumeOutcome(c: Client, db: Database, id: CommitId)
    ensures
      var o := ClientMachine.ResumeClient(c, db, id);
      var g := c.session.groupId;
      match c.internal
      case WaitingForEpochKeyUpdate(p) =>
        o == ClientMachine.ClientOutcome(c.(internal := WaitingForConnectionConfirmation(p)), db,
                                         Ok((p.secrets, p.commit)))
      case WaitingForConnectionConfirmation(p) =>
        o == ClientMachine.ClientOutcome(c, db, Ok((p.secrets, p.commit)))
      case _ =>
        if g !in db.groups || db.groups[g].pending.Some? then
          o == ClientMachine.ClientOutcome(c.(internal := Running), db, Err(ResumptionError))
        else
          var h := db.groups[g].history;
          var p := PendingUpdate(Commit(g, h, id), Export(g, h + [id]));
          && o.result == Ok((p.secrets, p.commit))
          && o.client == Client(c.profileId, MlsSession(g, |h| + 1), WaitingForConnectionConfirmation(p))
          && o.db == Database(db.groups[g := Group(h + [id], None)], db.rows)
  {
    var g := c.session.groupId;
    if g in db.groups && db.groups[g].pending.None? {
      CommitThenMerge(c.session, db.groups, id);
    }
  }

  // ----- the server -----

  /** An update of the server: its commit stays pending. */
  lemma ServerUpdateOutcome(s: ServerMachine.Server, groups: Groups, requested: bool, id: CommitId)
    ensures
      var o := ServerMachine.UpdateServer(s, groups, requested, id);
      var g := s.session.groupId;
      if s.internal.WaitingForUpdate? then o == ServerMachine.ServerOutcome(s, groups, Err(WaitingForResponse))
      else if g !in groups then o == ServerMachine.ServerOutcome(s, groups, Err(InvalidSessionId))
      else if groups[g].pending.Some? then o == ServerMachine.ServerOutcome(s, groups, Err(ResumptionError))
      else
        var h := groups[g].history;
        && o.result == Ok(ConnectionUpdate(requested, Commit(g, h, id)))
        && o.server == ServerMachine.Server(s.session, ServerMachine.WaitingForUpdate)
        && o.groups == groups[g := Group(h, Some(id))]
  {
  }

  /** A commit of the client, whatever the server waits for: refused if it does not fit, which may have cost the
      server its own commit; otherwise merged and confirmed, or answered by a pending commit if asked for. */
  lemma ServerCommitOutcome(s: ServerMachine.Server, groups: Groups, requested: bool, commit: Commit, id: CommitId)
    ensures
      var o := ServerMachine.ReceiveServer(s, groups, ConnectionUpdate(requested, commit), id);
      var g := commit.groupId;
      if g !in groups then o == ServerMachine.ServerOutcome(s, groups, Err(InvalidSessionId))
      else if commit.base != CheckedAgainst(groups[g], commit) then
        o == ServerMachine.ServerOutcome(s, groups[g := Group(CheckedAgainst(groups[g], commit), None)],
                                         Err(ConnectionUpdateError))
      else
        var h := commit.base + [commit.id];
        var session := MlsSession(g, |h|);
        if !requested then
          o == ServerMachine.ServerOutcome(ServerMachine.Server(session, ServerMachine.ServerInternal.Running),
                                           groups[g := Group(h, None)], Ok((Export(g, h), EpochKeyUpdate(|h|))))
        else
          o == ServerMachine.ServerOutcome(ServerMachine.Server(session, ServerMachine.WaitingForUpdate),
                                           groups[g := Group(h, Some(id))],
                                           Ok((Export(g, h), ConnectionUpdate(false, Commit(g, h, id)))))
  {
    if commit.groupId in groups {
      var p := ProcessMlsUpdate(groups, commit, true);
      ProcessOutcome(groups, commit, true);
      AcceptedGroups(groups, p.groups, commit.groupId, p.groups[commit.groupId]);
      var h := commit.base + [commit.id];
      assert groups[commit.groupId := Group(h, None)][commit.groupId := Group(h, Some(id))]
          == groups[commit.groupId := Group(h, Some(id))];
    }
  }

  /** Any other message. A key confirmation that is not waited for changes nothing; one that is merges the
      pending commit even if it then names another epoch and is refused. */
  lemma ServerConfirmationOutcome(s: ServerMachine.Server, groups: Groups, m: Signal, id: CommitId)
    requires !m.ConnectionUpdate?
    ensures
      var o := ServerMachine.ReceiveServer(s, groups, m, id);
      var g := s.session.groupId;
      if m.KeyUpdate? then o == ServerMachine.ServerOutcome(s, groups, Err(Todo))
      else if m.ConnectionConfirmation? || !s.internal.WaitingForUpdate? then
        o == ServerMachine.ServerOutcome(s, groups, Err(UnexpectedMessage))
      else if g !in groups then o == ServerMachine.ServerOutcome(s, groups, Err(InvalidSessionId))
      else
        var h := WithPending(groups[g]);
        var session := MlsSession(g, |h|);
        && o.groups == groups[g := Group(h, None)]
        && if m.epoch != |h| then
             o.result == Err(ValidationError) && o.server == ServerMachine.Server(session, s.internal)
           else
             && o.result == Ok((Export(g, h), EpochKeyUpdate(|h|)))
             && o.server == ServerMachine.Server(session, ServerMachine.ServerInternal.Running)
  {
  }

  /** The client has no use for a key update message either. */
  lemma ClientKeyUpdateOutcome(c: Client, db: Database, id: CommitId)
    ensures ClientMachine.ReceiveClient(c, db, KeyUpdate, id) == ClientMachine.ClientOutcome(c, db, Err(Todo))
  {
  }

  // ----- the dispatch and the endpoint -----

  /** Without a handshake both calls fail and change nothing. */
  lemma DispatchWithout(db: Database, requested: bool, m: Signal, id: CommitId)
    ensures UpdateHandshake(NoHandshake, db, requested, id) == Dispatched(NoHandshake, db, Err(Uninitialized))
    ensures ProcessSignalingMessage(NoHandshake, db, m, id) == Dispatched(NoHandshake, db, Err(Uninitialized))
  {
  }

  /** With one, the role decides; errors pass through unchanged, with what the machine left behind. */
  lemma DispatchOutcome(c: Client, s: ServerMachine.Server, db: Database, requested: bool, m: Signal, id: CommitId)
    ensures
      var o, d := ClientMachine.UpdateClient(c, db, requested, id), UpdateHandshake(ClientSide(c), db, requested, id);
      && d.hs == ClientSide(o.client) && d.db == o.db
      && (if o.result.Err? then d.result == Err(o.result.error)
          else d.result == Ok((Some(OnlyClient(o.result.value.0)), o.result.value.1)))
    ensures
      var o := ServerMachine.UpdateServer(s, db.groups, requested, id);
      var d := UpdateHandshake(ServerSide(s), db, requested, id);
      && d.hs == ServerSide(o.server) && d.db == Database(o.groups, db.rows)
      && (if o.result.Err? then d.result == Err(o.result.error) else d.result == Ok((None, o.result.value)))
    ensures
      var o, d := ClientMachine.ReceiveClient(c, db, m, id), ProcessSignalingMessage(ClientSide(c), db, m, id);
      d.hs == ClientSide(o.client) && d.db == o.db && d.result == o.result
    ensures
      var o := ServerMachine.ReceiveServer(s, db.groups, m, id);
      var d := ProcessSignalingMessage(ServerSide(s), db, m, id);
      && d.hs == ServerSide(o.server) && d.db == Database(o.groups, db.rows)
      && (if o.result.Err? then d.result == Err(o.result.error)
          else d.result == Ok((Some(Both(o.result.value.0)), Some(o.result.value.1))))
  {
  }

  /** A record opens if and only if key and number are both the receiver's; a record that does not open
      leaves no trace, and one that does uses up one number and nothing else. */
  lemma ReadIff(e: Endpoint, r: Record)
    ensures Read(e, r).Ok? <==> r.key == e.cipher.recvKey && r.seqNo == e.cipher.recvSeq
    ensures Read(e, r).Err? ==> Read(e, r).error == DecryptionFailed
    ensures
      Read(e, r).Ok? ==>
        Read(e, r).value == e.(held := Some(r.payload), cipher := Cipher(e.cipher.sendKey, e.cipher.recvKey,
                                                                         e.cipher.sendSeq, e.cipher.recvSeq + 1))
  {
  }
}
