/**
 The client and server machines, with their storage, epoch tests and error branches, take exactly
 the ideal steps of `Rekeying` in every phase, and report no error.
 */
module Refinement {
  import opened Wrappers
  import opened MlsGroups
  import opened Messages
  import opened Persistence
  import opened Rekeying
  import opened ClientMachine
  import opened ServerMachine

  /** The client's memory and stored group show the client half of `v`; its cached epoch is the
      stored group's epoch. */
  ghost predicate ClientShows(c: Client, db: Database, v: Ideal) {
    && v.groupId in db.groups && db.groups[v.groupId] == Group(v.hc, None)
    && c.session == MlsSession(v.groupId, |v.hc|)
    && c.internal == v.internal
  }

  ghost predicate GroupShows(groups: Groups, v: Ideal) {
    v.groupId in groups && groups[v.groupId] == Group(v.hs, v.pending)
  }

  /** The server waits exactly while it has a pending commit. */
  ghost predicate ServerShows(s: Server, groups: Groups, v: Ideal) {
    && GroupShows(groups, v)
    && s.session == MlsSession(v.groupId, |v.hs|)
    && (s.internal.WaitingForUpdate? <==> v.pending.Some?)
  }

  /** The client's row is its in-memory state, in a consistent table. */
  ghost predicate Persisted(c: Client, db: Database) {
    && Consistent(db)
    && c.profileId in db.rows && db.rows[c.profileId] == c
  }

  /** How a stored row relates to the client's memory. Only a resumption leaves the row behind: it then
      still shows either the same unconfirmed commit or the state one epoch earlier. */
  ghost predicate Behind(row: Client, c: Client) {
    && row.session.groupId == c.session.groupId
    && (!c.internal.WaitingForConnectionConfirmation? ==> row == c)
    && (c.internal.WaitingForConnectionConfirmation? ==>
          if row.internal.WaitingForEpochKeyUpdate? then
            row == c.(internal := WaitingForEpochKeyUpdate(c.internal.pending))
          else
            !row.internal.WaitingForConnectionConfirmation? && row.session.epoch + 1 == c.session.epoch)
  }

  /** The client's row exists, in a consistent table, but may be behind its memory. */
  ghost predicate Filed(c: Client, db: Database) {
    && Consistent(db)
    && c.profileId in db.rows && Behind(db.rows[c.profileId], c)
  }

  /** Only the client's own group and row may differ. */
  ghost predicate OthersKept(c: Client, db: Database, db': Database) {
    && c.session.groupId in db'.groups
    && db'.groups == db.groups[c.session.groupId := db'.groups[c.session.groupId]]
    && db'.rows - {c.profileId} == db.rows - {c.profileId}
  }

  /** The client has a row of its own, whatever it says. */
  ghost predicate HasRow(c: Client, db: Database) {
    Consistent(db) && c.profileId in db.rows && db.rows[c.profileId].session.groupId == c.session.groupId
  }

  lemma RowUpdated(c: Client, db: Database, c': Client, groups: Groups)
    requires HasRow(c, db) && c'.profileId == c.profileId && c'.session.groupId == c.session.groupId
    requires groups.Keys == db.groups.Keys
    ensures Persisted(c', UpdateRow(Database(groups, db.rows), c'))
  {
  }

  /** The whole commit-and-merge of a client update. */
  lemma CommitAndMerge(s: MlsSession, groups: Groups, h: History, id: CommitId)
    requires s.groupId in groups && groups[s.groupId] == Group(h, None)
    ensures Update(s, groups, id).result == Ok(Commit(s.groupId, h, id))
    ensures
      var m := MergeUpdate(s, Update(s, groups, id).groups);
      && m.groups == groups[s.groupId := Group(h + [id], None)]
      && m.result == Ok((MlsSession(s.groupId, |h| + 1), Export(s.groupId, h + [id])))
  {
    assert Update(s, groups, id).groups == groups[s.groupId := Group(h, Some(id))];
  }

  lemma ClientUpdateRefines(c: Client, db: Database, v: Ideal, id: CommitId)
    requires ClientShows(c, db, v) && Persisted(c, db) && v.internal.Running?
    ensures
      var o := UpdateClient(c, db, false, id);
      var v' := ClientUpdate(v, id);
      && o.result == Ok((ClientSecret(v.groupId, v'.hc), ConnectionUpdate(false, Commit(v.groupId, v.hc, id))))
      && ClientShows(o.client, o.db, v') && Persisted(o.client, o.db)
      && OthersKept(c, db, o.db) && o.client.profileId == c.profileId
  {
    CommitAndMerge(c.session, db.groups, v.hc, id);
    var o := UpdateClient(c, db, false, id);
    RowUpdated(c, db, o.client, o.db.groups);
  }

  lemma ClientIgnores(c: Client, db: Database, m: Signal, id: CommitId)
    requires m.ConnectionUpdate? && !c.internal.Running?
    ensures ReceiveClient(c, db, m, id) == ClientOutcome(c, db, Ok((None, None)))
  {
  }

  lemma ClientAccepts(c: Client, db: Database, v: Ideal, id: CommitId)
    requires ClientShows(c, db, v) && Persisted(c, db) && v.internal.Running?
    requires v.down != [] && v.down[0].ConnectionUpdate? && v.up == []
    requires v.down[0].commit.groupId == v.groupId && v.down[0].commit.base == v.hc
    ensures
      var o := ReceiveClient(c, db, v.down[0], id);
      var v' := ClientTake(v, id);
      && |v'.up| == 1
      && o.result == Ok((Some(OnlyClient(ClientSecret(v.groupId, v'.hc))), Some(v'.up[0])))
      && ClientShows(o.client, o.db, v') && Persisted(o.client, o.db)
      && OthersKept(c, db, o.db) && o.client.profileId == c.profileId
  {
    var commit := v.down[0].commit;
    var h := commit.Applied();
    var groups := db.groups[v.groupId := Group(h, None)];
    var p := ProcessMlsUpdate(db.groups, commit, false);
    assert p == Stepped(groups, Ok((Export(v.groupId, h), MlsSession(v.groupId, |h|)))) by {
      assert db.groups[v.groupId := Group(v.hc, None)][v.groupId := Group(h, None)] == groups;
    }
    if v.down[0].requested {
      CommitAndMerge(MlsSession(v.groupId, |h|), groups, h, id);
      assert groups[v.groupId := Group(h + [id], None)] == db.groups[v.groupId := Group(h + [id], None)];
    }
    var o := ReceiveClient(c, db, v.down[0], id);
    RowUpdated(c, db, o.client, o.db.groups);
  }

  lemma ClientConfirms(c: Client, db: Database, v: Ideal, id: CommitId)
    requires ClientShows(c, db, v) && Persisted(c, db) && Remembers(v)
    requires v.internal.WaitingForEpochKeyUpdate? || v.internal.WaitingForEpochKeyUpdateReturn?
    requires v.down != [] && v.down[0] == EpochKeyUpdate(|v.hc|)
    ensures
      var o := ReceiveClient(c, db, v.down[0], id);
      var v' := ClientTake(v, id);
      && o.result == Ok((Some(OnlyServer(ServerSecret(v.groupId, v.hc))), None))
      && ClientShows(o.client, o.db, v') && Persisted(o.client, o.db)
      && OthersKept(c, db, o.db) && o.client.profileId == c.profileId
  {
    var o := ReceiveClient(c, db, v.down[0], id);
    RowUpdated(c, db, o.client, db.groups);
  }

  /** What the driver is told after the client processed `v.down[0]`. */
  ghost function ClientReaction(v: Ideal, id: CommitId): Reaction
    requires v.down != []
  {
    var v' := ClientTake(v, id);
    if v.down[0].EpochKeyUpdate? then (Some(OnlyServer(ServerSecret(v.groupId, v.hc))), None)
    else if v.internal.Running? && |v'.up| > 0 then (Some(OnlyClient(ClientSecret(v.groupId, v'.hc))), Some(v'.up[0]))
    else (None, None)
  }

  /** In every phase the client processes the next message without error, as the ideal client does. */
  lemma ClientTakeRefines(c: Client, db: Database, v: Ideal, id: CommitId)
    requires Phase(v) && v.down != [] && ClientShows(c, db, v) && Persisted(c, db)
    ensures
      var o := ReceiveClient(c, db, v.down[0], id);
      var v' := ClientTake(v, id);
      && o.result == Ok(ClientReaction(v, id))
      && ClientShows(o.client, o.db, v') && Persisted(o.client, o.db)
      && OthersKept(c, db, o.db) && o.client.profileId == c.profileId
  {
    if Agreed(v) {
      ClientAccepts(c, db, v, id);
    } else if v.down[0].ConnectionUpdate? {
      ClientIgnores(c, db, v.down[0], id);
      assert db.groups == db.groups[c.session.groupId := db.groups[c.session.groupId]];
    } else {
      var k: nat :| ConfirmedAt(v, k);
      assert k == 0;
      ClientConfirms(c, db, v, id);
    }
  }

  lemma ServerUpdateRefines(s: Server, groups: Groups, v: Ideal, requested: bool, id: CommitId)
    requires ServerShows(s, groups, v) && v.pending.None?
    ensures
      var o := UpdateServer(s, groups, requested, id);
      var v' := ServerUpdate(v, requested, id);
      && o.result == Ok(ConnectionUpdate(requested, Commit(v.groupId, v.hs, id)))
      && o.groups == groups[v.groupId := Group(v.hs, Some(id))]
      && ServerShows(o.server, o.groups, v')
  {
  }

  /** The epoch test: for a commit built on the server's history, or on that history with the pending
      commit merged, the server ends on exactly the commit's history. */
  lemma ProcessOnServer(groups: Groups, v: Ideal, commit: Commit)
    requires GroupShows(groups, v) && commit.groupId == v.groupId
    requires commit.base == v.hs || Merged(v, commit.base)
    ensures ProcessMlsUpdate(groups, commit, true)
         == Stepped(groups[v.groupId := Group(commit.Applied(), None)],
                    Ok((Export(v.groupId, commit.Applied()), MlsSession(v.groupId, |commit.Applied()|))))
  {
    var g := Resolve(groups[v.groupId], commit, true);
    assert g == Group(commit.base, None);
    assert groups[v.groupId := g][v.groupId := Group(commit.Applied(), None)]
        == groups[v.groupId := Group(commit.Applied(), None)];
  }

  /** In every phase the server processes the next message without error, as the ideal server does. */
  lemma ServerTakeRefines(s: Server, groups: Groups, v: Ideal, id: CommitId)
    requires Phase(v) && v.up != [] && ServerShows(s, groups, v)
    ensures
      var o := ReceiveServer(s, groups, v.up[0], id);
      var v' := ServerTake(v);
      && o.result == Ok((Export(v.groupId, v'.hs), EpochKeyUpdate(|v'.hs|)))
      && o.groups == groups[v.groupId := Group(v'.hs, None)]
      && ServerShows(o.server, o.groups, v')
  {
    if v.up[0].ConnectionUpdate? {
      var commit := v.up[0].commit;
      ProcessOnServer(groups, v, commit);
      assert ReceiveServer(s, groups, v.up[0], id) == ApplyUpdate(s, groups, false, commit, id);
    } else {
      assert ClientAccepted(v);
    }
  }
}
