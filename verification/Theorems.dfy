/** What holds in every reachable state and over every honest run. */
module Theorems {
  import opened Wrappers
  import opened MlsGroups
  import opened Persistence
  import opened Endpoints
  import opened Network
  import opened Channels
  import opened Rekeying
  import opened Safety
  import opened Simulation

  function ClientHistory(s: System): History {
    if s.groupId in s.client.db.groups then s.client.db.groups[s.groupId].history else []
  }

  function ServerHistory(s: System): History {
    if s.groupId in s.server.db.groups then s.server.db.groups[s.groupId].history else []
  }

  function ServerPending(s: System): Option<CommitId> {
    if s.groupId in s.server.db.groups then s.server.db.groups[s.groupId].pending else None
  }

  predicate ClientRuns(s: System) {
    s.client.hs.ClientSide? && s.client.hs.client.internal.Running?
  }

  predicate ServerRuns(s: System) {
    s.server.hs.ServerSide? && s.server.hs.server.internal.Running?
  }

  /** The client's commit is out and unconfirmed. */
  predicate WaitsForOwn(c: Client) {
    c.internal.WaitingForEpochKeyUpdate? || c.internal.WaitingForConnectionConfirmation?
  }

  predicate ClientWaitsForOwn(s: System) {
    s.client.hs.ClientSide? && WaitsForOwn(s.client.hs.client)
  }

  predicate Mirrored(c: Cipher, s: Cipher) {
    c.sendKey == s.recvKey && c.recvKey == s.sendKey
  }

  /** What can be read off a state of the invariant without looking at the channels. */
  ghost predicate Reads(s: System, v: Ideal) {
    && ClientHistory(s) == v.hc && ServerHistory(s) == v.hs && ServerPending(s) == v.pending
    && (ClientRuns(s) <==> v.internal.Running?)
    && (ClientWaitsForOwn(s) <==> v.internal.WaitingForEpochKeyUpdate? || v.internal.WaitingForConnectionConfirmation?)
    && Related(v) && Accounted(v, s.server.serial) && s.server.isServer
  }

  lemma InvReads(s: System, v: Ideal)
    requires InvAt(s, v)
    ensures Reads(s, v)
  {
  }

  lemma ReachableReads(s: System) returns (v: Ideal)
    requires Reachable(s)
    ensures Reads(s, v)
  {
    ReachableInv(s);
    v :| InvAt(s, v);
    InvReads(s, v);
  }

  // ----- agreement -----

  lemma RunningMirrors(s: System)
    requires Reachable(s) && ClientRuns(s) && s.link.Up?
    ensures Mirrored(s.client.cipher, s.server.cipher)
  {
    ReachableInv(s);
    var v :| InvAt(s, v);
    PhaseAgreement(v);
  }

  /** The server never leaves the client's history and is at most two commits behind; while the client
      runs, both are on the same history and use the same keys. */
  lemma Agreement(s: System)
    requires Reachable(s)
    ensures ServerHistory(s) <= ClientHistory(s) && |ClientHistory(s)| <= |ServerHistory(s)| + 2
    ensures ClientRuns(s) ==> ClientHistory(s) == ServerHistory(s)
    ensures ClientRuns(s) && s.link.Up? ==> Mirrored(s.client.cipher, s.server.cipher)
  {
    var v := ReachableReads(s);
    RelatedAgreement(v);
    if ClientRuns(s) && s.link.Up? {
      RunningMirrors(s);
    }
  }

  lemma RelatedAgreement(v: Ideal)
    requires Related(v)
    ensures v.hs <= v.hc && |v.hc| <= |v.hs| + 2
    ensures v.internal.Running? ==> v.hs == v.hc
  {
    if v.internal.WaitingForEpochKeyUpdate? || v.internal.WaitingForConnectionConfirmation? {
      var p := v.internal.pending;
      assert v.hc == p.commit.base + [p.commit.id];
    }
  }

  // ----- decryption -----

  /** The next record each side reads was sealed under exactly its current receive key and number. */
  lemma EveryRecordOpens(s: System)
    requires Reachable(s) && s.link.Up?
    ensures s.client.held.None? && s.toClient != [] ==> Read(s.client, s.toClient[0]).Ok?
    ensures s.server.held.None? && s.toServer != [] ==> Read(s.server, s.toServer[0]).Ok?
  {
    ReachableInv(s);
    var v :| InvAt(s, v);
    if s.client.held.None? && s.toClient != [] {
      ReadKeepsSound(ToClientPipe(s), ToClient, ServerSecret(v.groupId, v.hc));
    }
    if s.server.held.None? && s.toServer != [] {
      ReadKeepsSound(ToServerPipe(s), ToServer, ClientSecret(v.groupId, v.hc));
    }
  }

  /** What the held message makes of the key of the next record. */
  lemma NextAfterHeld(p: Pipe, d: Direction, next: Secret)
    requires Sound(p, d, next) && p.held.Some? && p.records != []
    ensures p.records[0].seqNo == p.recvSeq
    ensures p.records[0].key == if SwitchesOn(p.held.value, d) then next else p.recvKey
  {
  }

  /** Reading ahead at the client: behind a message that was read and not yet processed, the next record
      opens if and only if that message is not a key confirmation. */
  lemma ClientReadAheadIff(s: System)
    requires Reachable(s) && s.link.Up? && s.client.held.Some? && s.toClient != []
    ensures Read(s.client, s.toClient[0]).Ok?
       <==> !(s.client.held.value.Signaling? && s.client.held.value.signal.EpochKeyUpdate?)
  {
    ReachableInv(s);
    var v :| InvAt(s, v);
    NextAfterHeld(ToClientPipe(s), ToClient, ServerSecret(v.groupId, v.hc));
    if SwitchesOn(s.client.held.value, ToClient) {
      HeldIsNext(ToClientPipe(s));
      assert !v.internal.Running?;
    }
  }

  /** Reading ahead at the server: there every signaling message changes the receive key. */
  lemma ServerReadAheadIff(s: System)
    requires Reachable(s) && s.link.Up? && s.server.held.Some? && s.toServer != []
    ensures Read(s.server, s.toServer[0]).Ok? <==> !s.server.held.value.Signaling?
  {
    ReachableInv(s);
    var v :| InvAt(s, v);
    NextAfterHeld(ToServerPipe(s), ToServer, ClientSecret(v.groupId, v.hc));
    if s.server.held.value.Signaling? {
      HeldIsNext(ToServerPipe(s));
      ServerBehind(v);
    }
  }

  // ----- delivery -----

  /** Each direction is a FIFO queue of application data across all rekeyings: what was returned,
      followed by what is in flight, is what was sent. */
  lemma FifoDelivery(s: System)
    requires Reachable(s) && s.link.Up?
    ensures s.client.sent == s.server.got + Datas(Queue(ToServerPipe(s)))
    ensures s.server.sent == s.client.got + Datas(Queue(ToClientPipe(s)))
  {
    ReachableInv(s);
    var v :| InvAt(s, v);
    assert Connected(s, v);
  }

  // ----- stored state -----

  lemma ServerAtHand(s: System)
    requires Inv(s) && ServerUp(s.link)
    ensures s.server.hs.ServerSide? && s.groupId in s.server.db.groups
    ensures s.server.hs.server.session == MlsSession(s.groupId, |ServerHistory(s)|)
  {
    var v :| InvAt(s, v);
  }

  lemma ClientAtHand(s: System)
    requires Inv(s)
    ensures s.client.hs.ClientSide? && Consistent(s.client.db) && s.groupId in s.client.db.groups
    ensures Row(s).Some? && Row(s).value.session.groupId == s.groupId
    ensures s.client.hs.client.session == MlsSession(s.groupId, |ClientHistory(s)|)
    ensures LoadRow(s.client.db, s.client.hs.client.profileId) == Some(s.client.hs.client)
       <==> !s.client.hs.client.internal.WaitingForConnectionConfirmation?
  {
    var v :| InvAt(s, v);
  }

  /** Cached epochs equal stored epochs, the client's row equals its memory exactly while no resumption
      is outstanding, the group of every row exists, and deleting any profile's state succeeds. */
  lemma StorageAgrees(s: System, profileId: ProfileId)
    requires Reachable(s)
    ensures s.client.hs.ClientSide?
    ensures s.client.hs.client.session == MlsSession(s.groupId, |ClientHistory(s)|)
    ensures ServerUp(s.link) ==>
              s.server.hs.ServerSide? && s.server.hs.server.session == MlsSession(s.groupId, |ServerHistory(s)|)
    ensures LoadRow(s.client.db, s.client.hs.client.profileId) == Some(s.client.hs.client)
       <==> !s.client.hs.client.internal.WaitingForConnectionConfirmation?
    ensures Consistent(s.client.db)
    ensures DeleteRow(s.client.db, profileId).error == None
    ensures Consistent(DeleteRow(s.client.db, profileId).db)
  {
    ReachableInv(s);
    ClientAtHand(s);
    if ServerUp(s.link) { ServerAtHand(s); }
    DeleteRowSucceeds(s.client.db, profileId);
  }

  /** Either side of a connection can delete what its handshake stored: the client its row and group, the
      server its group, and nothing else. Deleting again changes nothing; only the server reports that. */
  lemma DeletionWorks(s: System)
    requires Reachable(s)
    ensures s.client.hs.ClientSide?
    ensures
      var d := DeleteOf(s.client.hs, s.client.db);
      && d.error == None && d.db.groups == s.client.db.groups - {s.groupId}
      && d.db.rows == s.client.db.rows - {s.client.hs.client.profileId}
      && DeleteOf(s.client.hs, d.db) == Stored(d.db, None)
    ensures
      ServerUp(s.link) ==>
        var d := DeleteOf(s.server.hs, s.server.db);
        && d == Stored(Database(s.server.db.groups - {s.groupId}, s.server.db.rows), None)
        && DeleteOf(s.server.hs, d.db) == Stored(d.db, Some(InvalidSessionId))
    ensures s.client.hs.client.profileId in s.client.db.rows && s.groupId in s.client.db.groups
    ensures ServerUp(s.link) ==> s.groupId in s.server.db.groups
  {
    ReachableInv(s);
    ClientAtHand(s);
    if ServerUp(s.link) { ServerAtHand(s); }
    DeleteRowSucceeds(s.client.db, s.client.hs.client.profileId);
  }

  /** Without a handshake there is nothing to delete. */
  lemma NothingToDelete(db: Database)
    ensures DeleteOf(NoHandshake, db) == Stored(db, None)
  {
  }

  /** In every reachable state, also after repeated resumptions: the epoch in the client's row is that of
      the stored group if and only if no resumption with a commit of its own is outstanding, and
      otherwise it is one behind. */
  lemma RowEpochIff(s: System)
    requires Reachable(s)
    ensures Row(s).Some?
    ensures Row(s).value.session.epoch == |ClientHistory(s)| <==> !RowLags(s)
    ensures RowLags(s) ==> Row(s).value.session.epoch + 1 == |ClientHistory(s)|
  {
    ReachableInv(s);
    var v :| InvAt(s, v);
  }

  // ----- crossing updates -----

  /** In every reachable state, a server commit that is no longer pending was merged by both sides or
      by neither. */
  lemma BothOrNeither(s: System, c: CommitId)
    requires Reachable(s) && c.origin.ServerParty? && ServerPending(s) != Some(c)
    ensures c in ServerHistory(s) <==> c in ClientHistory(s)
  {
    var v := ReachableReads(s);
    RelatedAgreement(v);
  }

  lemma EpochTestOnPhases(v: Ideal, serial: nat)
    requires Phase(v) && Accounted(v, serial) && v.pending.Some? && v.up != [] && v.up[0].ConnectionUpdate?
    ensures v.up[0].commit.Epoch() == |v.hs| + 1 <==> v.pending.value in v.hc
  {
    var p := v.internal.pending;
    assert v.hc == p.commit.base + [p.commit.id];
    if ClientReplied(v) {
      assert v.hc[|v.hs|] == v.pending.value;
    } else {
      assert ClientAhead(v);
    }
  }

  /** The epoch test decides rightly: with a commit pending, the server takes the next-epoch branch,
      which merges it, exactly when the client has merged it. */
  lemma EpochTestIsRight(s: System)
    requires Reachable(s) && s.link.Up? && ServerPending(s).Some?
    requires s.server.held.Some? && s.server.held.value.Signaling? && s.server.held.value.signal.ConnectionUpdate?
    ensures
      var commit := s.server.held.value.signal.commit;
      commit.Epoch() == |ServerHistory(s)| + 1 <==> ServerPending(s).value in ClientHistory(s)
  {
    ReachableInv(s);
    var v :| InvAt(s, v);
    HeldIsNext(ToServerPipe(s));
    EpochTestOnPhases(v, s.server.serial);
  }
}
