/**
 Losing the connection and resuming it: the invariant survives, and a resumption succeeds exactly
 when the server has not already merged the commit the client offers.
 */
module Resumption {
  import opened Wrappers
  import opened MlsGroups
  import opened Messages
  import opened Persistence
  import opened Endpoints
  import opened Network
  import opened Channels
  import opened Rekeying
  import opened Refinement
  import opened Safety
  import opened ClientMachine

  lemma DropKeeps(s: System, v: Ideal)
    requires InvAt(s, v)
    ensures Disconnected(Dropped(s), v) && Dropped(s).link == Down
  {
  }

  /** The ideal state after the client offered a commit. */
  ghost function OfferIdeal(v: Ideal, id: CommitId): Ideal {
    match v.internal
    case WaitingForEpochKeyUpdate(p) => v.(internal := WaitingForConnectionConfirmation(p))
    case WaitingForConnectionConfirmation(_) => v
    case _ =>
      var h := v.hc + [id];
      var offer := PendingUpdate(Commit(v.groupId, v.hc, id), Export(v.groupId, h));
      v.(hc := h, internal := WaitingForConnectionConfirmation(offer))
  }

  lemma ResumeRefines(c: Client, db: Database, v: Ideal, id: CommitId)
    requires ClientShows(c, db, v) && Filed(c, db) && Related(v) && id.origin.ClientParty?
    ensures
      var o := ResumeClient(c, db, id);
      var v' := OfferIdeal(v, id);
      var p := v'.internal.pending;
      && o.result == Ok((p.secrets, p.commit))
      && ClientShows(o.client, o.db, v') && Filed(o.client, o.db) && Related(v')
      && o.client.profileId == c.profileId
  {
    if v.internal.Running? || v.internal.WaitingForEpochKeyUpdateReturn? {
      CommitAndMerge(c.session, db.groups, v.hc, id);
    }
  }

  lemma ResumeKeeps(s: System, v: Ideal)
    requires Disconnected(s, v) && s.link.Down?
    ensures Resumed(s).Ok? && Resumed(s).value.link.Offered?
    ensures Disconnected(Resumed(s).value, OfferIdeal(v, FreshId(s.client)))
    ensures Resumed(s).value.server == s.server
  {
    ResumeRefines(s.client.hs.client, s.client.db, v, FreshId(s.client));
  }

  /** The server has already merged the commit that the client still waits to have confirmed. */
  ghost predicate AlreadyMerged(v: Ideal) {
    (v.internal.WaitingForEpochKeyUpdate? || v.internal.WaitingForConnectionConfirmation?) && v.hs == v.hc
  }

  /** A commit the server merged before is refused; only the server's own pending commit is lost. */
  lemma RefuseOld(groups: Groups, v: Ideal, commit: Commit)
    requires GroupShows(groups, v) && commit.groupId == v.groupId && commit.Applied() == v.hs
    ensures ProcessMlsUpdate(groups, commit, true)
         == Stepped(groups[v.groupId := Group(v.hs, None)], Err(ConnectionUpdateError))
  {
    assert |commit.base| + 1 == |v.hs|;
  }

  lemma OfferRefused(s: System, v: Ideal)
    requires Disconnected(s, v) && s.link.Offered? && AlreadyMerged(v)
    ensures OfferArrived(s).link.Down? && Disconnected(OfferArrived(s), v.(pending := None))
  {
    RefuseOld(s.server.db.groups, v, s.link.commit);
  }

  /** The ideal state after the server accepted an offer: nothing is in flight behind its answer yet. */
  ghost function AcceptedIdeal(v: Ideal): Ideal {
    v.(hs := v.hc, pending := None, up := [], down := [])
  }

  /** What accepting does to the server. */
  lemma AcceptedEnd(s: System, v: Ideal)
    requires Disconnected(s, v) && s.link.Offered? && !AlreadyMerged(v)
    ensures
      var t := OfferArrived(s);
      && t.mode == s.mode
      && t.link == Answered(ConnectionConfirmation(|v.hc|), StartCipher(s.mode, Export(v.groupId, v.hc), false))
      && t.client == s.client && t.groupId == s.groupId && t.toServer == [] && t.toClient == []
      && t.server.isServer && t.server.serial == s.server.serial
      && t.server.hs.ServerSide? && ServerShows(t.server.hs.server, t.server.db.groups, AcceptedIdeal(v))
      && t.server == Reset(t.server, StartCipher(s.mode, Export(v.groupId, v.hc), true))
  {
    HellosArrive(s.mode, Export(v.groupId, v.hc), Export(v.groupId, v.hc));
    ProcessOnServer(s.server.db.groups, v, s.link.commit);
  }

  lemma OfferAccepted(s: System, v: Ideal)
    requires Disconnected(s, v) && s.link.Offered? && !AlreadyMerged(v)
    ensures OfferArrived(s).link.Answered?
    ensures Disconnected(OfferArrived(s), AcceptedIdeal(v))
  {
    AcceptedEnd(s, v);
    AcceptedSides(s, v, OfferArrived(s));
    AcceptedConnects(OfferArrived(s), AcceptedIdeal(v));
  }

  lemma AcceptedSides(s: System, v: Ideal, t: System)
    requires Disconnected(s, v) && s.link.Offered?
    requires t.client == s.client && t.groupId == s.groupId
    requires t.server.isServer && t.server.serial == s.server.serial
    requires GroupShows(t.server.db.groups, AcceptedIdeal(v))
    ensures Sides(t, AcceptedIdeal(v)) && LastKeyed(t, AcceptedIdeal(v))
    ensures v.internal.WaitingForConnectionConfirmation?
  {
  }

  lemma EmptyPipe(p: Pipe, d: Direction, next: Secret)
    requires p.records == [] && p.held.None? && p.sent == p.got == []
    requires p.sendKey == p.recvKey && p.sendSeq == p.recvSeq
    ensures Sound(p, d, next) && Signals(Queue(p)) == []
  {
  }

  /** The ideal state after an offer arrived. */
  ghost function OfferedIdeal(v: Ideal): Ideal {
    if AlreadyMerged(v) then v.(pending := None) else AcceptedIdeal(v)
  }

  lemma OfferKeeps(s: System, v: Ideal)
    requires Disconnected(s, v) && s.link.Offered?
    ensures !OfferArrived(s).link.Up?
    ensures Disconnected(OfferArrived(s), OfferedIdeal(v))
  {
    if AlreadyMerged(v) {
      OfferRefused(s, v);
    } else {
      OfferAccepted(s, v);
    }
  }

  /** What the two sides show before the confirmation makes the client store its row. */
  ghost predicate SidesBeforeStoring(s: System, v: Ideal) {
    && v.groupId == s.groupId && !s.client.isServer && s.server.isServer
    && s.client.hs.ClientSide?
    && ClientShows(s.client.hs.client, s.client.db, v)
    && HasRow(s.client.hs.client, s.client.db)
    && Accounted(v, s.server.serial)
  }

  /** The state right after an accepted offer is one confirmation away from a connection. */
  lemma AcceptedConnects(s: System, v: Ideal)
    requires SidesBeforeStoring(s, v) && v.internal.WaitingForConnectionConfirmation?
    requires v.hs == v.hc && v.pending.None? && v.up == [] && v.down == []
    requires s.link == Answered(ConnectionConfirmation(|v.hc|), StartCipher(s.mode, Export(v.groupId, v.hc), false))
    requires s.toServer == [] && s.toClient == []
    requires s.server.hs.ServerSide? && ServerShows(s.server.hs.server, s.server.db.groups, v)
    requires s.server == Reset(s.server, StartCipher(s.mode, Export(v.groupId, v.hc), true))
    ensures ConfirmationArrived(s).Ok? && AboutToConnect(s, v)
  {
    var c := s.client.hs.client;
    var t := Upcoming(s);
    var v' := v.(internal := ClientInternal.Running);
    RowUpdated(c, s.client.db, t.client.hs.client, s.client.db.groups);
    EmptyPipe(ToServerPipe(t), ToServer, ClientSecret(v.groupId, v.hc));
    EmptyPipe(ToClientPipe(t), ToClient, ServerSecret(v.groupId, v.hc));
    assert Agreed(v');
  }

  lemma ConfirmationKeeps(s: System, v: Ideal)
    requires Disconnected(s, v) && s.link.Answered?
    ensures ConfirmationArrived(s).Ok?
    ensures Connected(ConfirmationArrived(s).value, v.(internal := ClientInternal.Running))
    ensures ConfirmationArrived(s).value.client.cipher == StartCipher(s.mode, Export(v.groupId, v.hc), false)
    ensures ConfirmationArrived(s).value.server == s.server
  {
  }

  // ----- the server acts before the client has its confirmation -----

  /** A step of the server and the arrival of the confirmation commute. */
  lemma ServerStepCommutes(s: System, a: Action)
    requires s.link.Answered? && AtServer(a) && ConfirmationArrived(s).Ok? && s.client.hs.ClientSide?
    ensures
      match Next(Upcoming(s), a)
      case Err(f) => Next(s, a) == Err(f)
      case Ok(t) => Next(s, a).Ok? && ConfirmationArrived(Next(s, a).value) == Ok(t)
  {
  }
}
