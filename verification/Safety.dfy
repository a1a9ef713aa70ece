/**
 The invariant of the whole system and its preservation by every action: no honest run faults, and
 in every reachable state the two sides are in a phase of the protocol, both pipes are sound and
 the keys are those of the two histories.
 */
module Safety {
  import opened Wrappers
  import opened MlsGroups
  import opened Messages
  import opened Persistence
  import opened Endpoints
  import opened Network
  import opened Channels
  import opened Rekeying
  import opened Refinement

  function ToServerPipe(s: System): Pipe {
    Pipe(s.client.cipher.sendKey, s.client.cipher.sendSeq, s.client.sent, s.toServer,
         s.server.held, s.server.cipher.recvKey, s.server.cipher.recvSeq, s.server.got)
  }

  function ToClientPipe(s: System): Pipe {
    Pipe(s.server.cipher.sendKey, s.server.cipher.sendSeq, s.server.sent, s.toClient,
         s.client.held, s.client.cipher.recvKey, s.client.cipher.recvSeq, s.client.got)
  }

  // ----- the invariant -----

  /** Every server commit the client merged is merged or pending at the server; serials are fresh. */
  ghost predicate Accounted(v: Ideal, serial: nat) {
    && (forall c <- v.hc :: c.origin.ServerParty? ==> c.serial < serial && (c in v.hs || v.pending == Some(c)))
    && (v.pending.Some? ==> v.pending.value.origin.ServerParty? && v.pending.value.serial < serial
                            && v.pending.value !in v.hs)
  }

  /** What holds whether or not the link is up. */
  ghost predicate Sides(s: System, v: Ideal) {
    && v.groupId == s.groupId && !s.client.isServer && s.server.isServer
    && s.client.hs.ClientSide?
    && ClientShows(s.client.hs.client, s.client.db, v)
    && GroupShows(s.server.db.groups, v)
    && Filed(s.client.hs.client, s.client.db)
    && Related(v)
    && Accounted(v, s.server.serial)
  }

  /** Each sending key and the server's receiving key belong to their owner's current history; the
      client receives under an older history while it waits, under the current one while it runs. */
  ghost predicate Keyed(s: System, v: Ideal) {
    && s.client.cipher.recvKey.ServerSecret?
    && (if v.internal.Running? then s.client.cipher.recvKey == ServerSecret(v.groupId, v.hc)
        else |s.client.cipher.recvKey.history| < |v.hc|)
    && s.client.cipher.sendKey == ClientSecret(v.groupId, v.hc)
    && s.server.cipher.sendKey == ServerSecret(v.groupId, v.hs)
    && s.server.cipher.recvKey == ClientSecret(v.groupId, v.hs)
  }

  ghost predicate Piped(s: System, v: Ideal) {
    && v.up == Signals(Queue(ToServerPipe(s)))
    && v.down == Signals(Queue(ToClientPipe(s)))
    && Sound(ToServerPipe(s), ToServer, ClientSecret(v.groupId, v.hc))
    && Sound(ToClientPipe(s), ToClient, ServerSecret(v.groupId, v.hc))
  }

  ghost predicate Connected(s: System, v: Ideal) {
    && s.link.Up?
    && Sides(s, v)
    && s.server.hs.ServerSide? && ServerShows(s.server.hs.server, s.server.db.groups, v)
    && Phase(v)
    && Keyed(s, v)
    && Piped(s, v)
  }

  /** The client's stored row. */
  function Row(s: System): Option<Client> {
    if s.client.hs.ClientSide? then LoadRow(s.client.db, s.client.hs.client.profileId) else None
  }

  /** The row shows a state before a commit that a resumption made and did not store. */
  predicate RowLags(s: System) {
    && s.client.hs.ClientSide? && s.client.hs.client.internal.WaitingForConnectionConfirmation?
    && Row(s).Some? && !Row(s).value.internal.WaitingForEpochKeyUpdate?
  }

  /** The client was sending under the key of its history, unless a resumption has since extended that
      history by a commit that the row does not know: then the key is an older one. */
  ghost predicate LastKeyed(s: System, v: Ideal) {
    var key := s.client.cipher.sendKey;
    if RowLags(s) then key.ClientSecret? && |key.history| < |v.hc|
    else key == ClientSecret(v.groupId, v.hc)
  }

  /** Once the confirmation has arrived, the two sides are connected. */
  ghost predicate AboutToConnect(s: System, v: Ideal) {
    && v.internal.WaitingForConnectionConfirmation?
    && s.link.Answered? && s.link.confirmation == ConnectionConfirmation(|v.hc|)
    && s.link.clientCipher == StartCipher(s.mode, Export(v.groupId, v.hc), false)
    && Connected(Upcoming(s), v.(internal := ClientInternal.Running))
  }

  /** The system as the confirmation will leave it. */
  function Upcoming(s: System): System {
    match ConfirmationArrived(s)
    case Err(_) => s
    case Ok(t) => t
  }

  ghost predicate Disconnected(s: System, v: Ideal) {
    && Sides(s, v) && LastKeyed(s, v)
    && s.toServer == [] && s.server.held.None?
    && match s.link
       case Up => false
       case Down => s.toClient == []
       case Offered(commit, secrets) =>
         && s.toClient == []
         && v.internal == WaitingForConnectionConfirmation(PendingUpdate(commit, secrets))
       case Answered(_, _) => AboutToConnect(s, v)
  }

  ghost predicate InvAt(s: System, v: Ideal) {
    Connected(s, v) || Disconnected(s, v)
  }

  ghost predicate Inv(s: System) {
    exists v :: InvAt(s, v)
  }

  // ----- actions that do not touch the handshake -----

  lemma ClientSendsKeeps(s: System, v: Ideal, d: Data)
    requires Connected(s, v)
    ensures Connected(ClientEmits(s, SendData(s.client, d)), v)
  {
    var s' := ClientEmits(s, SendData(s.client, d));
    var p := ToServerPipe(s);
    assert ToServerPipe(s') == Sent(p, Application(d), p.sendKey);
    assert ToClientPipe(s') == ToClientPipe(s);
    QueueSent(p, Application(d), p.sendKey);
    SendKeepsSound(p, ToServer, ClientSecret(v.groupId, v.hc), Application(d), p.sendKey);
  }

  lemma ServerSendsKeeps(s: System, v: Ideal, d: Data)
    requires Connected(s, v)
    ensures Connected(ServerEmits(s, SendData(s.server, d)), v)
  {
    var s' := ServerEmits(s, SendData(s.server, d));
    var p := ToClientPipe(s);
    assert ToClientPipe(s') == Sent(p, Application(d), p.sendKey);
    assert ToServerPipe(s') == ToServerPipe(s);
    QueueSent(p, Application(d), p.sendKey);
    SendKeepsSound(p, ToClient, ServerSecret(v.groupId, v.hc), Application(d), p.sendKey);
  }

  lemma ClientReadsKeeps(s: System, v: Ideal)
    requires Connected(s, v)
    ensures ClientRead(s).Ok? && Connected(ClientRead(s).value, v)
  {
    if s.client.held.None? && s.toClient != [] {
      ReadKeepsSound(ToClientPipe(s), ToClient, ServerSecret(v.groupId, v.hc));
      var s' := ClientRead(s).value;
      assert ToClientPipe(s') == Taken(ToClientPipe(s));
      assert ToServerPipe(s') == ToServerPipe(s);
    }
  }

  lemma ServerReadsKeeps(s: System, v: Ideal)
    requires Connected(s, v)
    ensures ServerRead(s).Ok? && Connected(ServerRead(s).value, v)
  {
    if s.server.held.None? && s.toServer != [] {
      ReadKeepsSound(ToServerPipe(s), ToServer, ClientSecret(v.groupId, v.hc));
      var s' := ServerRead(s).value;
      assert ToServerPipe(s') == Taken(ToServerPipe(s));
      assert ToClientPipe(s') == ToClientPipe(s);
    }
  }

  // ----- updates -----

  /** While the client runs, no message on the way changes a key, so both pipes may be re-aimed. */
  lemma PipesRetarget(s: System, v: Ideal, hc: History)
    requires Connected(s, v) && v.internal.Running?
    ensures Sound(ToServerPipe(s), ToServer, ClientSecret(v.groupId, hc))
    ensures Sound(ToClientPipe(s), ToClient, ServerSecret(v.groupId, hc))
    ensures s.client.cipher.recvKey == ServerSecret(v.groupId, v.hc)
  {
    PhaseAgreement(v);
    NoConfirmationInFlight(v);
    QuietBySignals(Queue(ToServerPipe(s)), ToServer);
    RetargetKeepsSound(ToServerPipe(s), ToServer, ClientSecret(v.groupId, v.hc), ClientSecret(v.groupId, hc));
    QuietBySignals(Queue(ToClientPipe(s)), ToClient);
    RetargetKeepsSound(ToClientPipe(s), ToClient, ServerSecret(v.groupId, v.hc), ServerSecret(v.groupId, hc));
  }

  /** What starting an update does to the client's end, in terms of the ideal step. */
  lemma ClientUpdatesEnd(e: Endpoint, v: Ideal)
    requires !e.isServer && e.hs.ClientSide? && ClientShows(e.hs.client, e.db, v) && Persisted(e.hs.client, e.db)
    requires v.internal.Running? && v.up == []
    ensures
      var r := StartUpdate(e, false);
      var v' := ClientUpdate(v, FreshId(e));
      && r.Ok? && r.value.end.hs.ClientSide?
      && ClientShows(r.value.end.hs.client, r.value.end.db, v') && Persisted(r.value.end.hs.client, r.value.end.db)
      && r.value == Respond(e.(hs := r.value.end.hs, db := r.value.end.db, serial := e.serial + 1),
                            Some(OnlyClient(ClientSecret(v.groupId, v'.hc))), Some(v'.up[0]))
  {
    ClientUpdateRefines(e.hs.client, e.db, v, FreshId(e));
  }

  /** The client sends a message and then changes its sending key; it reads nothing. */
  lemma ClientRekeysPiped(s: System, v: Ideal, e: Endpoint, v': Ideal, m: Signal)
    requires Connected(s, v) && v.internal.Running? && v'.groupId == v.groupId
    requires !e.isServer && e.held == s.client.held
    requires e.cipher == s.client.cipher && e.sent == s.client.sent && e.got == s.client.got
    requires v'.up == v.up + [m] && v'.down == v.down
    ensures Piped(ClientEmits(s, Respond(e, Some(OnlyClient(ClientSecret(v.groupId, v'.hc))), Some(m))), v')
  {
    PipesRetarget(s, v, v'.hc);
    var key := ClientSecret(v.groupId, v'.hc);
    var s' := ClientEmits(s, Respond(e, Some(OnlyClient(key)), Some(m)));
    assert ToServerPipe(s') == Sent(ToServerPipe(s), Signaling(m), key);
    assert ToClientPipe(s') == ToClientPipe(s);
    QueueSent(ToServerPipe(s), Signaling(m), key);
    SendKeepsSound(ToServerPipe(s), ToServer, key, Signaling(m), key);
  }

  lemma ClientUpdateAccounted(v: Ideal, serial: nat, id: CommitId)
    requires Accounted(v, serial) && id.origin.ClientParty?
    ensures Accounted(ClientUpdate(v, id), serial)
  {
  }

  lemma ClientUpdatesKeeps(s: System, v: Ideal)
    requires Connected(s, v)
    ensures
      var r := ClientEmitted(s, StartUpdate(s.client, false));
      r.Ok? && Connected(r.value, if v.internal.Running? then ClientUpdate(v, FreshId(s.client)) else v)
  {
    if v.internal.Running? {
      ClientStartsUpdate(s, v);
    } else {
      assert s.toServer + [] == s.toServer;
    }
  }

  lemma ClientStartsUpdate(s: System, v: Ideal)
    requires Connected(s, v) && v.internal.Running?
    ensures
      var r := ClientEmitted(s, StartUpdate(s.client, false));
      r.Ok? && Connected(r.value, ClientUpdate(v, FreshId(s.client)))
  {
    var v' := ClientUpdate(v, FreshId(s.client));
    PhaseAgreement(v);
    ClientUpdatesEnd(s.client, v);
    ClientUpdateKeepsPhase(v, FreshId(s.client));
    ClientUpdateAccounted(v, s.server.serial, FreshId(s.client));
    PhaseAgreement(v');
    var end := StartUpdate(s.client, false).value.end;
    ClientRekeysPiped(s, v, s.client.(hs := end.hs, db := end.db, serial := s.client.serial + 1), v', v'.up[0]);
  }

  /** The server sends a message under its present keys; it reads nothing. */
  lemma ServerSignalsPiped(s: System, v: Ideal, e: Endpoint, v': Ideal, m: Signal)
    requires Connected(s, v) && v'.groupId == v.groupId && v'.hc == v.hc
    requires e.isServer && e.held == s.server.held
    requires e.cipher == s.server.cipher && e.sent == s.server.sent && e.got == s.server.got
    requires v'.up == v.up && v'.down == v.down + [m] && m.ConnectionUpdate?
    ensures Piped(ServerEmits(s, Respond(e, None, Some(m))), v')
  {
    var p := ToClientPipe(s);
    var s' := ServerEmits(s, Respond(e, None, Some(m)));
    assert ToClientPipe(s') == Sent(p, Signaling(m), p.sendKey);
    assert ToServerPipe(s') == ToServerPipe(s);
    QueueSent(p, Signaling(m), p.sendKey);
    SendKeepsSound(p, ToClient, ServerSecret(v.groupId, v.hc), Signaling(m), p.sendKey);
  }

  lemma ServerUpdateAccounted(v: Ideal, requested: bool, id: CommitId)
    requires Accounted(v, id.serial) && v.pending.None? && id.origin.ServerParty?
    requires v.hs <= v.hc
    ensures Accounted(ServerUpdate(v, requested, id), id.serial + 1)
  {
    assert id !in v.hc;
  }

  lemma ServerUpdatesKeeps(s: System, v: Ideal, requested: bool)
    requires Connected(s, v)
    ensures
      var r := ServerEmitted(s, StartUpdate(s.server, requested));
      r.Ok? && Connected(r.value, if v.pending.None? then ServerUpdate(v, requested, FreshId(s.server)) else v)
  {
    if v.pending.None? {
      ServerStartsUpdate(s, v, requested);
    } else {
      assert s.toClient + [] == s.toClient;
    }
  }

  lemma ServerStartsUpdate(s: System, v: Ideal, requested: bool)
    requires Connected(s, v) && v.pending.None?
    ensures
      var r := ServerEmitted(s, StartUpdate(s.server, requested));
      r.Ok? && Connected(r.value, ServerUpdate(v, requested, FreshId(s.server)))
  {
    var id := FreshId(s.server);
    var v' := ServerUpdate(v, requested, id);
    ServerUpdateRefines(s.server.hs.server, s.server.db.groups, v, requested, id);
    ServerUpdateKeepsPhase(v, requested, id);
    PhaseAgreement(v);
    ServerUpdateAccounted(v, requested, id);
    PhaseAgreement(v');
    var end := StartUpdate(s.server, requested).value.end;
    var e := s.server.(hs := end.hs, db := end.db, serial := s.server.serial + 1);
    ServerSignalsPiped(s, v, e, v', v'.down[|v.down|]);
  }

  // ----- processing a message -----

  lemma ClientReturnsDataKeeps(s: System, v: Ideal)
    requires Connected(s, v) && s.client.held.Some? && s.client.held.value.Application?
    ensures
      var r := ClientEmitted(s, ProcessHeld(s.client));
      r.Ok? && Connected(r.value, v)
  {
    var s' := ClientEmitted(s, ProcessHeld(s.client)).value;
    var p := ToClientPipe(s);
    assert ToClientPipe(s') == Processed(p, p.recvKey);
    assert ToServerPipe(s') == ToServerPipe(s) by { assert s.toServer + [] == s.toServer; }
    QueueProcessed(p, p.recvKey);
    ProcessKeepsSound(p, ToClient, ServerSecret(v.groupId, v.hc));
  }

  lemma ServerReturnsDataKeeps(s: System, v: Ideal)
    requires Connected(s, v) && s.server.held.Some? && s.server.held.value.Application?
    ensures
      var r := ServerEmitted(s, ProcessHeld(s.server));
      r.Ok? && Connected(r.value, v)
  {
    var s' := ServerEmitted(s, ProcessHeld(s.server)).value;
    var p := ToServerPipe(s);
    assert ToServerPipe(s') == Processed(p, p.recvKey);
    assert ToClientPipe(s') == ToClientPipe(s) by { assert s.toClient + [] == s.toClient; }
    QueueProcessed(p, p.recvKey);
    ProcessKeepsSound(p, ToServer, ClientSecret(v.groupId, v.hc));
  }

  /** The held signaling message is the next one of the ideal protocol. */
  lemma HeldIsNext(p: Pipe)
    requires p.held.Some? && p.held.value.Signaling?
    ensures Signals(Queue(p)) != [] && Signals(Queue(p))[0] == p.held.value.signal
    ensures forall key :: Signals(Queue(Processed(p, key))) == Signals(Queue(p))[1..]
  {
    forall key ensures Signals(Queue(Processed(p, key))) == Signals(Queue(p))[1..] {
      QueueProcessed(p, key);
    }
    QueueProcessed(p, p.recvKey);
  }

  /** The client answers: its pipe carries the answer under the old key and then the new key. */
  lemma ClientAnswersKeeps(s: System, v: Ideal, s': System, v': Ideal, m: Signal)
    requires Connected(s, v) && v.internal.Running? && v.groupId == v'.groupId
    requires s.client.held.Some? && s.client.held.value.Signaling? && s.client.held.value.signal.ConnectionUpdate?
    requires v'.up == v.up + [m] && v'.down == v.down[1..]
    requires ToServerPipe(s') == Sent(ToServerPipe(s), Signaling(m), ClientSecret(v.groupId, v'.hc))
    requires ToClientPipe(s') == Processed(ToClientPipe(s), s.client.cipher.recvKey)
    ensures Piped(s', v')
  {
    PipesRetarget(s, v, v'.hc);
    HeldIsNext(ToClientPipe(s));
    var key := ClientSecret(v.groupId, v'.hc);
    QueueSent(ToServerPipe(s), Signaling(m), key);
    SendKeepsSound(ToServerPipe(s), ToServer, key, Signaling(m), key);
    ProcessKeepsSound(ToClientPipe(s), ToClient, ServerSecret(v.groupId, v'.hc));
  }

  /** The client takes a message without answering. */
  lemma ClientSilentKeeps(s: System, v: Ideal, s': System, v': Ideal)
    requires Connected(s, v) && v.groupId == v'.groupId && v.hc == v'.hc
    requires s.client.held.Some? && s.client.held.value.Signaling?
    requires v'.up == v.up && v'.down == v.down[1..]
    requires ToServerPipe(s') == ToServerPipe(s)
    requires ToClientPipe(s')
          == Processed(ToClientPipe(s), KeyAfterHeld(ToClientPipe(s), ToClient, ServerSecret(v.groupId, v.hc)))
    ensures Piped(s', v')
  {
    HeldIsNext(ToClientPipe(s));
    ProcessKeepsSound(ToClientPipe(s), ToClient, ServerSecret(v.groupId, v.hc));
  }

  lemma ClientTakeAccounted(v: Ideal, serial: nat, id: CommitId)
    requires Phase(v) && v.down != [] && Accounted(v, serial) && id.origin.ClientParty?
    ensures Accounted(ClientTake(v, id), serial)
  {
  }

  /** What processing a signaling message does to the client's end, in terms of the ideal step. */
  lemma ClientTakesEnd(e: Endpoint, v: Ideal)
    requires !e.isServer && e.hs.ClientSide? && ClientShows(e.hs.client, e.db, v) && Persisted(e.hs.client, e.db)
    requires Phase(v) && v.down != [] && e.held == Some(Signaling(v.down[0]))
    ensures
      var r := ProcessHeld(e);
      var v' := ClientTake(v, FreshId(e));
      && r.Ok? && r.value.end.hs.ClientSide? && !r.value.end.isServer
      && ClientShows(r.value.end.hs.client, r.value.end.db, v')
      && Persisted(r.value.end.hs.client, r.value.end.db)
      && r.value == Respond(e.(hs := r.value.end.hs, db := r.value.end.db, held := None, serial := e.serial + 1),
                            ClientReaction(v, FreshId(e)).0, ClientReaction(v, FreshId(e)).1)
  {
    ClientTakeRefines(e.hs.client, e.db, v, FreshId(e));
  }

  /** The client after a message, apart from its handshake state and storage. */
  ghost predicate Settled(e: Endpoint, end: Endpoint) {
    !e.isServer && !end.isServer && end.held == None
    && end.cipher == e.cipher && end.sent == e.sent && end.got == e.got
  }

  lemma ClientAcceptsPiped(s: System, v: Ideal, e: Endpoint)
    requires Connected(s, v) && v.internal.Running? && v.down != [] && s.client.held == Some(Signaling(v.down[0]))
    requires Settled(s.client, e)
    ensures
      var v' := ClientTake(v, FreshId(s.client));
      var (update, response) := ClientReaction(v, FreshId(s.client));
      var s' := ClientEmits(s, Respond(e, update, response));
      && Piped(s', v') && Keyed(s', v')
  {
    assert Agreed(v);
    var v' := ClientTake(v, FreshId(s.client));
    var (update, response) := ClientReaction(v, FreshId(s.client));
    ClientAnswersKeeps(s, v, ClientEmits(s, Respond(e, update, response)), v', v'.up[0]);
  }

  lemma ClientIgnoresPiped(s: System, v: Ideal, e: Endpoint)
    requires Connected(s, v) && !v.internal.Running? && v.down != [] && s.client.held == Some(Signaling(v.down[0]))
    requires v.down[0].ConnectionUpdate? && Settled(s.client, e)
    ensures
      var v' := ClientTake(v, FreshId(s.client));
      var s' := ClientEmits(s, Respond(e, None, None));
      && ClientReaction(v, FreshId(s.client)) == (None, None)
      && Piped(s', v') && Keyed(s', v')
  {
    var s' := ClientEmits(s, Respond(e, None, None));
    assert s.toServer + [] == s.toServer;
    ClientSilentKeeps(s, v, s', v.(down := v.down[1..]));
  }

  lemma ClientConfirmedPiped(s: System, v: Ideal, e: Endpoint)
    requires Connected(s, v) && v.down != [] && s.client.held == Some(Signaling(v.down[0]))
    requires v.down[0].EpochKeyUpdate? && Settled(s.client, e)
    ensures
      var v' := ClientTake(v, FreshId(s.client));
      var (update, response) := ClientReaction(v, FreshId(s.client));
      var s' := ClientEmits(s, Respond(e, update, response));
      && Piped(s', v') && Keyed(s', v')
  {
    var (update, response) := ClientReaction(v, FreshId(s.client));
    var s' := ClientEmits(s, Respond(e, update, response));
    assert s.toServer + [] == s.toServer;
    ClientSilentKeeps(s, v, s', ClientTake(v, FreshId(s.client)));
  }

  lemma ClientTakesPiped(s: System, v: Ideal, e: Endpoint)
    requires Connected(s, v) && v.down != [] && s.client.held == Some(Signaling(v.down[0]))
    requires Settled(s.client, e)
    ensures
      var v' := ClientTake(v, FreshId(s.client));
      var (update, response) := ClientReaction(v, FreshId(s.client));
      var s' := ClientEmits(s, Respond(e, update, response));
      && Piped(s', v') && Keyed(s', v')
  {
    if v.internal.Running? {
      ClientAcceptsPiped(s, v, e);
    } else if v.down[0].ConnectionUpdate? {
      ClientIgnoresPiped(s, v, e);
    } else {
      OnlyConfirmations(v);
      ClientConfirmedPiped(s, v, e);
    }
  }

  /** Nothing but commits and confirmations travels to the client. */
  lemma OnlyConfirmations(v: Ideal)
    requires Phase(v) && v.down != []
    ensures v.down[0].ConnectionUpdate? || v.down[0].EpochKeyUpdate?
  {
    if Confirmed(v) {
      var k: nat :| ConfirmedAt(v, k);
      assert k > 0 ==> v.down[..k][0].ConnectionUpdate?;
    }
  }

  lemma ClientTakesSides(s: System, v: Ideal) returns (e: Endpoint, s': System)
    requires Connected(s, v) && v.down != [] && s.client.held == Some(Signaling(v.down[0]))
    ensures ClientEmitted(s, ProcessHeld(s.client)) == Ok(s') && Settled(s.client, e)
    ensures
      var (update, response) := ClientReaction(v, FreshId(s.client));
      s' == ClientEmits(s, Respond(e, update, response))
    ensures
      var v' := ClientTake(v, FreshId(s.client));
      && Sides(s', v') && Phase(v') && s'.link.Up?
      && s'.server == s.server && ServerShows(s.server.hs.server, s.server.db.groups, v')
  {
    var id := FreshId(s.client);
    ClientTakesEnd(s.client, v);
    var end := ProcessHeld(s.client).value.end;
    e := s.client.(hs := end.hs, db := end.db, held := None, serial := s.client.serial + 1);
    s' := ClientEmits(s, ProcessHeld(s.client).value);
    ClientTakeKeepsPhase(v, id);
    PhaseAgreement(ClientTake(v, id));
    ClientTakeAccounted(v, s.server.serial, id);
    ClientTakeKeepsServer(v, id);
  }

  lemma ClientTakeKeepsServer(v: Ideal, id: CommitId)
    requires v.down != []
    ensures
      var v' := ClientTake(v, id);
      v'.hs == v.hs && v'.pending == v.pending && v'.groupId == v.groupId
  {
  }

  lemma ClientTakesKeeps(s: System, v: Ideal)
    requires Connected(s, v) && s.client.held.Some? && s.client.held.value.Signaling?
    ensures v.down != []
    ensures
      var r := ClientEmitted(s, ProcessHeld(s.client));
      r.Ok? && Connected(r.value, ClientTake(v, FreshId(s.client)))
  {
    HeldIsNext(ToClientPipe(s));
    var e, s' := ClientTakesSides(s, v);
    ClientTakesPiped(s, v, e);
  }

  /** What processing a signaling message does to the server's end, in terms of the ideal step. */
  lemma ServerTakesEnd(e: Endpoint, v: Ideal)
    requires e.isServer && e.hs.ServerSide? && ServerShows(e.hs.server, e.db.groups, v)
    requires Phase(v) && v.up != [] && e.held == Some(Signaling(v.up[0]))
    ensures
      var r := ProcessHeld(e);
      var v' := ServerTake(v);
      && r.Ok? && r.value.end.hs.ServerSide? && r.value.end.isServer
      && ServerShows(r.value.end.hs.server, r.value.end.db.groups, v')
      && r.value == Respond(e.(hs := r.value.end.hs, db := r.value.end.db, held := None, serial := e.serial + 1),
                            Some(Both(Export(v.groupId, v'.hs))), Some(EpochKeyUpdate(|v'.hs|)))
  {
    ServerTakeRefines(e.hs.server, e.db.groups, v, FreshId(e));
  }

  lemma ServerTakesPiped(s: System, v: Ideal, e: Endpoint)
    requires Connected(s, v) && v.up != [] && s.server.held == Some(Signaling(v.up[0]))
    requires e.isServer && e.held == None
    requires e.cipher == s.server.cipher && e.sent == s.server.sent && e.got == s.server.got
    ensures
      var v' := ServerTake(v);
      var s' := ServerEmits(s, Respond(e, Some(Both(Export(v.groupId, v'.hs))), Some(EpochKeyUpdate(|v'.hs|))));
      && Piped(s', v') && Keyed(s', v')
  {
    var p := ToServerPipe(s);
    HeldIsNext(p);
    var v' := ServerTake(v);
    ServerTakeKeepsPhase(v);
    var m := Signaling(EpochKeyUpdate(|v'.hs|));
    var s' := ServerEmits(s, Respond(e, Some(Both(Export(v.groupId, v'.hs))), Some(m.signal)));
    var key, serverKey := ClientSecret(v.groupId, v.hc), ServerSecret(v.groupId, v.hc);
    assert ToServerPipe(s') == Processed(p, key);
    ProcessKeepsSound(p, ToServer, key);
    assert ToClientPipe(s') == Sent(ToClientPipe(s), m, serverKey);
    QueueSent(ToClientPipe(s), m, serverKey);
    SendKeepsSound(ToClientPipe(s), ToClient, serverKey, m, serverKey);
  }

  lemma ServerTakesSides(s: System, v: Ideal) returns (e: Endpoint, s': System)
    requires Connected(s, v) && v.up != [] && s.server.held == Some(Signaling(v.up[0]))
    ensures ServerEmitted(s, ProcessHeld(s.server)) == Ok(s')
    ensures e.isServer && e.held == None
    ensures e.cipher == s.server.cipher && e.sent == s.server.sent && e.got == s.server.got
    ensures
      var v' := ServerTake(v);
      && s' == ServerEmits(s, Respond(e, Some(Both(Export(v.groupId, v'.hs))), Some(EpochKeyUpdate(|v'.hs|))))
      && Sides(s', v') && Phase(v') && s'.link.Up?
      && s'.server.hs.ServerSide? && ServerShows(s'.server.hs.server, s'.server.db.groups, v')
  {
    ServerTakesEnd(s.server, v);
    var end := ProcessHeld(s.server).value.end;
    e := s.server.(hs := end.hs, db := end.db, held := None, serial := s.server.serial + 1);
    s' := ServerEmits(s, ProcessHeld(s.server).value);
    ServerTakeKeepsPhase(v);
    PhaseAgreement(v);
    PhaseAgreement(ServerTake(v));
  }

  lemma ServerTakesKeeps(s: System, v: Ideal)
    requires Connected(s, v) && s.server.held.Some? && s.server.held.value.Signaling?
    ensures v.up != []
    ensures
      var r := ServerEmitted(s, ProcessHeld(s.server));
      r.Ok? && Connected(r.value, ServerTake(v))
  {
    HeldIsNext(ToServerPipe(s));
    var e, s' := ServerTakesSides(s, v);
    ServerTakesPiped(s, v, e);
  }
}
