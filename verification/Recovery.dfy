/** When a lost connection can be resumed, and when a client update completes: both exactly. */
module Recovery {
  import opened Wrappers
  import opened MlsGroups
  import opened Messages
  import opened Persistence
  import opened Endpoints
  import opened Network
  import opened Channels
  import opened Rekeying
  import opened Refinement
  import opened Safety
  import opened Resumption
  import opened Simulation
  import opened Theorems
  import opened Convergence

  // ----- resumption -----

  const RESUMPTION := [LinkDrops, ClientResumes, OfferArrives, ConfirmationArrives]

  lemma RunFour(s: System, a: Action, b: Action, c: Action, d: Action, s1: System, s2: System, s3: System)
    requires Next(s, a) == Ok(s1) && Next(s1, b) == Ok(s2) && Next(s2, c) == Ok(s3)
    ensures Run(s, [a, b, c, d]) == Next(s3, d)
  {
    assert [a, b, c, d][1..] == [b, c, d];
    assert [b, c, d][1..] == [c, d];
    assert [c, d][1..] == [d];
    assert [d][1..] == [];
    assert Run(s3, [d]) == Next(s3, d);
    assert Run(s2, [c, d]) == Run(s3, [d]);
    assert Run(s1, [b, c, d]) == Run(s2, [c, d]);
  }

  /** The client waits for a commit of its own at an epoch the server has already reached. */
  predicate CannotResume(s: System) {
    ClientWaitsForOwn(s) && |ClientHistory(s)| == |ServerHistory(s)|
  }

  lemma CannotResumeMeaning(s: System, v: Ideal)
    requires Reads(s, v)
    ensures CannotResume(s) <==> AlreadyMerged(v)
  {
    RelatedAgreement(v);
  }

  ghost predicate FreshConnection(t: System) {
    && t.link.Up? && ClientRuns(t) && ServerRuns(t) && ServerPending(t).None?
    && ClientHistory(t) == ServerHistory(t)
    && t.client.cipher == StartCipher(t.mode, Export(t.groupId, ClientHistory(t)), false)
    && t.server.cipher == StartCipher(t.mode, Export(t.groupId, ServerHistory(t)), true)
  }

  lemma ResumeAfterDrop(s: System, v: Ideal)
    requires Disconnected(s, v) && s.link.Down?
    ensures Next(s, ClientResumes).Ok?
    ensures
      var s2 := Next(s, ClientResumes).value;
      var v2 := OfferIdeal(v, FreshId(s.client));
      && Disconnected(s2, v2) && s2.link.Offered? && (AlreadyMerged(v2) <==> AlreadyMerged(v))
  {
    ResumeKeeps(s, v);
    RelatedAgreement(v);
  }

  lemma OfferAfterResume(s: System, v: Ideal)
    requires Disconnected(s, v) && s.link.Offered?
    ensures
      var r := Run(s, [OfferArrives, ConfirmationArrives]);
      r.Ok? && (if AlreadyMerged(v) then
                  r.value.link.Down? && r.value.client == s.client && Disconnected(r.value, v.(pending := None))
                else FreshConnection(r.value) && ClientHistory(r.value) == v.hc && r.value.groupId == v.groupId)
  {
    var s3 := OfferArrived(s);
    assert [OfferArrives, ConfirmationArrives][1..] == [ConfirmationArrives];
    assert Run(s, [OfferArrives, ConfirmationArrives]) == Run(s3, [ConfirmationArrives]);
    assert Run(s3, [ConfirmationArrives]) == Next(s3, ConfirmationArrives);
    if AlreadyMerged(v) {
      OfferRefused(s, v);
    } else {
      OfferAccepted(s, v);
      ConfirmationKeeps(s3, AcceptedIdeal(v));
    }
  }

  lemma ResumptionIsFour(s: System, s2: System)
    requires Next(Dropped(s), ClientResumes) == Ok(s2)
    ensures Run(s, RESUMPTION) == Run(s2, [OfferArrives, ConfirmationArrives])
  {
    assert RESUMPTION[1..] == [ClientResumes, OfferArrives, ConfirmationArrives];
    assert RESUMPTION[1..][1..] == [OfferArrives, ConfirmationArrives];
    assert Run(Dropped(s), RESUMPTION[1..]) == Run(s2, [OfferArrives, ConfirmationArrives]);
  }

  lemma ResumptionFrom(s: System, v: Ideal)
    requires Disconnected(Dropped(s), v)
    ensures
      var r := Run(s, RESUMPTION);
      r.Ok? && (if AlreadyMerged(v) then r.value.link.Down?
                else FreshConnection(r.value) && r.value.groupId == v.groupId
                     && ClientHistory(r.value) == OfferIdeal(v, FreshId(s.client)).hc)
  {
    ResumptionVia(s, Dropped(s), v);
  }

  lemma ResumptionVia(s: System, s1: System, v: Ideal)
    requires s1 == Dropped(s) && Disconnected(s1, v) && s1.link.Down? && FreshId(s1.client) == FreshId(s.client)
    ensures
      var r := Run(s, RESUMPTION);
      r.Ok? && (if AlreadyMerged(v) then r.value.link.Down?
                else FreshConnection(r.value) && r.value.groupId == v.groupId
                     && ClientHistory(r.value) == OfferIdeal(v, FreshId(s.client)).hc)
  {
    ResumeAfterDrop(s1, v);
    ResumptionFromDropped(s, Next(s1, ClientResumes).value, OfferIdeal(v, FreshId(s.client)));
  }

  lemma ResumptionFromDropped(s: System, s2: System, v2: Ideal)
    requires Next(Dropped(s), ClientResumes) == Ok(s2) && Disconnected(s2, v2) && s2.link.Offered?
    ensures
      var r := Run(s, RESUMPTION);
      r.Ok? && (if AlreadyMerged(v2) then r.value.link.Down?
                else FreshConnection(r.value) && ClientHistory(r.value) == v2.hc && r.value.groupId == v2.groupId)
  {
    ResumptionIsFour(s, s2);
    OfferAfterResume(s2, v2);
  }

  /** From any reachable state, in any phase and after any number of earlier attempts: lose everything
      in flight and resume. This ends in a fresh connection on one history if and only if the server
      had not already merged the commit the client waits for; it never faults. */
  lemma ResumptionSucceedsIff(s: System)
    requires Reachable(s)
    ensures
      var r := Run(s, RESUMPTION);
      && r.Ok?
      && (r.value.link.Up? <==> !CannotResume(s))
      && (r.value.link.Up? ==> FreshConnection(r.value))
  {
    ReachableInv(s);
    var v :| InvAt(s, v);
    InvReads(s, v);
    CannotResumeMeaning(s, v);
    DropKeeps(s, v);
    ResumptionFrom(s, v);
  }

  ghost predicate Lost(s: System, v: Ideal) {
    Disconnected(s, v) && !s.link.Answered? && AlreadyMerged(v)
  }

  lemma LostStep(s: System, v: Ideal, a: Action)
    requires Lost(s, v) && Honest(a)
    ensures Next(s, a).Ok? && Lost(Next(s, a).value, NextIdeal(s, v, a))
  {
    NextSimulates(s, v, a);
    if a.LinkDrops? {
      DropKeeps(s, v);
    } else if a.ClientResumes? && s.link.Down? {
      ResumeAfterDrop(s, v);
    } else if a.OfferArrives? && s.link.Offered? {
      OfferRefused(s, v);
    }
  }

  /** Where a resumption fails, no later one succeeds: repeating it offers the same commit again. */
  lemma {:induction false} LostForGood(s: System, v: Ideal, actions: seq<Action>)
    requires Lost(s, v) && AllHonest(actions)
    ensures Run(s, actions).Ok? && !Run(s, actions).value.link.Up?
    decreases |actions|
  {
    if actions != [] {
      LostStep(s, v, actions[0]);
      LostForGood(Next(s, actions[0]).value, NextIdeal(s, v, actions[0]), actions[1..]);
    }
  }

  /** In the failing case the connection stays down over every continuation after the drop. */
  lemma CannotResumeEver(s: System, actions: seq<Action>)
    requires Reachable(s) && CannotResume(s) && AllHonest(actions)
    ensures Run(Dropped(s), actions).Ok? && !Run(Dropped(s), actions).value.link.Up?
  {
    ReachableInv(s);
    var v :| InvAt(s, v);
    InvReads(s, v);
    CannotResumeMeaning(s, v);
    DropKeeps(s, v);
    LostForGood(Dropped(s), v, actions);
  }

  /** The way out: on the databases of any reachable state, a fresh handshake with a new group succeeds in
      either mode, for the same profile or another, and leads to a connected reachable state. */
  lemma FreshHandshakeWorks(s: System, mode: Mode, profileId: ProfileId, groupId: GroupId)
    requires Reachable(s) && groupId !in s.client.db.groups
    ensures
      var r := Establish(mode, s.client.db, s.server.db, profileId, groupId);
      r.Ok? && r.value.link.Up? && Reachable(r.value)
  {
    StorageAgrees(s, profileId);
    var start := Start(mode, s.client.db, s.server.db, profileId, groupId);
    EstablishedIsReachable(start);
  }

  lemma EstablishedIsReachable(start: Start)
    requires Fair(start)
    ensures
      var r := Establish(start.mode, start.clientDb, start.serverDb, start.profileId, start.groupId);
      r.Ok? && r.value.link.Up? && Reachable(r.value)
  {
    EstablishWorks(start);
    assert RunFrom(start, [])
        == Some(Establish(start.mode, start.clientDb, start.serverDb, start.profileId, start.groupId).value);
  }

  /** Resuming leaves the row alone. Afterwards the row lags if and only if a fresh commit was made, now
      or by an earlier resumption that is still outstanding. */
  lemma ResumeLagsIff(s: System)
    requires Reachable(s) && s.link.Down?
    ensures Resumed(s).Ok? && Row(Resumed(s).value) == Row(s)
    ensures RowLags(Resumed(s).value) <==> !ClientWaitsForOwn(s) || RowLags(s)
  {
    ReachableInv(s);
    var v :| InvAt(s, v);
    ResumeKeeps(s, v);
  }

  // ----- client updates that request an update in return -----

  /** Every signaling message in the queue is a commit, and asks for one in return if `requesting`. */
  ghost predicate OnlyCommits(q: seq<Plaintext>, requesting: bool) {
    forall i :: 0 <= i < |q| && q[i].Signaling?
                ==> q[i].signal.ConnectionUpdate? && (requesting ==> q[i].signal.requested)
  }

  /** The client waits and nothing on either channel will ever let it go on. */
  ghost predicate Stalled(s: System) {
    && s.link.Up? && s.client.hs.ClientSide? && s.client.hs.client.internal.WaitingForEpochKeyUpdate?
    && s.server.hs.ServerSide?
    && OnlyCommits(Queue(ToServerPipe(s)), true)
    && OnlyCommits(Queue(ToClientPipe(s)), false)
  }

  lemma QueueGrows(p: Pipe, records: seq<Record>, requesting: bool)
    requires OnlyCommits(Queue(p), requesting) && OnlyCommits(Payloads(records), requesting)
    ensures OnlyCommits(Queue(p.(records := p.records + records)), requesting)
  {
    assert Queue(p.(records := p.records + records)) == Queue(p) + Payloads(records);
  }

  /** The part of a pipe's queue that does not depend on ciphers and logs. */
  lemma QueueOf(p: Pipe, p': Pipe)
    requires p.held == p'.held && p.records == p'.records
    ensures Queue(p) == Queue(p')
  {
  }

  lemma StalledEmits(s: System, s': System, toServer: seq<Record>, toClient: seq<Record>)
    requires Stalled(s) && s'.link == s.link
    requires s'.client.hs.ClientSide? && s'.client.hs.client.internal.WaitingForEpochKeyUpdate?
    requires s'.server.hs.ServerSide?
    requires s'.toServer == s.toServer + toServer && s'.toClient == s.toClient + toClient
    requires s'.client.held in [s.client.held, None] && s'.server.held in [s.server.held, None]
    requires OnlyCommits(Payloads(toServer), true) && OnlyCommits(Payloads(toClient), false)
    ensures Stalled(s')
  {
    var up, down := ToServerPipe(s), ToClientPipe(s);
    QueueGrows(up, toServer, true);
    QueueGrows(down, toClient, false);
    var up', down' := up.(records := up.records + toServer), down.(records := down.records + toClient);
    if s'.server.held == s.server.held {
      QueueOf(up', ToServerPipe(s'));
    } else {
      assert Queue(ToServerPipe(s')) == Queue(up')[1..];
    }
    if s'.client.held == s.client.held {
      QueueOf(down', ToClientPipe(s'));
    } else {
      assert Queue(ToClientPipe(s')) == Queue(down')[1..];
    }
  }

  lemma StalledClientProcesses(s: System)
    requires Stalled(s)
    ensures Next(s, ClientProcesses).Ok? && Stalled(Next(s, ClientProcesses).value)
  {
    if s.client.held.Some? {
      assert Queue(ToClientPipe(s))[0] == s.client.held.value;
    }
    var s' := Next(s, ClientProcesses).value;
    StalledEmits(s, s', [], []);
  }

  lemma StalledServerProcesses(s: System)
    requires Stalled(s) && Next(s, ServerProcesses).Ok?
    ensures Stalled(Next(s, ServerProcesses).value)
  {
    if s.server.held.Some? {
      assert Queue(ToServerPipe(s))[0] == s.server.held.value;
    }
    var s' := Next(s, ServerProcesses).value;
    var e := ProcessHeld(s.server).value;
    assert OnlyCommits(Payloads(e.records), false);
    StalledEmits(s, s', [], e.records);
  }

  lemma StalledReads(s: System, a: Action)
    requires Stalled(s) && (a.ClientReads? || a.ServerReads?) && Next(s, a).Ok?
    ensures Stalled(Next(s, a).value)
  {
    var s' := Next(s, a).value;
    assert Queue(ToServerPipe(s')) == Queue(ToServerPipe(s));
    assert Queue(ToClientPipe(s')) == Queue(ToClientPipe(s));
  }

  lemma StalledStep(s: System, a: Action)
    requires Stalled(s) && !a.LinkDrops? && Next(s, a).Ok?
    ensures Stalled(Next(s, a).value)
  {
    var s' := Next(s, a).value;
    match a
    case ClientSends(d) => StalledEmits(s, s', SendData(s.client, d).records, []);
    case ServerSends(d) => StalledEmits(s, s', [], SendData(s.server, d).records);
    case ClientUpdates(r) => StalledEmits(s, s', StartUpdate(s.client, r).value.records, []);
    case ServerUpdates(r) => StalledEmits(s, s', [], StartUpdate(s.server, r).value.records);
    case ClientReads => StalledReads(s, a);
    case ServerReads => StalledReads(s, a);
    case ClientProcesses => StalledClientProcesses(s);
    case ServerProcesses => StalledServerProcesses(s);
    case _ =>
  }

  predicate NoDrop(actions: seq<Action>) {
    forall i :: 0 <= i < |actions| ==> !actions[i].LinkDrops?
  }

  lemma {:induction false} StalledForGood(s: System, actions: seq<Action>)
    requires Stalled(s) && NoDrop(actions)
    ensures Run(s, actions).Ok? ==> Stalled(Run(s, actions).value)
    decreases |actions|
  {
    if actions != [] && Next(s, actions[0]).Ok? {
      StalledStep(s, actions[0]);
      StalledForGood(Next(s, actions[0]).value, actions[1..]);
    }
  }

  lemma {:induction false} CommitsBySignals(q: seq<Plaintext>, requesting: bool)
    requires AllUpdates(Signals(q))
    requires requesting ==> Signals(q) == []
    ensures OnlyCommits(q, requesting)
  {
    if q != [] {
      assert Signals(q)[|SignalsIn(q[0])|..] == Signals(q[1..]);
      CommitsBySignals(q[1..], requesting);
      assert OnlyCommits([q[0]], requesting) by {
        if q[0].Signaling? { assert Signals(q)[0] == q[0].signal; }
      }
      assert q == [q[0]] + q[1..];
    }
  }

  lemma RunningUpdateAnswer(c: Client, db: Database, v: Ideal, requested: bool, id: CommitId)
    requires ClientShows(c, db, v) && v.internal.Running?
    ensures
      var o := ClientMachine.UpdateClient(c, db, requested, id);
      && o.client.internal.WaitingForEpochKeyUpdate?
      && o.result == Ok((ClientSecret(v.groupId, v.hc + [id]),
                         ConnectionUpdate(requested, Commit(v.groupId, v.hc, id))))
  {
    CommitAndMerge(c.session, db.groups, v.hc, id);
  }

  lemma RequestStallsAt(s: System, v: Ideal)
    requires Connected(s, v) && v.internal.Running?
    requires OnlyCommits(Queue(ToServerPipe(s)), true) && OnlyCommits(Queue(ToClientPipe(s)), false)
    ensures Next(s, ClientUpdates(true)).Ok? && Stalled(Next(s, ClientUpdates(true)).value)
  {
    RunningUpdateAnswer(s.client.hs.client, s.client.db, v, true, FreshId(s.client));
    var s' := Next(s, ClientUpdates(true)).value;
    var e := StartUpdate(s.client, true).value;
    assert s' == ClientEmits(s, e);
    QueueGrows(ToServerPipe(s), e.records, true);
    QueueOf(ToServerPipe(s).(records := s.toServer + e.records), ToServerPipe(s'));
    QueueOf(ToClientPipe(s), ToClientPipe(s'));
  }

  /** A requesting client update stalls at once. */
  lemma RequestStalls(s: System)
    requires Reachable(s) && s.link.Up? && ClientRuns(s)
    ensures Next(s, ClientUpdates(true)).Ok? && Stalled(Next(s, ClientUpdates(true)).value)
  {
    ReachableInv(s);
    var v :| InvAt(s, v);
    PhaseAgreement(v);
    NoConfirmationInFlight(v);
    CommitsBySignals(Queue(ToServerPipe(s)), true);
    CommitsBySignals(Queue(ToClientPipe(s)), false);
    RequestStallsAt(s, v);
  }

  lemma RunOne(s: System, a: Action, actions: seq<Action>)
    requires Next(s, a).Ok?
    ensures Run(s, [a] + actions) == Run(Next(s, a).value, actions)
  {
    assert ([a] + actions)[1..] == actions;
  }

  ghost predicate Completes(s: System, requested: bool, actions: seq<Action>) {
    var r := Run(s, [ClientUpdates(requested)] + actions);
    NoDrop(actions) && r.Ok? && ClientRuns(r.value)
  }

  lemma {:induction false} DeliveriesDoNotDrop(s: System, actions: seq<Action>)
    requires Delivery(s, actions)
    ensures NoDrop(actions)
    decreases |actions|
  {
    if actions != [] {
      DeliveriesDoNotDrop(Next(s, actions[0]).value, actions[1..]);
      assert actions == [actions[0]] + actions[1..];
    }
  }

  /** From every reachable state with a running client: a client update can complete on the same
      connection if and only if it does not request an update in return. */
  lemma ClientUpdateCompletesIff(s: System, requested: bool)
    requires Reachable(s) && s.link.Up? && ClientRuns(s)
    ensures (exists actions :: Completes(s, requested, actions)) <==> !requested
  {
    if requested {
      RequestStalls(s);
      var s' := Next(s, ClientUpdates(true)).value;
      forall actions ensures !Completes(s, requested, actions) {
        RunOne(s, ClientUpdates(true), actions);
        if NoDrop(actions) { StalledForGood(s', actions); }
      }
    } else {
      ReachableInv(s);
      var v :| InvAt(s, v);
      ConnectedNext(s, v, ClientUpdates(false));
      var s' := Next(s, ClientUpdates(false)).value;
      assert InvAt(s', NextIdeal(s, v, ClientUpdates(false)));
      var actions := ConvergenceIsPossible(s');
      DeliveriesDoNotDrop(s', actions);
      RunOne(s, ClientUpdates(false), actions);
      assert Completes(s, requested, actions);
    }
  }

  // ----- what a requesting client update does to the keys -----

  const DEAD_END := [ServerReads, ServerProcesses, ClientReads, ClientProcesses]

  /** The server answers a requesting commit with a commit, but has already changed its sending key. */
  lemma ServerAnswersRequest(e: Endpoint, v: Ideal, commit: Commit)
    requires e.isServer && e.hs.ServerSide? && ServerShows(e.hs.server, e.db.groups, v) && v.pending.None?
    requires commit.groupId == v.groupId && commit.base == v.hs
    requires e.held == Some(Signaling(ConnectionUpdate(true, commit)))
    ensures
      var r := ProcessHeld(e);
      && r.Ok?
      && r.value.end.cipher.sendKey == ServerSecret(v.groupId, commit.Applied())
      && var answer := Signaling(ConnectionUpdate(false, Commit(v.groupId, commit.Applied(), FreshId(e))));
      r.value.records == [Record(e.cipher.sendKey, e.cipher.sendSeq, answer)]
  {
    ProcessOnServer(e.db.groups, v, commit);
  }

  /** A concrete failing run, from every quiet state: once the server has answered a requesting client
      update, its channels are empty, both sides wait, and the client cannot open what the server sends. */
  lemma RequestBreaksDecryption(s: System, data: Data)
    requires Reachable(s) && s.link.Up? && Converged(s)
    ensures
      var r := Run(s, [ClientUpdates(true)] + DEAD_END);
      && r.Ok? && !ClientRuns(r.value) && !ServerRuns(r.value)
      && r.value.toServer == [] && r.value.toClient == []
      && Run(r.value, [ServerSends(data), ClientReads]) == Err(DecryptionFailed)
  {
    ReachableInv(s);
    var v :| InvAt(s, v);
    assert Connected(s, v);
    var id := FreshId(s.client);
    var commit := Commit(v.groupId, v.hc, id);
    RunningUpdateAnswer(s.client.hs.client, s.client.db, v, true, id);
    var s1 := Next(s, ClientUpdates(true)).value;
    RunOne(s, ClientUpdates(true), DEAD_END);
    assert s1.toServer == [Record(s.client.cipher.sendKey, s.client.cipher.sendSeq,
                                  Signaling(ConnectionUpdate(true, commit)))];
    DeadEnd(s, v, s1, commit, data);
  }

  /** The server's half: it reads and answers the requesting commit. */
  lemma DeadEndServer(s1: System, v: Ideal, commit: Commit, r: Record)
    requires s1.link.Up? && s1.server.isServer && s1.server.hs.ServerSide? && s1.server.held.None?
    requires ServerShows(s1.server.hs.server, s1.server.db.groups, v) && v.pending.None?
    requires commit.groupId == v.groupId && commit.base == v.hs
    requires s1.toServer == [r] && r.payload == Signaling(ConnectionUpdate(true, commit)) && Read(s1.server, r).Ok?
    requires s1.toClient == []
    ensures Next(s1, ServerReads).Ok? && Next(Next(s1, ServerReads).value, ServerProcesses).Ok?
    ensures
      var s3 := Next(Next(s1, ServerReads).value, ServerProcesses).value;
      && s3.link.Up? && s3.client == s1.client && s3.toServer == [] && !ServerRuns(s3)
      && s3.server.cipher.sendKey == ServerSecret(v.groupId, commit.Applied())
      && var answer := Signaling(ConnectionUpdate(false, Commit(v.groupId, commit.Applied(), FreshId(s1.server))));
      s3.toClient == [Record(s1.server.cipher.sendKey, s1.server.cipher.sendSeq, answer)]
  {
    var s2 := Next(s1, ServerReads).value;
    assert s2.toServer == [];
    ServerAnswersRequest(s2.server, v, commit);
    ProcessOnServer(s2.server.db.groups, v, commit);
  }

  /** The client's half: it ignores the answer and then meets a key it does not have. */
  lemma DeadEndClient(s3: System, r: Record, data: Data)
    requires s3.link.Up? && s3.toServer == [] && s3.client.held.None? && !ServerRuns(s3)
    requires s3.client.hs.ClientSide? && s3.client.hs.client.internal.WaitingForEpochKeyUpdate?
    requires s3.toClient == [r] && r.payload.Signaling? && r.payload.signal.ConnectionUpdate? && Read(s3.client, r).Ok?
    requires s3.server.cipher.sendKey != s3.client.cipher.recvKey
    ensures Next(s3, ClientReads).Ok? && Next(Next(s3, ClientReads).value, ClientProcesses).Ok?
    ensures
      var s5 := Next(Next(s3, ClientReads).value, ClientProcesses).value;
      && !ClientRuns(s5) && !ServerRuns(s5) && s5.toServer == [] && s5.toClient == []
      && Run(s5, [ServerSends(data), ClientReads]) == Err(DecryptionFailed)
  {
    var s4 := Next(s3, ClientReads).value;
    assert s4.toClient == [];
    var s5 := Next(s4, ClientProcesses).value;
    assert s5.toServer == [];
    var s6 := Next(s5, ServerSends(data)).value;
    assert [ServerSends(data), ClientReads] == [ServerSends(data)] + [ClientReads];
    RunOne(s5, ServerSends(data), [ClientReads]);
    assert s6.toClient[0].key == s3.server.cipher.sendKey;
    assert Run(s6, [ClientReads]) == Next(s6, ClientReads);
  }

  lemma DeadEnd(s: System, v: Ideal, s1: System, commit: Commit, data: Data)
    requires Connected(s, v) && Converged(s) && commit.groupId == v.groupId && commit.base == v.hc
    requires s1.link.Up? && s1.server == s.server && s1.toClient == []
    requires s1.client.held.None? && s1.client.hs.ClientSide? && s1.client.hs.client.internal.WaitingForEpochKeyUpdate?
    requires s1.client.cipher.recvKey == s.client.cipher.recvKey && s1.client.cipher.recvSeq == s.client.cipher.recvSeq
    requires s1.toServer == [Record(s.client.cipher.sendKey, s.client.cipher.sendSeq,
                                    Signaling(ConnectionUpdate(true, commit)))]
    ensures
      var r := Run(s1, DEAD_END);
      && r.Ok? && !ClientRuns(r.value) && !ServerRuns(r.value)
      && r.value.toServer == [] && r.value.toClient == []
      && Run(r.value, [ServerSends(data), ClientReads]) == Err(DecryptionFailed)
  {
    DeadEndServer(s1, v, commit, s1.toServer[0]);
    var s2 := Next(s1, ServerReads).value;
    var s3 := Next(s2, ServerProcesses).value;
    assert |commit.Applied()| == |v.hs| + 1;
    DeadEndClient(s3, s3.toClient[0], data);
    RunFour(s1, ServerReads, ServerProcesses, ClientReads, ClientProcesses, s2, s3, Next(s3, ClientReads).value);
  }
}
