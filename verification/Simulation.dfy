/**
 The system simulates the ideal protocol: every action of an honest run succeeds and moves the ideal
 state by one ideal step or not at all. Everything said about all runs follows from here.
 */
module Simulation {
  import opened Wrappers
  import opened MlsGroups
  import opened Persistence
  import opened Endpoints
  import opened Network
  import opened Channels
  import opened Rekeying
  import opened Safety
  import opened Resumption

  predicate HoldsSignal(e: Endpoint) {
    e.held.Some? && e.held.value.Signaling?
  }

  /** The ideal step behind an action. */
  ghost function NextIdeal(s: System, v: Ideal, a: Action): Ideal {
    match a
    case ClientUpdates(_) =>
      if s.link.Up? && v.internal.Running? then ClientUpdate(v, FreshId(s.client)) else v
    case ServerUpdates(requested) =>
      if Live(s.link, a) && v.pending.None? then ServerUpdate(v, requested, FreshId(s.server)) else v
    case ClientProcesses =>
      if s.link.Up? && HoldsSignal(s.client) && v.down != [] then ClientTake(v, FreshId(s.client)) else v
    case ServerProcesses =>
      if s.link.Up? && HoldsSignal(s.server) && v.up != [] then ServerTake(v) else v
    case ClientResumes => if s.link.Down? then OfferIdeal(v, FreshId(s.client)) else v
    case OfferArrives =>
      if s.link.Offered? then OfferedIdeal(v) else v
    case ConfirmationArrives =>
      if s.link.Answered? then v.(internal := ClientInternal.Running) else v
    case _ => v
  }

  lemma NothingHeldKeeps(s: System, v: Ideal)
    requires Connected(s, v)
    ensures s.client.held.None? ==> Next(s, ClientProcesses) == Ok(s)
    ensures s.server.held.None? ==> Next(s, ServerProcesses) == Ok(s)
  {
    assert s.toServer + [] == s.toServer && s.toClient + [] == s.toClient;
  }

  /** Only a signaling message moves the ideal state. */
  lemma ProcessingIdeals(s: System, v: Ideal)
    requires s.link.Up?
    ensures Next(s, ClientProcesses) == ClientEmitted(s, ProcessHeld(s.client))
    ensures Next(s, ServerProcesses) == ServerEmitted(s, ProcessHeld(s.server))
    ensures
      NextIdeal(s, v, ClientProcesses)
      == if HoldsSignal(s.client) && v.down != [] then ClientTake(v, FreshId(s.client)) else v
    ensures NextIdeal(s, v, ServerProcesses) == if HoldsSignal(s.server) && v.up != [] then ServerTake(v) else v
  {
  }

  lemma ClientProcessesKeeps(s: System, v: Ideal)
    requires Connected(s, v)
    ensures
      var r := Next(s, ClientProcesses);
      r.Ok? && Connected(r.value, NextIdeal(s, v, ClientProcesses))
  {
    ProcessingIdeals(s, v);
    if HoldsSignal(s.client) {
      ClientTakesKeeps(s, v);
    } else {
      ClientProcessesPlain(s, v);
    }
  }

  /** Data, or nothing, to process: the ideal state stays. */
  lemma ClientProcessesPlain(s: System, v: Ideal)
    requires Connected(s, v) && !HoldsSignal(s.client)
    ensures
      var r := Next(s, ClientProcesses);
      r.Ok? && Connected(r.value, v)
  {
    if s.client.held.Some? {
      ClientReturnsDataKeeps(s, v);
    } else {
      NothingHeldKeeps(s, v);
    }
  }

  lemma ServerProcessesKeeps(s: System, v: Ideal)
    requires Connected(s, v)
    ensures
      var r := Next(s, ServerProcesses);
      r.Ok? && Connected(r.value, NextIdeal(s, v, ServerProcesses))
  {
    ProcessingIdeals(s, v);
    if HoldsSignal(s.server) {
      ServerTakesKeeps(s, v);
    } else {
      ServerProcessesPlain(s, v);
    }
  }

  lemma ServerProcessesPlain(s: System, v: Ideal)
    requires Connected(s, v) && !HoldsSignal(s.server)
    ensures
      var r := Next(s, ServerProcesses);
      r.Ok? && Connected(r.value, v)
  {
    if s.server.held.Some? {
      ServerReturnsDataKeeps(s, v);
    } else {
      NothingHeldKeeps(s, v);
    }
  }

  predicate Traffic(a: Action) {
    a.ClientSends? || a.ServerSends? || a.ClientReads? || a.ServerReads?
  }

  lemma TrafficKeeps(s: System, v: Ideal, a: Action)
    requires Connected(s, v) && Traffic(a)
    ensures Next(s, a).Ok? && Connected(Next(s, a).value, v)
  {
    match a
    case ClientSends(d) => ClientSendsKeeps(s, v, d);
    case ServerSends(d) => ServerSendsKeeps(s, v, d);
    case ClientReads => ClientReadsKeeps(s, v);
    case ServerReads => ServerReadsKeeps(s, v);
  }

  lemma ClientUpdateNext(s: System, v: Ideal)
    requires Connected(s, v)
    ensures
      var a := ClientUpdates(false);
      Next(s, a).Ok? && Connected(Next(s, a).value, NextIdeal(s, v, a))
  {
    ClientUpdatesKeeps(s, v);
  }

  lemma ServerUpdateNext(s: System, v: Ideal, requested: bool)
    requires Connected(s, v)
    ensures
      var a := ServerUpdates(requested);
      Next(s, a).Ok? && Connected(Next(s, a).value, NextIdeal(s, v, a))
  {
    ServerUpdatesKeeps(s, v, requested);
  }

  lemma ConnectedNext(s: System, v: Ideal, a: Action)
    requires Connected(s, v) && Honest(a) && !a.LinkDrops?
    ensures Next(s, a).Ok? && Connected(Next(s, a).value, NextIdeal(s, v, a))
  {
    if Traffic(a) {
      TrafficKeeps(s, v, a);
    } else if a.ClientUpdates? {
      ClientUpdateNext(s, v);
    } else if a.ServerUpdates? {
      ServerUpdateNext(s, v, a.requested);
    } else if a.ClientProcesses? {
      ClientProcessesKeeps(s, v);
    } else if a.ServerProcesses? {
      ServerProcessesKeeps(s, v);
    }
  }

  /** While the client waits for the confirmation, the server's steps keep what awaits the client. */
  lemma AnsweredNext(s: System, v: Ideal, a: Action)
    requires Disconnected(s, v) && s.link.Answered? && AtServer(a)
    ensures Next(s, a).Ok? && Disconnected(Next(s, a).value, NextIdeal(s, v, a))
  {
    var running := v.(internal := ClientInternal.Running);
    ConnectedNext(Upcoming(s), running, a);
    ServerStepCommutes(s, a);
    AnsweredIdeal(s, v, a);
    ServerStepShape(s, a);
    AnsweredAgain(s, v, Next(s, a).value, NextIdeal(s, v, a));
  }

  lemma AnsweredIdeal(s: System, v: Ideal, a: Action)
    requires Disconnected(s, v) && s.link.Answered? && AtServer(a)
    ensures NextIdeal(Upcoming(s), v.(internal := ClientInternal.Running), a)
         == NextIdeal(s, v, a).(internal := ClientInternal.Running)
    ensures NextIdeal(s, v, a).hc == v.hc && NextIdeal(s, v, a).internal == v.internal
    ensures NextIdeal(s, v, a).groupId == v.groupId
  {
  }

  /** A step of a server that holds nothing leaves the client alone and the channel to it open. */
  lemma ServerStepShape(s: System, a: Action)
    requires s.link.Answered? && AtServer(a) && s.toServer == [] && s.server.held.None? && Next(s, a).Ok?
    ensures
      var t := Next(s, a).value;
      && t.client == s.client && t.link == s.link && t.groupId == s.groupId && t.mode == s.mode
      && t.toServer == [] && t.server.held.None?
  {
  }

  /** What the server has done shows in the connection to come. */
  lemma AnsweredAgain(s: System, v: Ideal, t: System, v': Ideal)
    requires Disconnected(s, v) && s.link.Answered?
    requires t.client == s.client && t.link == s.link && t.groupId == s.groupId && t.mode == s.mode
    requires t.toServer == [] && t.server.held.None?
    requires v'.hc == v.hc && v'.internal == v.internal && v'.groupId == v.groupId
    requires ConfirmationArrived(t).Ok? && Connected(Upcoming(t), v'.(internal := ClientInternal.Running))
    ensures Disconnected(t, v')
  {
    PhaseAgreement(v'.(internal := ClientInternal.Running));
    assert Upcoming(t).server == t.server;
    assert Related(v');
    assert Sides(t, v');
  }

  lemma IdleNext(s: System, v: Ideal, a: Action)
    requires !s.link.Up? && !a.LinkDrops? && !Live(s.link, a)
    requires a.ClientResumes? ==> !s.link.Down?
    requires a.OfferArrives? ==> !s.link.Offered?
    requires a.ConfirmationArrives? ==> !s.link.Answered?
    ensures Next(s, a) == Ok(s) && NextIdeal(s, v, a) == v
  {
  }

  /** What the three steps of a resumption are, seen from the action. */
  lemma ResumptionSteps(s: System, v: Ideal)
    ensures Next(s, ClientResumes) == Resumed(s)
    ensures s.link.Down? ==> NextIdeal(s, v, ClientResumes) == OfferIdeal(v, FreshId(s.client))
    ensures Next(s, OfferArrives) == Ok(OfferArrived(s))
    ensures s.link.Offered? ==> NextIdeal(s, v, OfferArrives) == OfferedIdeal(v)
    ensures Next(s, ConfirmationArrives) == ConfirmationArrived(s)
    ensures s.link.Answered? ==> NextIdeal(s, v, ConfirmationArrives) == v.(internal := ClientInternal.Running)
  {
  }

  lemma DisconnectedNext(s: System, v: Ideal, a: Action)
    requires Disconnected(s, v) && !a.LinkDrops?
    ensures Next(s, a).Ok? && InvAt(Next(s, a).value, NextIdeal(s, v, a))
  {
    ResumptionSteps(s, v);
    if a.ClientResumes? && s.link.Down? {
      ResumeKeeps(s, v);
    } else if a.OfferArrives? && s.link.Offered? {
      OfferKeeps(s, v);
    } else if a.ConfirmationArrives? && s.link.Answered? {
      ConfirmationKeeps(s, v);
    } else if Live(s.link, a) {
      AnsweredNext(s, v, a);
    } else {
      IdleNext(s, v, a);
    }
  }

  /** One action: no fault, and the ideal state moves as `NextIdeal` says. */
  lemma NextSimulates(s: System, v: Ideal, a: Action)
    requires InvAt(s, v) && Honest(a)
    ensures Next(s, a).Ok? && InvAt(Next(s, a).value, NextIdeal(s, v, a))
  {
    if a.LinkDrops? {
      DropKeeps(s, v);
    } else if Connected(s, v) {
      ConnectedNext(s, v, a);
    } else {
      DisconnectedNext(s, v, a);
    }
  }

  /** Every honest run from a state of the invariant: no fault, and the invariant holds at its end. */
  lemma {:induction false} RunKeepsInv(s: System, actions: seq<Action>)
    requires Inv(s) && AllHonest(actions)
    ensures Run(s, actions).Ok? && Inv(Run(s, actions).value)
    decreases |actions|
  {
    if actions != [] {
      var v :| InvAt(s, v);
      NextSimulates(s, v, actions[0]);
      RunKeepsInv(Next(s, actions[0]).value, actions[1..]);
    }
  }

  // ----- reachable states -----

  datatype Start = Start(mode: Mode, clientDb: Database, serverDb: Database, profileId: ProfileId, groupId: GroupId)

  /** The client's table is in order and the group identifier is new to it. */
  ghost predicate Fair(start: Start) {
    Consistent(start.clientDb) && start.groupId !in start.clientDb.groups
  }

  function RunFrom(start: Start, actions: seq<Action>): Option<System> {
    match Establish(start.mode, start.clientDb, start.serverDb, start.profileId, start.groupId)
    case Err(_) => None
    case Ok(s) => (match Run(s, actions) case Err(_) => None case Ok(t) => Some(t))
  }

  ghost predicate Reachable(s: System) {
    exists start, actions :: Fair(start) && AllHonest(actions) && RunFrom(start, actions) == Some(s)
  }

  /** Both handshake modes succeed and set up mirrored keys with the invariant in force. */
  lemma EstablishWorks(start: Start)
    requires Fair(start)
    ensures
      var r := Establish(start.mode, start.clientDb, start.serverDb, start.profileId, start.groupId);
      && r.Ok? && Inv(r.value) && r.value.link.Up?
      && r.value.mode == start.mode
      && r.value.client.cipher.sendSeq == r.value.server.cipher.sendSeq == First(start.mode)
      && First(start.mode) == (if start.mode.Protected? then 1 else 0)
      && r.value.server.db
         == start.serverDb.(groups := start.serverDb.groups[start.groupId := Group([CommitId(ServerParty, 0)], None)])
      && r.value.client.cipher.sendKey == r.value.server.cipher.recvKey
      && r.value.client.cipher.recvKey == r.value.server.cipher.sendKey
      && r.value.client.cipher.sendSeq == r.value.server.cipher.recvSeq
      && r.value.client.cipher.recvSeq == r.value.server.cipher.sendSeq
  {
    var add := CommitId(ServerParty, 0);
    ClientMachine.JoinGroupSucceeds(start.clientDb, start.profileId, start.groupId, [add]);
    var s := Establish(start.mode, start.clientDb, start.serverDb, start.profileId, start.groupId).value;
    var v := Ideal(start.groupId, [add], ClientInternal.Running, [add], None, [], []);
    HellosArrive(start.mode, Export(start.groupId, [add]), Export(start.groupId, [add]));
    EmptyPipe(ToServerPipe(s), ToServer, ClientSecret(v.groupId, v.hc));
    EmptyPipe(ToClientPipe(s), ToClient, ServerSecret(v.groupId, v.hc));
    assert Agreed(v);
    assert Connected(s, v);
    assert InvAt(s, v);
  }

  /** No honest run, of either handshake mode and any interleaving, ends in a fault. */
  lemma HonestRunsNeverFault(start: Start, actions: seq<Action>)
    requires Fair(start) && AllHonest(actions)
    ensures RunFrom(start, actions).Some? && Inv(RunFrom(start, actions).value)
  {
    EstablishWorks(start);
    RunKeepsInv(Establish(start.mode, start.clientDb, start.serverDb, start.profileId, start.groupId).value, actions);
  }

  lemma ReachableInv(s: System)
    requires Reachable(s)
    ensures Inv(s)
  {
    var start, actions :| Fair(start) && AllHonest(actions) && RunFrom(start, actions) == Some(s);
    HonestRunsNeverFault(start, actions);
  }
}
