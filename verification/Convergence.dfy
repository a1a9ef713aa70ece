/**
 Convergence: deliveries lower a weight over the messages in flight, so without new updates every
 run of deliveries ends, and it ends with both sides running, nothing pending and equal keys.
 */
module Convergence {
  import opened Wrappers
  import opened MlsGroups
  import opened Messages
  import opened Endpoints
  import opened Network
  import opened Channels
  import opened Rekeying
  import opened Refinement
  import opened Safety
  import opened Simulation
  import opened Theorems

  /** A server proposal weighs more than the client's answer to it, which weighs more than the
      server's confirmation. */
  function Weight(p: Plaintext, d: Direction): nat {
    if p.Application? then 1
    else if d.ToServer? then 3
    else if p.signal.ConnectionUpdate? then 5
    else 1
  }

  function InFlight(records: seq<Record>, d: Direction): nat {
    if records == [] then 0 else Weight(records[0].payload, d) + 1 + InFlight(records[1..], d)
  }

  function PipeWeight(p: Pipe, d: Direction): nat {
    (if p.held.Some? then Weight(p.held.value, d) else 0) + InFlight(p.records, d)
  }

  function SystemWeight(s: System): nat {
    PipeWeight(ToServerPipe(s), ToServer) + PipeWeight(ToClientPipe(s), ToClient)
  }

  lemma {:induction false} InFlightAppend(records: seq<Record>, d: Direction, r: Record)
    ensures InFlight(records + [r], d) == InFlight(records, d) + Weight(r.payload, d) + 1
  {
    if records == [] {
      assert [r][1..] == [];
    } else {
      assert (records + [r])[1..] == records[1..] + [r];
      InFlightAppend(records[1..], d, r);
    }
  }

  predicate Enabled(s: System, a: Action) {
    match a
    case ClientReads => s.client.held.None? && s.toClient != []
    case ServerReads => s.server.held.None? && s.toServer != []
    case ClientProcesses => s.client.held.Some?
    case ServerProcesses => s.server.held.Some?
    case _ => false
  }

  lemma WeightSent(p: Pipe, d: Direction, m: Plaintext, key: Secret)
    ensures PipeWeight(Sent(p, m, key), d) == PipeWeight(p, d) + Weight(m, d) + 1
  {
    InFlightAppend(p.records, d, Record(p.sendKey, p.sendSeq, m));
  }

  lemma WeightProcessed(p: Pipe, d: Direction, key: Secret)
    requires p.held.Some?
    ensures PipeWeight(Processed(p, key), d) == PipeWeight(p, d) - Weight(p.held.value, d)
  {
  }

  lemma ClientProcessingLowers(s: System, v: Ideal)
    requires Connected(s, v) && s.client.held.Some?
    requires Next(s, ClientProcesses).Ok?
    ensures SystemWeight(Next(s, ClientProcesses).value) < SystemWeight(s)
  {
    var s' := Next(s, ClientProcesses).value;
    var key := s'.client.cipher.recvKey;
    WeightProcessed(ToClientPipe(s), ToClient, key);
    assert s.toServer + [] == s.toServer;
    if s.client.held.value.Application? {
      assert ToClientPipe(s') == Processed(ToClientPipe(s), key);
      assert ToServerPipe(s') == ToServerPipe(s);
    } else {
      HeldIsNext(ToClientPipe(s));
      ClientSignalWeighs(s, v, s');
    }
  }

  /** The client's answer, if any, in terms of the pipe to the server. */
  lemma ClientRespondsWeight(s: System, e: Endpoint, update: Option<SecretUpdate>, response: Option<Signal>)
    requires !e.isServer && e.held == None
    requires e.cipher == s.client.cipher && e.sent == s.client.sent && e.got == s.client.got
    requires s.client.held.Some? && s.client.held.value.Signaling?
    ensures
      var s' := ClientEmits(s, Respond(e, update, response));
      && PipeWeight(ToClientPipe(s'), ToClient)
         == PipeWeight(Processed(ToClientPipe(s), s'.client.cipher.recvKey), ToClient)
      && PipeWeight(ToServerPipe(s'), ToServer)
         == PipeWeight(ToServerPipe(s), ToServer) + (if response.Some? then 4 else 0)
  {
    var s' := ClientEmits(s, Respond(e, update, response));
    assert ToClientPipe(s') == Processed(ToClientPipe(s), s'.client.cipher.recvKey);
    if response.Some? {
      WeightSent(ToServerPipe(s), ToServer, Signaling(response.value), s'.client.cipher.sendKey);
      assert ToServerPipe(s') == Sent(ToServerPipe(s), Signaling(response.value), s'.client.cipher.sendKey);
    } else {
      assert s.toServer + [] == s.toServer;
    }
  }

  lemma ClientSignalWeighs(s: System, v: Ideal, s': System)
    requires s.link.Up? && !s.client.isServer && s.client.hs.ClientSide? && Phase(v)
    requires ClientShows(s.client.hs.client, s.client.db, v) && Persisted(s.client.hs.client, s.client.db)
    requires v.down != [] && s.client.held == Some(Signaling(v.down[0]))
    requires Next(s, ClientProcesses) == Ok(s')
    ensures PipeWeight(ToClientPipe(s'), ToClient)
         == PipeWeight(Processed(ToClientPipe(s), s'.client.cipher.recvKey), ToClient)
    ensures PipeWeight(ToServerPipe(s'), ToServer)
         <= PipeWeight(ToServerPipe(s), ToServer) + (if v.down[0].ConnectionUpdate? then 4 else 0)
  {
    ClientTakesEnd(s.client, v);
    var end := ProcessHeld(s.client).value.end;
    var e := s.client.(hs := end.hs, db := end.db, held := None, serial := s.client.serial + 1);
    var (update, response) := ClientReaction(v, FreshId(s.client));
    ClientRespondsWeight(s, e, update, response);
  }

  lemma ServerProcessingLowers(s: System, v: Ideal)
    requires Connected(s, v) && s.server.held.Some?
    requires Next(s, ServerProcesses).Ok?
    ensures SystemWeight(Next(s, ServerProcesses).value) < SystemWeight(s)
  {
    var s' := Next(s, ServerProcesses).value;
    var key := s'.server.cipher.recvKey;
    WeightProcessed(ToServerPipe(s), ToServer, key);
    assert s.toClient + [] == s.toClient;
    if s.server.held.value.Application? {
      assert ToServerPipe(s') == Processed(ToServerPipe(s), key);
      assert ToClientPipe(s') == ToClientPipe(s);
    } else {
      HeldIsNext(ToServerPipe(s));
      ServerSignalWeighs(s, v, s');
    }
  }

  lemma ServerSignalWeighs(s: System, v: Ideal, s': System)
    requires s.link.Up? && s.server.isServer && s.server.hs.ServerSide? && Phase(v)
    requires ServerShows(s.server.hs.server, s.server.db.groups, v)
    requires v.up != [] && s.server.held == Some(Signaling(v.up[0]))
    requires Next(s, ServerProcesses) == Ok(s')
    ensures PipeWeight(ToServerPipe(s'), ToServer)
         == PipeWeight(Processed(ToServerPipe(s), s'.server.cipher.recvKey), ToServer)
    ensures PipeWeight(ToClientPipe(s'), ToClient) <= PipeWeight(ToClientPipe(s), ToClient) + 2
  {
    ServerTakeRefines(s.server.hs.server, s.server.db.groups, v, FreshId(s.server));
    var m := Signaling(EpochKeyUpdate(|ServerTake(v).hs|));
    assert ToServerPipe(s') == Processed(ToServerPipe(s), s'.server.cipher.recvKey);
    WeightSent(ToClientPipe(s), ToClient, m, s'.server.cipher.sendKey);
    assert ToClientPipe(s') == Sent(ToClientPipe(s), m, s'.server.cipher.sendKey);
  }

  lemma ReadingLowers(s: System, a: Action)
    requires s.link.Up? && Enabled(s, a) && (a.ClientReads? || a.ServerReads?) && Next(s, a).Ok?
    ensures SystemWeight(Next(s, a).value) < SystemWeight(s)
  {
  }

  /** Each delivery strictly lowers the weight. */
  lemma DeliveryLowers(s: System, a: Action)
    requires Inv(s) && s.link.Up? && Enabled(s, a)
    ensures Next(s, a).Ok? && Inv(Next(s, a).value) && Next(s, a).value.link.Up?
    ensures SystemWeight(Next(s, a).value) < SystemWeight(s)
  {
    var v :| InvAt(s, v);
    ConnectedNext(s, v, a);
    assert InvAt(Next(s, a).value, NextIdeal(s, v, a));
    if a.ClientProcesses? {
      ClientProcessingLowers(s, v);
    } else if a.ServerProcesses? {
      ServerProcessingLowers(s, v);
    } else {
      ReadingLowers(s, a);
    }
  }

  /** Both sides run, nothing is pending or in flight, histories and keys agree. */
  ghost predicate Converged(s: System) {
    && ClientRuns(s) && ServerRuns(s) && ServerPending(s).None?
    && s.toServer == [] && s.toClient == [] && s.client.held.None? && s.server.held.None?
    && ClientHistory(s) == ServerHistory(s)
    && Mirrored(s.client.cipher, s.server.cipher)
    && s.client.sent == s.server.got && s.server.sent == s.client.got
  }

  lemma QuietMeansConverged(s: System, v: Ideal)
    requires Connected(s, v)
    requires s.toServer == [] && s.toClient == [] && s.client.held.None? && s.server.held.None?
    ensures Converged(s)
  {
    assert Queue(ToServerPipe(s)) == [] && Queue(ToClientPipe(s)) == [];
    PhaseAgreement(v);
  }

  lemma NothingEnabledMeansQuiet(s: System)
    requires forall a :: !Enabled(s, a)
    ensures s.toServer == [] && s.toClient == [] && s.client.held.None? && s.server.held.None?
  {
    assert !Enabled(s, ClientReads) && !Enabled(s, ServerReads);
    assert !Enabled(s, ClientProcesses) && !Enabled(s, ServerProcesses);
  }

  /** Empty channels mean convergence: no side is left waiting. */
  lemma EmptyMeansConverged(s: System)
    requires Inv(s) && s.link.Up?
    requires s.toServer == [] && s.toClient == [] && s.client.held.None? && s.server.held.None?
    ensures Converged(s)
  {
    var v :| InvAt(s, v);
    QuietMeansConverged(s, v);
  }

  /** A sequence of deliveries, each of them enabled when its turn comes. */
  ghost predicate Delivery(s: System, actions: seq<Action>)
    decreases |actions|
  {
    actions == [] ||
    (Enabled(s, actions[0]) && Next(s, actions[0]).Ok? && Delivery(Next(s, actions[0]).value, actions[1..]))
  }

  /** Every sequence of deliveries is at most as long as the weight it starts from, and one that cannot
      be continued has converged, in whatever order the two sides took their turns. */
  lemma {:induction false} DeliveriesConverge(s: System, actions: seq<Action>)
    requires Inv(s) && s.link.Up? && Delivery(s, actions)
    ensures Run(s, actions).Ok?
    ensures |actions| + SystemWeight(Run(s, actions).value) <= SystemWeight(s)
    ensures (forall a :: !Enabled(Run(s, actions).value, a)) ==> Converged(Run(s, actions).value)
    decreases |actions|
  {
    if actions == [] {
      if forall a :: !Enabled(s, a) {
        NothingEnabledMeansQuiet(s);
        EmptyMeansConverged(s);
      }
    } else {
      DeliveryLowers(s, actions[0]);
      DeliveriesConverge(Next(s, actions[0]).value, actions[1..]);
    }
  }

  /** From every reachable connected state, some sequence of deliveries converges. */
  lemma {:induction false} ConvergenceIsPossible(s: System) returns (actions: seq<Action>)
    requires Inv(s) && s.link.Up?
    ensures Delivery(s, actions) && |actions| <= SystemWeight(s)
    ensures Run(s, actions).Ok? && Converged(Run(s, actions).value)
    decreases SystemWeight(s)
  {
    if a :| Enabled(s, a) {
      DeliveryLowers(s, a);
      var rest := ConvergenceIsPossible(Next(s, a).value);
      actions := [a] + rest;
      assert actions[1..] == rest;
    } else {
      NothingEnabledMeansQuiet(s);
      EmptyMeansConverged(s);
      actions := [];
    }
  }
}
