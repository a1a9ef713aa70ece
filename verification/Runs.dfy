/** What honest runs keep: histories only grow, a discarded server commit never comes back, and
    without update requests the client is at most one commit ahead. */
module Runs {
  import opened Wrappers
  import opened MlsGroups
  import opened Endpoints
  import opened Network
  import opened Rekeying
  import opened Safety
  import opened Resumption
  import opened Simulation
  import opened Theorems

  // ----- histories and the fate of server commits -----

  lemma ClientTakeGrows(v: Ideal, id: CommitId)
    requires Phase(v) && v.down != []
    ensures v.hc <= ClientTake(v, id).hc
    ensures ClientTake(v, id).hs == v.hs && ClientTake(v, id).pending == v.pending
  {
    if v.internal.Running? {
      assert Agreed(v);
    }
  }

  lemma OfferGrows(v: Ideal, id: CommitId)
    ensures v.hc <= OfferIdeal(v, id).hc
    ensures OfferIdeal(v, id).hs == v.hs && OfferIdeal(v, id).pending == v.pending
  {
  }

  lemma ClientProcessingGrows(s: System, v: Ideal)
    requires InvAt(s, v)
    ensures
      var v' := NextIdeal(s, v, ClientProcesses);
      v.hc <= v'.hc && v'.hs == v.hs && v'.pending == v.pending
  {
    if s.link.Up? && v.down != [] {
      ClientTakeGrows(v, FreshId(s.client));
    }
  }

  lemma ServerProcessingGrows(s: System, v: Ideal)
    requires InvAt(s, v)
    ensures
      var v' := NextIdeal(s, v, ServerProcesses);
      v'.hc == v.hc && (v'.hs == v.hs || v'.hs == v.hc) && (v'.pending == v.pending || v'.pending == None)
  {
    if s.link.Up? && v.up != [] {
      ServerTakeKeepsPhase(v);
    }
  }

  lemma OtherStepGrows(s: System, v: Ideal, a: Action)
    requires !a.ClientProcesses? && !a.ServerProcesses?
    ensures
      var v' := NextIdeal(s, v, a);
      && v.hc <= v'.hc && (v'.hs == v.hs || v'.hs == v.hc) && v'.pending in [None, v.pending, Some(FreshId(s.server))]
  {
    if a.ClientResumes? {
      OfferGrows(v, FreshId(s.client));
    }
  }

  lemma IdealGrows(s: System, v: Ideal, a: Action)
    requires InvAt(s, v)
    ensures v.hc <= NextIdeal(s, v, a).hc
    ensures NextIdeal(s, v, a).hs == v.hs || NextIdeal(s, v, a).hs == v.hc
    ensures NextIdeal(s, v, a).pending in [None, v.pending, Some(FreshId(s.server))]
  {
    if a.ClientProcesses? {
      ClientProcessingGrows(s, v);
    } else if a.ServerProcesses? {
      ServerProcessingGrows(s, v);
    } else {
      OtherStepGrows(s, v, a);
    }
  }

  lemma SerialGrows(s: System, a: Action)
    requires Next(s, a).Ok?
    ensures s.server.serial <= Next(s, a).value.server.serial
  {
  }

  /** A server commit that was created but is neither pending nor merged by the server. */
  ghost predicate Discarded(s: System, c: CommitId) {
    && c.origin.ServerParty? && c.serial < s.server.serial
    && ServerPending(s) != Some(c) && c !in ServerHistory(s)
  }

  lemma DiscardedInNeither(s: System, v: Ideal, c: CommitId)
    requires Reads(s, v) && Discarded(s, c)
    ensures c !in v.hc
  {
  }

  /** A step, as seen through what can be read off the two states. */
  lemma FatesRead(s: System, v: Ideal, t: System, v': Ideal, c: CommitId)
    requires Reads(s, v) && Reads(t, v')
    requires v.hc <= v'.hc && (v'.hs == v.hs || v'.hs == v.hc)
    requires v'.pending in [None, v.pending, Some(FreshId(s.server))] && s.server.serial <= t.server.serial
    ensures ServerHistory(s) <= ServerHistory(t) && ClientHistory(s) <= ClientHistory(t)
    ensures Discarded(s, c) ==> Discarded(t, c)
  {
    RelatedAgreement(v);
    if Discarded(s, c) { DiscardedInNeither(s, v, c); }
  }

  lemma FatesStep(s: System, a: Action, c: CommitId)
    requires Inv(s) && Honest(a)
    ensures Next(s, a).Ok? && Inv(Next(s, a).value)
    ensures
      var t := Next(s, a).value;
      && ServerHistory(s) <= ServerHistory(t) && ClientHistory(s) <= ClientHistory(t)
      && (Discarded(s, c) ==> Discarded(t, c))
  {
    var v :| InvAt(s, v);
    NextSimulates(s, v, a);
    IdealGrows(s, v, a);
    SerialGrows(s, a);
    InvReads(s, v);
    InvReads(Next(s, a).value, NextIdeal(s, v, a));
    FatesRead(s, v, Next(s, a).value, NextIdeal(s, v, a), c);
  }

  /** Over every honest run both histories only grow, and a discarded server commit is merged by
      neither side, then or later. */
  lemma {:induction false} FatesAreFinal(s: System, actions: seq<Action>, c: CommitId)
    requires Inv(s) && AllHonest(actions)
    ensures Run(s, actions).Ok?
    ensures
      var t := Run(s, actions).value;
      && ServerHistory(s) <= ServerHistory(t) && ClientHistory(s) <= ClientHistory(t)
      && (Discarded(s, c) ==> Discarded(t, c) && c !in ClientHistory(t))
    decreases |actions|
  {
    if actions == [] {
      var v :| InvAt(s, v);
      InvReads(s, v);
      if Discarded(s, c) { DiscardedInNeither(s, v, c); }
    } else {
      FatesStep(s, actions[0], c);
      FatesAreFinal(Next(s, actions[0]).value, actions[1..], c);
    }
  }

  // ----- without update requests -----

  predicate Unrequested(a: Action) {
    Honest(a) && !(a.ServerUpdates? && a.requested) && !a.ClientResumes?
  }

  predicate AllUnrequested(actions: seq<Action>) {
    forall i :: 0 <= i < |actions| ==> Unrequested(actions[i])
  }

  ghost predicate Modest(v: Ideal) {
    && |v.hc| <= |v.hs| + 1
    && (forall i :: 0 <= i < |v.down| && v.down[i].ConnectionUpdate? ==> !v.down[i].requested)
  }

  lemma ModestStep(s: System, v: Ideal, a: Action)
    requires (s.link.Up? ==> Phase(v)) && Unrequested(a) && Modest(v)
    ensures Modest(NextIdeal(s, v, a))
  {
    if s.link.Up? && a.ClientUpdates? {
      PhaseAgreement(v);
    } else if s.link.Up? && a.ServerProcesses? && v.up != [] {
      ServerTakeKeepsPhase(v);
    }
  }

  ghost predicate ModestState(s: System) {
    exists v :: InvAt(s, v) && Modest(v)
  }

  lemma ModestNext(s: System, a: Action)
    requires ModestState(s) && Unrequested(a)
    ensures Next(s, a).Ok? && ModestState(Next(s, a).value)
  {
    var v :| InvAt(s, v) && Modest(v);
    NextSimulates(s, v, a);
    ModestStep(s, v, a);
  }

  lemma {:induction false} ModestRun(s: System, actions: seq<Action>)
    requires ModestState(s) && AllUnrequested(actions)
    ensures Run(s, actions).Ok? && ModestState(Run(s, actions).value)
    decreases |actions|
  {
    if actions != [] {
      ModestNext(s, actions[0]);
      ModestRun(Next(s, actions[0]).value, actions[1..]);
    }
  }

  /** If the server never asks for an update in return and no resumption takes place, the client is
      never more than one epoch ahead. */
  lemma OneAheadWithoutRequests(start: Start, actions: seq<Action>)
    requires Fair(start) && AllUnrequested(actions)
    ensures RunFrom(start, actions).Some?
    ensures
      var t := RunFrom(start, actions).value;
      |ClientHistory(t)| <= |ServerHistory(t)| + 1
  {
    EstablishWorks(start);
    var s := Establish(start.mode, start.clientDb, start.serverDb, start.profileId, start.groupId).value;
    var v :| InvAt(s, v);
    assert v.hc == v.hs && v.down == [];
    ModestRun(s, actions);
    var v' :| InvAt(Run(s, actions).value, v') && Modest(v');
  }

  // ----- every commit is merged at most once -----

  predicate NoRepeats(h: History) {
    forall i, j :: 0 <= i < j < |h| ==> h[i] != h[j]
  }

  /** The client's commits are numbered below its counter, and no commit stands twice in its history. */
  ghost predicate Numbers(s: System, v: Ideal) {
    && !s.client.isServer && NoRepeats(v.hc)
    && (forall i :: 0 <= i < |v.hc| && v.hc[i].origin.ClientParty? ==> v.hc[i].serial < s.client.serial)
  }

  /** How the client's history grows in one step: by a commit of its own, by the server's pending commit, or by
      both, and by the server's only if that is not in it yet. */
  ghost predicate GrowsBy(s: System, v: Ideal, h: History) {
    || h == v.hc
    || h == v.hc + [FreshId(s.client)]
    || (v.pending.Some? && v.hc == v.hs && h == v.hc + [v.pending.value])
    || (v.pending.Some? && v.hc == v.hs && h == v.hc + [v.pending.value] + [FreshId(s.client)])
  }

  lemma TakeGrowsBy(s: System, v: Ideal)
    requires Phase(v) && v.down != []
    ensures GrowsBy(s, v, ClientTake(v, FreshId(s.client)).hc)
  {
    if v.internal.Running? && v.down[0].ConnectionUpdate? {
      assert Agreed(v);
    }
  }

  lemma StepGrowsBy(s: System, v: Ideal, a: Action)
    requires InvAt(s, v)
    ensures GrowsBy(s, v, NextIdeal(s, v, a).hc)
  {
    if a.ClientProcesses? && s.link.Up? && HoldsSignal(s.client) && v.down != [] {
      TakeGrowsBy(s, v);
    }
  }

  /** The three actions that may extend the client's history. */
  ghost predicate MayCommit(s: System, v: Ideal, a: Action) {
    || (a.ClientUpdates? && s.link.Up? && v.internal.Running?)
    || (a.ClientProcesses? && s.link.Up? && HoldsSignal(s.client))
    || (a.ClientResumes? && s.link.Down?)
  }

  lemma OnlyTheseCommit(s: System, v: Ideal, a: Action)
    ensures NextIdeal(s, v, a).hc != v.hc ==> MayCommit(s, v, a)
  {
  }

  /** The counter never goes back. */
  lemma CounterStays(s: System, a: Action)
    requires Next(s, a).Ok?
    ensures s.client.serial <= Next(s, a).value.client.serial && Next(s, a).value.client.isServer == s.client.isServer
    ensures
      || (a.ClientProcesses? && s.link.Up? && HoldsSignal(s.client))
      || (a.ClientResumes? && s.link.Down? && s.client.hs.ClientSide?)
      ==> s.client.serial < Next(s, a).value.client.serial
  {
  }

  /** A step that may make a commit advances it. */
  lemma CounterAdvances(s: System, v: Ideal, a: Action)
    requires InvAt(s, v) && Next(s, a).Ok? && Honest(a) && MayCommit(s, v, a)
    ensures s.client.serial < Next(s, a).value.client.serial
  {
    CounterStays(s, a);
    if a.ClientUpdates? {
      PhaseAgreement(v);
      ClientUpdatesEnd(s.client, v);
    }
  }

  lemma NumbersGoOn(s: System, v: Ideal, t: System, h: History, v': Ideal)
    requires Numbers(s, v) && Accounted(v, s.server.serial) && GrowsBy(s, v, h) && v'.hc == h
    requires s.client.serial <= t.client.serial && !t.client.isServer
    requires h != v.hc ==> s.client.serial < t.client.serial
    ensures Numbers(t, v')
  {
    assert FreshId(s.client) !in v.hc;
    if v.pending.Some? && v.hc == v.hs {
      assert v.pending.value !in v.hc;
    }
  }

  ghost predicate Numbered(s: System) {
    exists v :: InvAt(s, v) && Numbers(s, v)
  }

  lemma NumberedStep(s: System, a: Action)
    requires Numbered(s) && Honest(a)
    ensures Next(s, a).Ok? && Numbered(Next(s, a).value)
  {
    var v :| InvAt(s, v) && Numbers(s, v);
    NextSimulates(s, v, a);
    InvReads(s, v);
    StepGrowsBy(s, v, a);
    CounterStays(s, a);
    OnlyTheseCommit(s, v, a);
    if MayCommit(s, v, a) {
      CounterAdvances(s, v, a);
    }
    NumbersGoOn(s, v, Next(s, a).value, NextIdeal(s, v, a).hc, NextIdeal(s, v, a));
  }

  lemma {:induction false} NumberedRun(s: System, actions: seq<Action>)
    requires Numbered(s) && AllHonest(actions)
    ensures Run(s, actions).Ok? && Numbered(Run(s, actions).value)
    decreases |actions|
  {
    if actions != [] {
      NumberedStep(s, actions[0]);
      NumberedRun(Next(s, actions[0]).value, actions[1..]);
    }
  }

  /** In every reachable state, over any losses and resumptions, no commit stands twice in either history. */
  lemma MergedOnce(s: System)
    requires Reachable(s)
    ensures NoRepeats(ClientHistory(s)) && NoRepeats(ServerHistory(s))
  {
    var start, actions :| Fair(start) && AllHonest(actions) && RunFrom(start, actions) == Some(s);
    NumberedStart(start);
    NumberedRun(Establish(start.mode, start.clientDb, start.serverDb, start.profileId, start.groupId).value, actions);
    NumberedHistories(s);
  }

  lemma NumberedStart(start: Start)
    requires Fair(start)
    ensures
      var r := Establish(start.mode, start.clientDb, start.serverDb, start.profileId, start.groupId);
      r.Ok? && Numbered(r.value)
  {
    EstablishWorks(start);
    var s := Establish(start.mode, start.clientDb, start.serverDb, start.profileId, start.groupId).value;
    var v :| InvAt(s, v);
    InvReads(s, v);
    assert Numbers(s, v);
  }

  lemma NumberedHistories(s: System)
    requires Numbered(s)
    ensures NoRepeats(ClientHistory(s)) && NoRepeats(ServerHistory(s))
  {
    var v :| InvAt(s, v) && Numbers(s, v);
    InvReads(s, v);
    RelatedAgreement(v);
  }
}
