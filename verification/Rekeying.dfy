/**
 The rekeying protocol stripped to its idea: two histories, the client's state, the server's
 pending commit and the signaling messages in flight. There is no storage, no key, no epoch test
 and no error branch here. `Phase` lists the situations the protocol can be in; each ideal step
 leads from a phase to a phase.
 */
module Rekeying {
  import opened Wrappers
  import opened MlsGroups
  import opened Messages
  import opened Persistence

  datatype Ideal = Ideal(
    groupId: GroupId,
    hc: History, internal: ClientInternal,   // the client
    hs: History, pending: Option<CommitId>,  // the server
    up: seq<Signal>, down: seq<Signal>)      // in flight to the server, to the client

  // ----- ideal steps -----

  function ClientUpdate(v: Ideal, id: CommitId): Ideal {
    var commit := Commit(v.groupId, v.hc, id);
    v.(hc := v.hc + [id],
    internal := WaitingForEpochKeyUpdate(PendingUpdate(commit, Export(v.groupId, v.hc + [id]))),
    up := v.up + [ConnectionUpdate(false, commit)])
  }

  function ServerUpdate(v: Ideal, requested: bool, id: CommitId): Ideal {
    v.(pending := Some(id), down := v.down + [ConnectionUpdate(requested, Commit(v.groupId, v.hs, id))])
  }

  /** The client ignores a server commit unless it is running; a confirmation sets it running. */
  function ClientTake(v: Ideal, id: CommitId): Ideal
    requires v.down != []
  {
    var m := v.down[0];
    var v' := v.(down := v.down[1..]);
    if m.ConnectionUpdate? && v.internal.Running? then
      var accepted := v'.(hc := m.commit.Applied());
      if m.requested then ClientUpdate(accepted, id)
      else accepted.(internal := WaitingForEpochKeyUpdateReturn(ServerSecret(v.groupId, accepted.hc)),
           up := v.up + [EpochKeyUpdate(|accepted.hc|)])
    else if m.EpochKeyUpdate? then v'.(internal := Running)
    else v'
  }

  /** The server follows the client's commit, or merges its own once the client confirmed it. */
  function ServerTake(v: Ideal): Ideal
    requires v.up != []
  {
    var m := v.up[0];
    var hs := if m.ConnectionUpdate? then m.commit.Applied()
              else if v.pending.Some? then v.hs + [v.pending.value]
              else v.hs;
    v.(hs := hs, pending := None, up := v.up[1..], down := v.down + [EpochKeyUpdate(|hs|)])
  }

  // ----- phases -----

  ghost predicate AllUpdates(q: seq<Signal>) {
    forall i :: 0 <= i < |q| ==> q[i].ConnectionUpdate?
  }

  /** The server's own proposal, as it travels to a client that will accept it. */
  ghost predicate Proposal(v: Ideal, q: seq<Signal>) {
    match v.pending
    case None => q == []
    case Some(id) => |q| == 1 && q[0].ConnectionUpdate? && q[0].commit == Commit(v.groupId, v.hs, id)
  }

  /** What the client remembers fits its own history. */
  ghost predicate Remembers(v: Ideal) {
    match v.internal
    case Running => true
    case WaitingForEpochKeyUpdateReturn(server) => server == ServerSecret(v.groupId, v.hc)
    case WaitingForEpochKeyUpdate(p) => Outstanding(v, p)
    case WaitingForConnectionConfirmation(p) => Outstanding(v, p)
  }

  ghost predicate Outstanding(v: Ideal, p: PendingUpdate) {
    && p.commit.groupId == v.groupId && p.commit.Applied() == v.hc && p.commit.id.origin.ClientParty?
    && p.secrets == Export(v.groupId, v.hc)
  }

  /** Both sides agree; the server may have proposed a commit. */
  ghost predicate Agreed(v: Ideal) {
    v.internal.Running? && v.hc == v.hs && v.up == [] && Proposal(v, v.down)
  }

  /** The client's commit is on its way; any server proposal in flight will be ignored. */
  ghost predicate ClientAhead(v: Ideal) {
    && v.internal.WaitingForEpochKeyUpdate?
    && v.internal.pending.commit.base == v.hs
    && v.up == [ConnectionUpdate(false, v.internal.pending.commit)]
    && AllUpdates(v.down)
  }

  /** The client accepted the server's proposal and answers with a commit on top of it. */
  ghost predicate ClientReplied(v: Ideal) {
    && v.internal.WaitingForEpochKeyUpdate?
    && v.pending.Some?
    && v.internal.pending.commit.base == v.hs + [v.pending.value]
    && v.up == [ConnectionUpdate(false, v.internal.pending.commit)]
    && v.down == []
  }

  /** The client accepted the server's proposal and confirms it. */
  ghost predicate ClientAccepted(v: Ideal) {
    && v.internal.WaitingForEpochKeyUpdateReturn?
    && v.pending.Some?
    && v.hc == v.hs + [v.pending.value]
    && v.up == [EpochKeyUpdate(|v.hc|)]
    && v.down == []
  }

  /** The server caught up and its confirmation is on the way at position `k`: before it only
      proposals to be ignored, after it at most the server's next proposal. */
  ghost predicate ConfirmedAt(v: Ideal, k: nat) {
    && (v.internal.WaitingForEpochKeyUpdate? || v.internal.WaitingForEpochKeyUpdateReturn?)
    && v.hc == v.hs && v.up == []
    && k < |v.down|
    && AllUpdates(v.down[..k])
    && v.down[k] == EpochKeyUpdate(|v.hc|)
    && Proposal(v, v.down[k + 1..])
  }

  ghost predicate Confirmed(v: Ideal) {
    exists k: nat :: ConfirmedAt(v, k)
  }

  ghost predicate Phase(v: Ideal) {
    && Remembers(v)
    && (Agreed(v) || ClientAhead(v) || ClientReplied(v) || ClientAccepted(v) || Confirmed(v))
  }

  /** The part of a phase that survives the loss of everything in flight. */
  ghost predicate Related(v: Ideal) {
    && Remembers(v)
    && match v.internal
       case Running => v.hc == v.hs
       case WaitingForEpochKeyUpdateReturn(_) => v.hc == v.hs || Merged(v, v.hc)
       case WaitingForEpochKeyUpdate(p) => OnTop(v, p.commit)
       case WaitingForConnectionConfirmation(p) => OnTop(v, p.commit)
  }

  /** `h` is the server's history after merging its pending commit. */
  ghost predicate Merged(v: Ideal, h: History) {
    v.pending.Some? && h == v.hs + [v.pending.value]
  }

  ghost predicate OnTop(v: Ideal, commit: Commit) {
    v.hs == v.hc || commit.base == v.hs || Merged(v, commit.base)
  }

  // ----- every ideal step keeps the phases -----

  lemma ClientUpdateKeepsPhase(v: Ideal, id: CommitId)
    requires Phase(v) && v.internal.Running? && id.origin.ClientParty?
    ensures ClientAhead(ClientUpdate(v, id)) && Phase(ClientUpdate(v, id))
  {
  }

  lemma ServerUpdateKeepsPhase(v: Ideal, requested: bool, id: CommitId)
    requires Phase(v) && v.pending.None?
    ensures Phase(ServerUpdate(v, requested, id))
  {
    var v' := ServerUpdate(v, requested, id);
    if Agreed(v) {
      assert Agreed(v');
    } else if ClientAhead(v) {
      assert ClientAhead(v');
    } else {
      var k: nat :| ConfirmedAt(v, k);
      assert v'.down[..k] == v.down[..k];
      assert v.down[k + 1..] == [];
      assert v'.down[k + 1..] == [v'.down[|v.down|]];
      assert ConfirmedAt(v', k);
    }
  }

  lemma ClientTakeKeepsPhase(v: Ideal, id: CommitId)
    requires Phase(v) && v.down != [] && id.origin.ClientParty?
    ensures Phase(ClientTake(v, id))
  {
    var v' := ClientTake(v, id);
    if Agreed(v) {
      assert Phase(v') by { if v.down[0].requested { assert ClientReplied(v'); } else { assert ClientAccepted(v'); } }
    } else if Confirmed(v) {
      var k: nat :| ConfirmedAt(v, k);
      if k == 0 {
        assert Agreed(v');
      } else {
        assert v.down[..k][0] == v.down[0];
        assert v'.down[..k - 1] == v.down[1..k];
        assert v'.down[k..] == v.down[k + 1..];
        assert ConfirmedAt(v', k - 1);
      }
    } else {
      assert ClientAhead(v) && ClientAhead(v');
    }
  }

  lemma ServerTakeKeepsPhase(v: Ideal)
    requires Phase(v) && v.up != []
    ensures Phase(ServerTake(v))
    ensures ServerTake(v).hs == v.hc
  {
    var v' := ServerTake(v);
    assert v'.down[..|v.down|] == v.down;
    assert ConfirmedAt(v', |v.down|);
  }

  // ----- what a phase tells -----

  /** The server's history is a prefix of the client's, at most two commits shorter. */
  lemma PhaseAgreement(v: Ideal)
    requires Phase(v)
    ensures Related(v)
    ensures v.hs <= v.hc && |v.hc| <= |v.hs| + 2
    ensures v.internal.Running? ==> v.hs == v.hc
    ensures v.up == [] ==> v.hs == v.hc
    ensures v.up == [] && v.down == [] ==> v.internal.Running? && v.pending.None?
  {
  }

  /** While anything is on its way to the server, it is behind the client. */
  lemma ServerBehind(v: Ideal)
    requires Phase(v) && v.up != []
    ensures |v.hs| < |v.hc|
  {
  }

  /** No confirmation is ever in flight while the client runs or while the server still has to act. */
  lemma NoConfirmationInFlight(v: Ideal)
    requires Phase(v) && (v.internal.Running? || v.up != [])
    ensures AllUpdates(v.down)
  {
  }
}
