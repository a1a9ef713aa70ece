/** Resuming from the stored row instead of the client's memory, as after a restart: exactly when it
    succeeds. */
module RowRecovery {
  import opened Wrappers
  import opened MlsGroups
  import opened Persistence
  import opened Endpoints
  import opened Network
  import opened Rekeying
  import opened Refinement
  import opened Safety
  import opened Resumption
  import opened Simulation
  import opened Theorems
  import opened Recovery

  /** The connection is lost and the client starts again from its row. */
  function Reloaded(s: System): System {
    var d := Dropped(s);
    if Row(s).Some? then d.(client := d.client.(hs := ClientSide(Row(s).value))) else d
  }

  const RESUME_ONLY := [ClientResumes, OfferArrives, ConfirmationArrives]

  lemma RunThree(s: System, s1: System)
    requires Next(s, ClientResumes) == Ok(s1)
    ensures Run(s, RESUME_ONLY) == Run(s1, [OfferArrives, ConfirmationArrives])
  {
    assert RESUME_ONLY[1..] == [OfferArrives, ConfirmationArrives];
  }

  // ----- a row that does not lag is as good as the memory -----

  lemma ReloadedInStep(s: System, v: Ideal)
    requires InvAt(s, v) && !RowLags(s)
    ensures Row(s).Some?
    ensures
      var v' := v.(internal := Row(s).value.internal);
      Disconnected(Reloaded(s), v') && (AlreadyMerged(v') <==> AlreadyMerged(v))
  {
    DropKeeps(s, v);
  }

  lemma ResumeInStep(s: System, v: Ideal)
    requires Disconnected(s, v) && s.link.Down?
    requires AlreadyMerged(v) ==> v.internal.WaitingForEpochKeyUpdate?
    requires Row(s).Some? && s.client.hs.ClientSide? && Row(s).value == s.client.hs.client
    ensures
      var r := Run(s, RESUME_ONLY);
      r.Ok? && (if AlreadyMerged(v) then
                  && r.value.link.Down? && !RowLags(r.value)
                  && Disconnected(r.value, OfferIdeal(v, FreshId(s.client)).(pending := None))
                else FreshConnection(r.value) && r.value.groupId == v.groupId
                     && ClientHistory(r.value) == OfferIdeal(v, FreshId(s.client)).hc)
  {
    ResumeAfterDrop(s, v);
    var s1 := Next(s, ClientResumes).value;
    RunThree(s, s1);
    OfferAfterResume(s1, OfferIdeal(v, FreshId(s.client)));
  }

  // ----- a row that lags makes a second commit on top of the first -----

  /** The client's stored group and the commit it offers on top of that group. */
  ghost predicate OffersOnTop(s1: System, h: History, id: CommitId) {
    var commit := Commit(s1.groupId, h, id);
    var secrets := Export(s1.groupId, commit.Applied());
    && s1.link == Offered(commit, secrets) && s1.client.hs.ClientSide?
    && s1.client.hs.client.session == MlsSession(s1.groupId, |h| + 1)
    && s1.client.hs.client.internal == WaitingForConnectionConfirmation(PendingUpdate(commit, secrets))
    && s1.groupId in s1.client.db.groups && s1.client.db.groups[s1.groupId] == Group(commit.Applied(), None)
  }

  /** The client after it resumed from a lagging row. */
  lemma LaggingOffer(s: System, v: Ideal) returns (s1: System)
    requires InvAt(s, v) && RowLags(s)
    ensures Next(Reloaded(s), ClientResumes) == Ok(s1)
    ensures s1.groupId == v.groupId && OffersOnTop(s1, v.hc, FreshId(s.client))
    ensures s1.server == Dropped(s).server && s1.toServer == [] && s1.toClient == []
    ensures Row(s1) == Row(s) && RowIsOwn(s1) && HasRow(s1.client.hs.client, s1.client.db)
    ensures !s1.client.isServer && s1.server.isServer
  {
    var row := Row(s).value;
    CommitAndMerge(row.session, s.client.db.groups, v.hc, FreshId(s.client));
    s1 := Resumed(Reloaded(s)).value;
  }

  /** The server accepts the second commit exactly if it had merged the first. Otherwise it refuses, and
      its pending commit is not only dropped: at the next epoch the test merges it. */
  lemma SecondCommit(groups: Groups, v: Ideal, id: CommitId, serial: nat)
    requires GroupShows(groups, v) && Related(v) && Accounted(v, serial) && v.internal.WaitingForConnectionConfirmation?
    ensures
      var p := ProcessMlsUpdate(groups, Commit(v.groupId, v.hc, id), true);
      && (p.result.Ok? <==> v.hs == v.hc)
      && (v.hs != v.hc ==> p.groups == groups[v.groupId := Group(HistoryAfterRefusal(v), None)]
                           && !(v.hc <= HistoryAfterRefusal(v))
                           && (HistoryAfterRefusal(v) <= v.hc <==> !MergesOwn(v)))
  {
    var p := v.internal.pending;
    assert v.hc == p.commit.base + [p.commit.id];
    assert v.pending.Some? ==> (v.hs + [v.pending.value])[|v.hs|] == v.pending.value;
    RelatedAgreement(v);
  }

  /** The refused commit is at the next epoch of a server that has a commit of its own. */
  ghost predicate MergesOwn(v: Ideal) {
    v.pending.Some? && |v.hc| == |v.hs| + 1
  }

  ghost function HistoryAfterRefusal(v: Ideal): History {
    if MergesOwn(v) then v.hs + [v.pending.value] else v.hs
  }

  lemma TwoSteps(s1: System)
    ensures Run(s1, [OfferArrives, ConfirmationArrives]) == ConfirmationArrived(OfferArrived(s1))
  {
    var s2 := OfferArrived(s1);
    assert [OfferArrives, ConfirmationArrives][1..] == [ConfirmationArrives];
    assert Run(s1, [OfferArrives, ConfirmationArrives]) == Run(s2, [ConfirmationArrives]);
    assert Run(s2, [ConfirmationArrives]) == Next(s2, ConfirmationArrives);
  }

  /** The ideal state once the second commit is merged by both. */
  ghost function SecondIdeal(v: Ideal, id: CommitId): Ideal {
    var h := v.hc + [id];
    var offer := PendingUpdate(Commit(v.groupId, v.hc, id), Export(v.groupId, h));
    Ideal(v.groupId, h, WaitingForConnectionConfirmation(offer), h, None, [], [])
  }

  lemma LaggingAccepted(s1: System, v: Ideal, id: CommitId)
    requires OffersOnTop(s1, v.hc, id) && s1.groupId == v.groupId && s1.toClient == [] && s1.toServer == []
    requires !s1.client.isServer && s1.server.isServer && HasRow(s1.client.hs.client, s1.client.db)
    requires GroupShows(s1.server.db.groups, v) && v.hs == v.hc
    requires Accounted(v, s1.server.serial) && id.origin.ClientParty?
    ensures
      var r := Run(s1, [OfferArrives, ConfirmationArrives]);
      && r.Ok? && FreshConnection(r.value) && r.value.groupId == v.groupId && ClientHistory(r.value) == v.hc + [id]
      && Connected(r.value, SecondIdeal(v, id).(internal := ClientInternal.Running))
  {
    ProcessOnServer(s1.server.db.groups, v, Commit(v.groupId, v.hc, id));
    var secrets := Export(v.groupId, v.hc + [id]);
    HellosArrive(s1.mode, secrets, secrets);
    TwoSteps(s1);
    AcceptedConnects(OfferArrived(s1), SecondIdeal(v, id));
  }

  lemma LaggingRefused(s1: System, v: Ideal, serial: nat, id: CommitId)
    requires OffersOnTop(s1, v.hc, id) && s1.groupId == v.groupId && RowIsOwn(s1)
    requires !WaitsForOwn(Row(s1).value)
    requires GroupShows(s1.server.db.groups, v) && Related(v) && Accounted(v, serial)
    requires v.internal.WaitingForConnectionConfirmation? && v.hs != v.hc
    ensures
      var r := Run(s1, [OfferArrives, ConfirmationArrives]);
      && r.Ok? && Stranded(r.value)
      && ClientHistory(r.value) == v.hc + [id] && ServerHistory(r.value) == HistoryAfterRefusal(v)
  {
    SecondCommit(s1.server.db.groups, v, id, serial);
    TwoSteps(s1);
    assert (v.hc + [id])[..|v.hc|] == v.hc;
  }

  lemma ResumeLagging(s: System, v: Ideal)
    requires InvAt(s, v) && RowLags(s)
    ensures
      var r := Run(Reloaded(s), RESUME_ONLY);
      && r.Ok?
      && if v.hs == v.hc then
           && FreshConnection(r.value) && r.value.groupId == v.groupId
           && ClientHistory(r.value) == v.hc + [FreshId(s.client)]
           && Connected(r.value, SecondIdeal(v, FreshId(s.client)).(internal := ClientInternal.Running))
         else && Stranded(r.value) && ClientHistory(r.value) == v.hc + [FreshId(s.client)]
              && ServerHistory(r.value) == HistoryAfterRefusal(v)
  {
    var s1 := LaggingOffer(s, v);
    RunThree(Reloaded(s), s1);
    if v.hs == v.hc {
      LaggingAccepted(s1, v, FreshId(s.client));
    } else {
      LaggingRefused(s1, v, s.server.serial, FreshId(s.client));
    }
  }

  /** A connection that a restart brought up is like any other. */
  lemma RestartKeepsInv(s: System, v: Ideal)
    requires InvAt(s, v)
    ensures
      var r := Run(Reloaded(s), RESUME_ONLY);
      && r.Ok?
      && (r.value.link.Up? ==>
            && Inv(r.value) && FreshConnection(r.value) && r.value.groupId == v.groupId
            && ClientHistory(r.value)
               == v.hc + (if ClientWaitsForOwn(s) && !RowLags(s) then [] else [FreshId(s.client)]))
  {
    if RowLags(s) {
      RestartLagging(s, v);
    } else {
      InvReads(s, v);
      RestartInStep(s, v);
    }
  }

  lemma DisconnectedInv(s: System, v: Ideal)
    requires Disconnected(s, v)
    ensures Inv(s)
  {
    assert InvAt(s, v);
  }

  lemma RestartLagging(s: System, v: Ideal)
    requires InvAt(s, v) && RowLags(s)
    ensures
      var r := Run(Reloaded(s), RESUME_ONLY);
      && r.Ok?
      && (r.value.link.Up? ==>
            && Inv(r.value) && FreshConnection(r.value) && r.value.groupId == v.groupId
            && ClientHistory(r.value) == v.hc + [FreshId(s.client)])
  {
    ResumeLagging(s, v);
    var t := Run(Reloaded(s), RESUME_ONLY).value;
    if t.link.Up? {
      ConnectedInv(t, SecondIdeal(v, FreshId(s.client)).(internal := ClientInternal.Running));
    }
  }

  lemma ConnectedInv(s: System, v: Ideal)
    requires Connected(s, v)
    ensures Inv(s)
  {
    assert InvAt(s, v);
  }

  lemma RestartInStep(s: System, v: Ideal)
    requires InvAt(s, v) && Reads(s, v) && !RowLags(s)
    ensures
      var r := Run(Reloaded(s), RESUME_ONLY);
      && r.Ok?
      && (r.value.link.Up? ==>
            && Inv(r.value) && FreshConnection(r.value) && r.value.groupId == v.groupId
            && ClientHistory(r.value) == v.hc + (if ClientWaitsForOwn(s) then [] else [FreshId(s.client)]))
  {
    RestartInStepInv(s, v);
    RestartInStepEnds(s, v);
  }

  lemma RestartInStepInv(s: System, v: Ideal)
    requires InvAt(s, v) && !RowLags(s)
    ensures Run(Reloaded(s), RESUME_ONLY).Ok? && Inv(Run(Reloaded(s), RESUME_ONLY).value)
  {
    ReloadedInStep(s, v);
    DisconnectedInv(Reloaded(s), v.(internal := Row(s).value.internal));
    RunKeepsInv(Reloaded(s), RESUME_ONLY);
  }

  lemma RestartInStepEnds(s: System, v: Ideal)
    requires InvAt(s, v) && Reads(s, v) && !RowLags(s)
    ensures
      var r := Run(Reloaded(s), RESUME_ONLY);
      && r.Ok?
      && (r.value.link.Up? ==>
            && FreshConnection(r.value) && r.value.groupId == v.groupId
            && ClientHistory(r.value) == v.hc + (if ClientWaitsForOwn(s) then [] else [FreshId(s.client)]))
  {
    ReloadedInStep(s, v);
    ResumeInStep(Reloaded(s), v.(internal := Row(s).value.internal));
  }

  /** Exactly when a restart succeeds, by the ideal state. */
  lemma RestartSucceedsIff(s: System, v: Ideal)
    requires InvAt(s, v)
    ensures
      var r := Run(Reloaded(s), RESUME_ONLY);
      r.Ok? && (r.value.link.Up? <==> if RowLags(s) then v.hs == v.hc else !AlreadyMerged(v))
  {
    if RowLags(s) {
      ResumeLagging(s, v);
    } else {
      ReloadedInStep(s, v);
      ResumeInStep(Reloaded(s), v.(internal := Row(s).value.internal));
    }
  }

  /** From any reachable state: lose the connection, start again from the stored row, and resume. If the
      row is in step, this succeeds exactly when resuming from memory does. If it lags, because an earlier
      resumption made a commit it did not store, this succeeds exactly when the server has merged that
      commit, which is exactly when resuming from memory fails. */
  lemma ResumptionFromRowIff(s: System)
    requires Reachable(s)
    ensures
      var r := Run(Reloaded(s), RESUME_ONLY);
      && r.Ok?
      && (r.value.link.Up? <==>
          if RowLags(s) then |ClientHistory(s)| == |ServerHistory(s)| else !CannotResume(s))
      && (r.value.link.Up? ==> FreshConnection(r.value) && Inv(r.value))
  {
    ReachableInv(s);
    var v :| InvAt(s, v);
    InvReads(s, v);
    CannotResumeMeaning(s, v);
    RelatedAgreement(v);
    RestartKeepsInv(s, v);
    RestartSucceedsIff(s, v);
  }

  // ----- after a refusal -----

  /** The row exists and is this client's. */
  predicate RowIsOwn(s: System) {
    && s.client.hs.ClientSide?
    && Row(s).Some? && Row(s).value.profileId == s.client.hs.client.profileId
    && Row(s).value.session.groupId == s.groupId
  }

  /** Whatever this client offers is not built on the server's history `h`: neither the commit it waits for
      nor a new one on top of its group. */
  predicate Hopeless(c: Client, groupId: GroupId, hc: History, h: History) {
    && c.session.groupId == groupId
    && (match c.internal
        case WaitingForEpochKeyUpdate(p) => p.commit.groupId == groupId && p.commit.base != h
        case WaitingForConnectionConfirmation(p) => p.commit.groupId == groupId && p.commit.base != h
        case _ => !(hc <= h))
  }

  /** Neither the client's memory nor its row will bring the connection up again. */
  predicate Stranded(s: System) {
    && (s.link.Down?
        || (s.link.Offered? && s.link.commit.groupId == s.groupId && s.link.commit.base != ServerHistory(s)))
    && RowIsOwn(s)
    && s.groupId in s.client.db.groups && s.client.db.groups[s.groupId].pending.None?
    && s.groupId in s.server.db.groups && s.server.db.groups[s.groupId].pending.None?
    && Hopeless(s.client.hs.client, s.groupId, ClientHistory(s), ServerHistory(s))
    && Hopeless(Row(s).value, s.groupId, ClientHistory(s), ServerHistory(s))
  }

  /** A further attempt: an action of the network, or starting again from the row. */
  datatype Attempt = Act(action: Action) | Restart

  function Attempted(s: System, a: Attempt): Result<System, Fault> {
    match a
    case Act(action) => Next(s, action)
    case Restart => Ok(Reloaded(s))
  }

  function AttemptedAll(s: System, attempts: seq<Attempt>): Result<System, Fault>
    decreases |attempts|
  {
    if attempts == [] then Ok(s)
    else
      match Attempted(s, attempts[0])
      case Err(f) => Err(f)
      case Ok(s') => AttemptedAll(s', attempts[1..])
  }

  lemma StrandedResumes(s: System)
    requires Stranded(s) && s.link.Down?
    ensures Resumed(s).Ok? && Stranded(Resumed(s).value)
  {
    var c := s.client.hs.client;
    if !WaitsForOwn(c) {
      var h := ClientHistory(s);
      CommitAndMerge(c.session, s.client.db.groups, h, FreshId(s.client));
      assert (h + [FreshId(s.client)])[..|h|] == h;
    }
  }

  lemma StrandedOffer(s: System)
    requires Stranded(s) && s.link.Offered?
    ensures OfferArrived(s).link.Down? && Stranded(OfferArrived(s))
  {
    var groups := s.server.db.groups;
    assert groups[s.groupId := groups[s.groupId]] == groups;
  }

  lemma StrandedStep(s: System, a: Attempt)
    requires Stranded(s)
    ensures Attempted(s, a).Ok? && Stranded(Attempted(s, a).value)
  {
    if a.Act? && a.action.ClientResumes? && s.link.Down? {
      StrandedResumes(s);
    } else if a.Act? && a.action.OfferArrives? && s.link.Offered? {
      StrandedOffer(s);
    }
  }

  lemma {:induction false} StrandedForGood(s: System, attempts: seq<Attempt>)
    requires Stranded(s)
    ensures AttemptedAll(s, attempts).Ok? && Stranded(AttemptedAll(s, attempts).value)
    decreases |attempts|
  {
    if attempts != [] {
      StrandedStep(s, attempts[0]);
      StrandedForGood(Attempted(s, attempts[0]).value, attempts[1..]);
    }
  }

  /** From any reachable state: if starting again from the row and resuming fails, it has failed for good.
      No sequence of actions and further restarts brings the connection up again. */
  lemma FailedFromRowIsFinal(s: System, attempts: seq<Attempt>)
    requires Reachable(s)
    ensures Run(Reloaded(s), RESUME_ONLY).Ok?
    ensures
      var t := Run(Reloaded(s), RESUME_ONLY).value;
      !t.link.Up? ==> AttemptedAll(t, attempts).Ok? && !AttemptedAll(t, attempts).value.link.Up?
  {
    ReachableInv(s);
    var v :| InvAt(s, v);
    if RowLags(s) {
      ResumeLagging(s, v);
    } else {
      FailedInStep(s, v);
    }
    var t := Run(Reloaded(s), RESUME_ONLY).value;
    if !t.link.Up? {
      StrandedForGood(t, attempts);
    }
  }

  lemma FailedInStep(s: System, v: Ideal)
    requires InvAt(s, v) && !RowLags(s)
    ensures
      var r := Run(Reloaded(s), RESUME_ONLY);
      r.Ok? && (r.value.link.Up? || Stranded(r.value))
  {
    ReloadedInStep(s, v);
    var v' := v.(internal := Row(s).value.internal);
    ResumeInStep(Reloaded(s), v');
    if AlreadyMerged(v') {
      MergedIsStranded(Run(Reloaded(s), RESUME_ONLY).value, OfferIdeal(v', FreshId(s.client)).(pending := None));
    }
  }

  lemma MergedIsStranded(t: System, v: Ideal)
    requires Disconnected(t, v) && t.link.Down? && AlreadyMerged(v) && v.pending.None?
    requires v.internal.WaitingForConnectionConfirmation? && !RowLags(t)
    ensures Stranded(t)
  {
    assert v.internal.pending.commit.base != v.hc;
  }

  /** A refusal of a commit made from a lagging row leaves the server off the client's history exactly if
      the server had a pending commit and was one epoch behind: it has then merged that commit. */
  lemma RefusalDivergesIff(s: System)
    requires Reachable(s) && RowLags(s) && |ClientHistory(s)| != |ServerHistory(s)|
    ensures Run(Reloaded(s), RESUME_ONLY).Ok?
    ensures
      var t := Run(Reloaded(s), RESUME_ONLY).value;
      var diverges := ServerPending(s).Some? && |ClientHistory(s)| == |ServerHistory(s)| + 1;
      && !t.link.Up?
      && (ServerHistory(t) <= ClientHistory(t) <==> !diverges)
      && ServerHistory(t) == ServerHistory(s) + (if diverges then [ServerPending(s).value] else [])
  {
    ReachableInv(s);
    var v :| InvAt(s, v);
    InvReads(s, v);
    RelatedAgreement(v);
    LaggingWaits(s, v);
    LaggingHistories(s, v);
    RefusalRead(s, v, Run(Reloaded(s), RESUME_ONLY).value);
  }

  lemma RefusalRead(s: System, v: Ideal, t: System)
    requires Reads(s, v) && v.internal.WaitingForConnectionConfirmation? && v.hs != v.hc
    requires ClientHistory(t) == v.hc + [FreshId(s.client)] && ServerHistory(t) == HistoryAfterRefusal(v)
    ensures
      var diverges := ServerPending(s).Some? && |ClientHistory(s)| == |ServerHistory(s)| + 1;
      && (ServerHistory(t) <= ClientHistory(t) <==> !diverges)
      && ServerHistory(t) == ServerHistory(s) + (if diverges then [ServerPending(s).value] else [])
  {
    RelatedAgreement(v);
    RefusalHistories(v, FreshId(s.client));
  }

  lemma LaggingWaits(s: System, v: Ideal)
    requires InvAt(s, v) && RowLags(s)
    ensures v.internal.WaitingForConnectionConfirmation?
  {
  }

  lemma LaggingHistories(s: System, v: Ideal)
    requires InvAt(s, v) && RowLags(s) && v.hs != v.hc
    ensures Run(Reloaded(s), RESUME_ONLY).Ok?
    ensures
      var t := Run(Reloaded(s), RESUME_ONLY).value;
      && !t.link.Up? && ClientHistory(t) == v.hc + [FreshId(s.client)] && ServerHistory(t) == HistoryAfterRefusal(v)
  {
    ResumeLagging(s, v);
  }

  lemma RefusalHistories(v: Ideal, id: CommitId)
    requires v.hs <= v.hc && v.hs != v.hc && Related(v) && v.internal.WaitingForConnectionConfirmation?
    requires v.pending.Some? ==> v.pending.value.origin.ServerParty?
    ensures HistoryAfterRefusal(v) <= v.hc + [id] <==> !MergesOwn(v)
  {
    var p := v.internal.pending;
    assert v.hc == p.commit.base + [p.commit.id];
    if MergesOwn(v) {
      assert (v.hc + [id])[|v.hs|] == p.commit.id;
      assert HistoryAfterRefusal(v)[|v.hs|] == v.pending.value;
    }
  }
}
