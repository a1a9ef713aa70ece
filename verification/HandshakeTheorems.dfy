/** What the handshake object does is what the network does with it, and what becomes of its failures. */
module HandshakeTheorems {
  import opened Wrappers
  import opened MlsGroups
  import opened Messages
  import opened Persistence
  import opened Endpoints
  import opened Network
  import opened Rekeying
  import opened Refinement
  import opened Safety
  import opened Resumption
  import opened Simulation
  import opened Theorems
  import opened HelloWindow
  import opened MlsHandshakes

  /** From every reachable state with an offer on its way: the server's handshake on that offer leaves the
      server that the network has afterwards. If it accepts, its answer is the confirmation of the epoch the
      server is then at, its secrets are those of the server's history, and the client that processes the
      answer runs on that history under the same secrets; if it refuses, there is no connection. */
  lemma OfferIsServerHandshake(s: System)
    requires Reachable(s) && s.link.Offered?
    ensures
      var d := ServerHandshakeOf(NoHandshake, s.server.db, Resumption(s.link.commit), true);
      var t := OfferArrived(s);
      && d.db == t.server.db
      && if d.result.Ok? then
           && t.link.Answered? && t.server.hs == d.hs
           && d.result.value == (Export(s.groupId, ServerHistory(t)),
                                 Some(ConnectionConfirmation(|ServerHistory(t)|)))
           && d.result.value.1 == Some(t.link.confirmation)
           && t.server.cipher == StartCipher(s.mode, d.result.value.0, true)
           && ConfirmationArrived(t).Ok?
           && var u := ConfirmationArrived(t).value;
           && u.link.Up? && ClientRuns(u) && ClientHistory(u) == ServerHistory(t)
           && u.client.cipher == StartCipher(s.mode, d.result.value.0, false)
         else
           d.hs == NoHandshake && t.link.Down? && d.result == Err(ConnectionUpdateError)
  {
    ReachableInv(s);
    var v :| InvAt(s, v);
    if AlreadyMerged(v) {
      RefusedHandshake(s, v);
    } else {
      AcceptedHandshake(s, v);
    }
  }

  lemma RefusedHandshake(s: System, v: Ideal)
    requires Disconnected(s, v) && s.link.Offered? && AlreadyMerged(v)
    ensures
      var d := ServerHandshakeOf(NoHandshake, s.server.db, Resumption(s.link.commit), true);
      var t := OfferArrived(s);
      && d.db == t.server.db && d.hs == NoHandshake
      && d.result == Err(ConnectionUpdateError) && t.link.Down?
  {
    RefuseOld(s.server.db.groups, v, s.link.commit);
  }

  lemma AcceptedHandshake(s: System, v: Ideal)
    requires Disconnected(s, v) && s.link.Offered? && !AlreadyMerged(v)
    ensures
      var d := ServerHandshakeOf(NoHandshake, s.server.db, Resumption(s.link.commit), true);
      var t := OfferArrived(s);
      && d.db == t.server.db && t.link.Answered? && t.server.hs == d.hs
      && d.result == Ok((Export(s.groupId, ServerHistory(t)), Some(ConnectionConfirmation(|ServerHistory(t)|))))
      && t.link.confirmation == ConnectionConfirmation(|ServerHistory(t)|)
      && t.server.cipher == StartCipher(s.mode, Export(s.groupId, ServerHistory(t)), true)
      && ConfirmationArrived(t).Ok?
      && var u := ConfirmationArrived(t).value;
      && u.link.Up? && ClientRuns(u) && ClientHistory(u) == ServerHistory(t)
      && u.client.cipher == StartCipher(s.mode, Export(s.groupId, ServerHistory(t)), false)
  {
    AcceptedEnd(s, v);
    OfferAccepted(s, v);
    var t := OfferArrived(s);
    ConfirmationKeeps(t, AcceptedIdeal(v));
    AcceptedReads(t, AcceptedIdeal(v));
    ProcessOnServer(s.server.db.groups, v, s.link.commit);
  }

  lemma AcceptedReads(t: System, v: Ideal)
    requires Disconnected(t, v) && t.link.Answered?
    ensures ServerHistory(t) == v.hc && v.groupId == t.groupId
    ensures
      ConfirmationArrived(t).Ok? &&
      ClientRuns(ConfirmationArrived(t).value) && ClientHistory(ConfirmationArrived(t).value) == v.hc
  {
    PhaseAgreement(v.(internal := ClientInternal.Running));
  }

  /** The same for a hello: the server's handshake leaves the server of `Greeted` and `Establish`, with the
      secrets the client takes up, and keeps every other group. */
  lemma HelloIsServerHandshake(start: Start, hs: Handshake)
    requires Fair(start)
    ensures
      var d := ServerHandshakeOf(hs, start.serverDb, ClientHello(start.groupId, FOUNDING), true);
      var r := Establish(start.mode, start.clientDb, start.serverDb, start.profileId, start.groupId);
      && r.Ok? && Greeted(start).Ok?
      && d.hs == r.value.server.hs == Greeted(start).value.server.hs
      && d.db == r.value.server.db == Greeted(start).value.server.db
      && d.result == Ok((Export(start.groupId, ServerHistory(r.value)), None))
      && r.value.server.cipher == StartCipher(start.mode, d.result.value.0, true)
      && r.value.client.cipher == StartCipher(start.mode, d.result.value.0, false)
      && (forall g :: g in start.serverDb.groups && g != start.groupId ==>
                        g in d.db.groups && d.db.groups[g] == start.serverDb.groups[g])
      && d.db.rows == start.serverDb.rows
  {
    EstablishWorks(start);
    GreetedThenRead(start);
    var secrets := Export(start.groupId, [FOUNDING]);
    HellosArrive(start.mode, secrets, secrets);
  }

  /** What fails at the server: nothing readable changes nothing. An answer that does not leave changes the
      result alone, so handshake and storage are those of the answer that did. */
  lemma ServerHandshakeFailures(hs: Handshake, db: Database, first: FirstMessage)
    ensures
      first.Unreadable? ==>
        forall leaves :: ServerHandshakeOf(hs, db, first, leaves) == Dispatched(hs, db, Err(first.error))
    ensures
      var sent, lost := ServerHandshakeOf(hs, db, first, true), ServerHandshakeOf(hs, db, first, false);
      && lost.hs == sent.hs && lost.db == sent.db
      && lost.result == Err(if sent.result.Ok? then TransportError else sent.result.error)
      && (sent.result.Err? ==> sent.hs == hs)
  {
  }
}
