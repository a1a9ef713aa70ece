/**
 Keys and sequence numbers over whole runs: when a side never sends two records under one key and one
 number. Within a connection it never does. Over lost and resumed connections the server never does;
 the client does not either unless it resumes with a commit whose key it has already sent under.
 */
module KeyUse {
  import opened Wrappers
  import opened MlsGroups
  import opened Messages
  import opened Persistence
  import opened Endpoints
  import opened Network
  import opened Rekeying
  import opened Safety
  import opened Resumption
  import opened Simulation
  import opened Theorems
  import opened Runs
  import opened Recovery

  // ----- the records a side sends -----

  function RecordsOf(r: Result<Emission, Fault>): seq<Record> {
    match r case Err(_) => [] case Ok(e) => e.records
  }

  function ClientOut(s: System, a: Action): seq<Record> {
    if !Live(s.link, a) then []
    else
      match a
      case ClientSends(d) => SendData(s.client, d).records
      case ClientUpdates(requested) => RecordsOf(StartUpdate(s.client, requested))
      case ClientProcesses => RecordsOf(ProcessHeld(s.client))
      case _ => []
  }

  function ServerOut(s: System, a: Action): seq<Record> {
    if !Live(s.link, a) then []
    else
      match a
      case ServerSends(d) => SendData(s.server, d).records
      case ServerUpdates(requested) => RecordsOf(StartUpdate(s.server, requested))
      case ServerProcesses => RecordsOf(ProcessHeld(s.server))
      case _ => []
  }

  /** These are exactly the records that an action appends to the channels. */
  lemma OutIsAppended(s: System, a: Action)
    requires Next(s, a).Ok? && !a.LinkDrops? && !a.ClientReads? && !a.ServerReads?
    ensures Next(s, a).value.toServer == s.toServer + ClientOut(s, a)
    ensures Next(s, a).value.toClient == s.toClient + ServerOut(s, a)
  {
    assert s.toServer + [] == s.toServer && s.toClient + [] == s.toClient;
  }

  function ClientLog(s: System, actions: seq<Action>): seq<Record>
    decreases |actions|
  {
    if actions == [] || Next(s, actions[0]).Err? then []
    else ClientOut(s, actions[0]) + ClientLog(Next(s, actions[0]).value, actions[1..])
  }

  function ServerLog(s: System, actions: seq<Action>): seq<Record>
    decreases |actions|
  {
    if actions == [] || Next(s, actions[0]).Err? then []
    else ServerOut(s, actions[0]) + ServerLog(Next(s, actions[0]).value, actions[1..])
  }

  /** No two records share a key and a sequence number. */
  predicate Distinct(log: seq<Record>) {
    forall i, j :: 0 <= i < j < |log| ==> log[i].key != log[j].key || log[i].seqNo != log[j].seqNo
  }

  /** The keys of the two directions are different secrets. */
  predicate FromClient(log: seq<Record>) {
    forall i :: 0 <= i < |log| ==> log[i].key.ClientSecret?
  }

  predicate FromServer(log: seq<Record>) {
    forall i :: 0 <= i < |log| ==> !log[i].key.ClientSecret?
  }

  /** An emission is at most one record, under the key and the number in force, and counts it. */
  predicate OneNext(e: Endpoint, m: Emission) {
    && (m.records == []
        || (|m.records| == 1 && m.records[0].key == e.cipher.sendKey && m.records[0].seqNo == e.cipher.sendSeq))
    && m.end.cipher.sendSeq == e.cipher.sendSeq + |m.records|
  }

  lemma EmissionsAreNext(e: Endpoint, d: Data, requested: bool)
    ensures OneNext(e, SendData(e, d))
    ensures StartUpdate(e, requested).Ok? ==> OneNext(e, StartUpdate(e, requested).value)
    ensures ProcessHeld(e).Ok? ==> OneNext(e, ProcessHeld(e).value)
  {
  }

  /** What an action on a connection that stays up does to the number and the log of the client. */
  lemma ClientOutShape(s: System, a: Action)
    requires Next(s, a).Ok? && s.link.Up? && !a.LinkDrops?
    ensures Next(s, a).value.link.Up?
    ensures
      var out := ClientOut(s, a);
      && (out == [] || (|out| == 1 && out[0].key == s.client.cipher.sendKey && out[0].seqNo == s.client.cipher.sendSeq))
      && Next(s, a).value.client.cipher.sendSeq == s.client.cipher.sendSeq + |out|
  {
    EmissionsAreNext(s.client, if a.ClientSends? then a.data else [], if a.ClientUpdates? then a.requested else false);
  }

  lemma ServerOutShape(s: System, a: Action)
    requires Next(s, a).Ok? && ServerUp(s.link) && !a.LinkDrops?
    ensures ServerUp(Next(s, a).value.link)
    ensures
      var out := ServerOut(s, a);
      && (out == [] || (|out| == 1 && out[0].key == s.server.cipher.sendKey && out[0].seqNo == s.server.cipher.sendSeq))
      && Next(s, a).value.server.cipher.sendSeq == s.server.cipher.sendSeq + |out|
  {
    EmissionsAreNext(s.server, if a.ServerSends? then a.data else [], if a.ServerUpdates? then a.requested else false);
  }

  // ----- within a connection -----

  predicate NumberedFrom(log: seq<Record>, first: nat) {
    forall i :: 0 <= i < |log| ==> log[i].seqNo == first + i
  }

  lemma NumberedJoin(out: seq<Record>, rest: seq<Record>, first: nat)
    requires NumberedFrom(out, first) && NumberedFrom(rest, first + |out|)
    ensures NumberedFrom(out + rest, first)
  {
  }

  lemma {:induction false} ClientCounts(s: System, actions: seq<Action>)
    requires s.link.Up? && NoDrop(actions)
    ensures NumberedFrom(ClientLog(s, actions), s.client.cipher.sendSeq)
    decreases |actions|
  {
    if actions != [] && Next(s, actions[0]).Ok? {
      var s' := Next(s, actions[0]).value;
      ClientOutShape(s, actions[0]);
      ClientCounts(s', actions[1..]);
      NumberedJoin(ClientOut(s, actions[0]), ClientLog(s', actions[1..]), s.client.cipher.sendSeq);
    }
  }

  lemma {:induction false} ServerCounts(s: System, actions: seq<Action>)
    requires ServerUp(s.link) && NoDrop(actions)
    ensures NumberedFrom(ServerLog(s, actions), s.server.cipher.sendSeq)
    decreases |actions|
  {
    if actions != [] && Next(s, actions[0]).Ok? {
      var s' := Next(s, actions[0]).value;
      ServerOutShape(s, actions[0]);
      ServerCounts(s', actions[1..]);
      NumberedJoin(ServerOut(s, actions[0]), ServerLog(s', actions[1..]), s.server.cipher.sendSeq);
    }
  }

  /** On one connection, over every run whatever the keys do, record `i` of a side has number `i`,
      counted from where the side started; so no number repeats. The server's connection starts when it
      answers. */
  lemma OneConnectionCounts(s: System, actions: seq<Action>)
    requires ServerUp(s.link) && NoDrop(actions)
    ensures NumberedFrom(ServerLog(s, actions), s.server.cipher.sendSeq) && Distinct(ServerLog(s, actions))
    ensures s.link.Up? ==>
              NumberedFrom(ClientLog(s, actions), s.client.cipher.sendSeq) && Distinct(ClientLog(s, actions))
  {
    ServerCounts(s, actions);
    if s.link.Up? {
      ClientCounts(s, actions);
    }
  }

  // ----- over lost and resumed connections -----

  lemma Regroup(log: seq<Record>, out: seq<Record>, rest: seq<Record>)
    ensures log + (out + rest) == log + out + rest
  {
  }

  function HistoryOf(k: Secret): History {
    match k
    case ClientSecret(_, h) => h
    case ServerSecret(_, h) => h
    case _ => []
  }

  /** The log so far repeats nothing, holds only keys of this direction that reach no further than the
      current one, and under the current key uses only numbers below `bound`. */
  predicate Fresh(log: seq<Record>, key: Secret, bound: nat) {
    && Distinct(log)
    && (forall i :: 0 <= i < |log| ==> log[i].key.ClientSecret? == key.ClientSecret?)
    && (forall i :: 0 <= i < |log| ==> |HistoryOf(log[i].key)| <= |HistoryOf(key)|)
    && (forall i :: 0 <= i < |log| && log[i].key == key ==> log[i].seqNo < bound)
  }

  lemma FreshOut(log: seq<Record>, key: Secret, n: nat, out: seq<Record>)
    requires Fresh(log, key, n)
    requires out == [] || (|out| == 1 && out[0].key == key && out[0].seqNo == n)
    ensures Fresh(log + out, key, n + |out|)
  {
  }

  lemma FreshRekey(log: seq<Record>, key: Secret, n: nat, key': Secret, n': nat)
    requires Fresh(log, key, n)
    requires key.ClientSecret? == key'.ClientSecret?
    requires
      || |HistoryOf(key)| < |HistoryOf(key')|
      || (key == key' && (n <= n' || !Used(log, key)))
    ensures Fresh(log, key', n')
  {
  }

  predicate Used(log: seq<Record>, key: Secret) {
    exists i :: 0 <= i < |log| && log[i].key == key
  }

  /** What a resumption from here would offer again is a commit whose key the client has sent under. */
  predicate OffersUsedKey(s: System, log: seq<Record>) {
    ClientWaitsForOwn(s) && !RowLags(s) && Used(log, s.client.cipher.sendKey)
  }

  /** The client resumes with a commit whose key it has sent under. */
  predicate Reoffers(s: System, a: Action, log: seq<Record>) {
    a.ClientResumes? && s.link.Down? && OffersUsedKey(s, log)
  }

  /** Nothing was sent under the key of a commit that a resumption offers. */
  ghost predicate ClientFresh(s: System, v: Ideal, log: seq<Record>) {
    Fresh(log, ClientSecret(v.groupId, v.hc),
          if v.internal.WaitingForConnectionConfirmation? then 0 else s.client.cipher.sendSeq)
  }

  ghost predicate ServerFresh(s: System, v: Ideal, log: seq<Record>) {
    Fresh(log, ServerSecret(v.groupId, v.hs), s.server.cipher.sendSeq)
  }

  /** A history that grew is the same or longer. */
  lemma SameOrLonger(h: History, h': History)
    requires h <= h'
    ensures h == h' || |h| < |h'|
  {
    if |h| == |h'| { assert h == h'[..|h|] == h'; }
  }

  lemma ClientFreshGoesOn(s: System, v: Ideal, s': System, v': Ideal, log: seq<Record>, out: seq<Record>)
    requires ClientFresh(s, v, log) && v.groupId == v'.groupId && v.hc <= v'.hc
    requires !v.internal.WaitingForConnectionConfirmation? && !v'.internal.WaitingForConnectionConfirmation?
    requires
      out == [] ||
      (|out| == 1 && out[0].key == ClientSecret(v.groupId, v.hc) && out[0].seqNo == s.client.cipher.sendSeq)
    requires s'.client.cipher.sendSeq == s.client.cipher.sendSeq + |out|
    ensures ClientFresh(s', v', log + out)
  {
    SameOrLonger(v.hc, v'.hc);
    var key, n := ClientSecret(v.groupId, v.hc), s.client.cipher.sendSeq;
    FreshOut(log, key, n, out);
    FreshRekey(log + out, key, n + |out|, ClientSecret(v.groupId, v'.hc), n + |out|);
  }

  lemma ClientFreshUp(s: System, v: Ideal, a: Action, log: seq<Record>)
    requires Connected(s, v) && Honest(a) && !a.LinkDrops? && ClientFresh(s, v, log)
    ensures Next(s, a).Ok?
    ensures ClientFresh(Next(s, a).value, NextIdeal(s, v, a), log + ClientOut(s, a))
  {
    ConnectedNext(s, v, a);
    ClientOutShape(s, a);
    IdealGrows(s, v, a);
    ConnectedKey(s, v);
    ConnectedKey(Next(s, a).value, NextIdeal(s, v, a));
    ClientFreshGoesOn(s, v, Next(s, a).value, NextIdeal(s, v, a), log, ClientOut(s, a));
  }

  lemma ConnectedKey(s: System, v: Ideal)
    requires Connected(s, v)
    ensures s.client.cipher.sendKey == ClientSecret(v.groupId, v.hc) && v.groupId == s.groupId
    ensures !v.internal.WaitingForConnectionConfirmation?
  {
  }

  /** A resumption makes a commit with a new key, or offers one whose key was not used. */
  lemma ClientFreshResume(s: System, v: Ideal, log: seq<Record>)
    requires Disconnected(s, v) && s.link.Down? && !OffersUsedKey(s, log) && ClientFresh(s, v, log)
    ensures Resumed(s).Ok? && ClientFresh(Resumed(s).value, OfferIdeal(v, FreshId(s.client)), log)
  {
    ResumeKeeps(s, v);
    LastKey(s, v);
    if !v.internal.WaitingForConnectionConfirmation? {
      var key, h := ClientSecret(v.groupId, v.hc), OfferIdeal(v, FreshId(s.client)).hc;
      FreshRekey(log, key, s.client.cipher.sendSeq, ClientSecret(v.groupId, h), 0);
    }
  }

  /** Off the connection, only resuming and the confirmation matter to the client's key and number. */
  lemma ClientUntouched(s: System, v: Ideal, a: Action)
    requires !s.link.Up? && !a.LinkDrops? && !(a.ClientResumes? && s.link.Down?)
    requires !a.ConfirmationArrives? && Next(s, a).Ok?
    ensures Next(s, a).value.client == s.client
    ensures NextIdeal(s, v, a).hc == v.hc && NextIdeal(s, v, a).groupId == v.groupId
    ensures NextIdeal(s, v, a).internal == v.internal
  {
  }

  lemma ClientFreshDown(s: System, v: Ideal, a: Action, log: seq<Record>)
    requires Disconnected(s, v) && !Reoffers(s, a, log) && ClientFresh(s, v, log) && !a.LinkDrops?
    ensures Next(s, a).Ok?
    ensures ClientFresh(Next(s, a).value, NextIdeal(s, v, a), log)
  {
    if a.ClientResumes? && s.link.Down? {
      ClientFreshResume(s, v, log);
    } else if a.ConfirmationArrives? {
      if s.link.Answered? { ConfirmationKeeps(s, v); }
    } else {
      DisconnectedNext(s, v, a);
      ClientUntouched(s, v, a);
    }
  }

  lemma ClientFreshStep(s: System, v: Ideal, a: Action, log: seq<Record>)
    requires InvAt(s, v) && Honest(a) && !Reoffers(s, a, log) && ClientFresh(s, v, log) && Next(s, a).Ok?
    ensures ClientFresh(Next(s, a).value, NextIdeal(s, v, a), log + ClientOut(s, a))
  {
    if s.link.Up? && !a.LinkDrops? {
      ClientFreshUp(s, v, a, log);
    } else {
      SilentOut(s, a);
      assert log + [] == log;
      if a.LinkDrops? {
        ClientFreshDrop(s, v, log);
      } else {
        ClientFreshDown(s, v, a, log);
      }
    }
  }

  /** Off the connection, and when it drops, the client sends nothing. */
  lemma SilentOut(s: System, a: Action)
    requires !s.link.Up? || a.LinkDrops?
    ensures ClientOut(s, a) == []
  {
  }

  lemma ClientFreshDrop(s: System, v: Ideal, log: seq<Record>)
    requires ClientFresh(s, v, log)
    ensures ClientFresh(Next(s, LinkDrops).value, NextIdeal(s, v, LinkDrops), log)
  {
  }

  ghost predicate ClientGood(s: System, log: seq<Record>) {
    exists v :: InvAt(s, v) && ClientFresh(s, v, log)
  }

  lemma ClientGoodStep(s: System, a: Action, log: seq<Record>)
    requires ClientGood(s, log) && Honest(a) && !Reoffers(s, a, log)
    ensures Next(s, a).Ok? && ClientGood(Next(s, a).value, log + ClientOut(s, a))
  {
    var v :| InvAt(s, v) && ClientFresh(s, v, log);
    NextSimulates(s, v, a);
    ClientFreshStep(s, v, a, log);
  }

  lemma ClientGoodMeans(s: System, log: seq<Record>)
    requires ClientGood(s, log)
    ensures Distinct(log) && FromClient(log)
  {
  }

  lemma {:induction false} ClientGoodRun(s: System, actions: seq<Action>, log: seq<Record>)
    requires ClientGood(s, log) && AllHonest(actions) && NeverReoffers(s, actions, log)
    ensures Distinct(log + ClientLog(s, actions)) && FromClient(log + ClientLog(s, actions))
    decreases |actions|, 1
  {
    if actions == [] {
      ClientGoodMeans(s, log);
      assert log + [] == log;
    } else {
      ClientGoodStep(s, actions[0], log);
      ClientGoodLater(s, actions, log);
    }
  }

  lemma {:induction false} ClientGoodLater(s: System, actions: seq<Action>, log: seq<Record>)
    requires actions != [] && AllHonest(actions) && NeverReoffers(s, actions, log)
    requires Next(s, actions[0]).Ok? && ClientGood(Next(s, actions[0]).value, log + ClientOut(s, actions[0]))
    ensures Distinct(log + ClientLog(s, actions)) && FromClient(log + ClientLog(s, actions))
    decreases |actions|, 0
  {
    var s', out := Next(s, actions[0]).value, ClientOut(s, actions[0]);
    ClientGoodRun(s', actions[1..], log + out);
    Regroup(log, out, ClientLog(s', actions[1..]));
  }

  /** After `log`, no step of the run is a resumption that offers a commit whose key was used. */
  predicate NeverReoffers(s: System, actions: seq<Action>, log: seq<Record>)
    decreases |actions|
  {
    actions == [] ||
    (!Reoffers(s, actions[0], log)
     && (Next(s, actions[0]).Ok? ==>
           NeverReoffers(Next(s, actions[0]).value, actions[1..], log + ClientOut(s, actions[0]))))
  }

  function EstablishedState(start: Start): Result<System, HandshakeError> {
    Establish(start.mode, start.clientDb, start.serverDb, start.profileId, start.groupId)
  }

  /** Over every honest run from a handshake on, across lost and resumed connections, the client never
      sends two records under one key and number, unless some resumption offers a commit under whose key
      the client had already sent. */
  lemma ClientNeverRepeats(start: Start, actions: seq<Action>)
    requires Fair(start) && AllHonest(actions)
    ensures EstablishedState(start).Ok?
    ensures NeverReoffers(EstablishedState(start).value, actions, [])
            ==> Distinct(ClientLog(EstablishedState(start).value, actions))
                && FromClient(ClientLog(EstablishedState(start).value, actions))
  {
    EstablishWorks(start);
    var s := EstablishedState(start).value;
    if NeverReoffers(s, actions, []) {
      var v :| InvAt(s, v);
      assert ClientFresh(s, v, []);
      ClientGoodRun(s, actions, []);
      assert [] + ClientLog(s, actions) == ClientLog(s, actions);
    }
  }

  lemma ServerFreshGoesOn(s: System, v: Ideal, s': System, v': Ideal, log: seq<Record>, out: seq<Record>)
    requires ServerFresh(s, v, log) && v.groupId == v'.groupId && v.hs <= v'.hs
    requires
      out == [] ||
      (|out| == 1 && out[0].key == ServerSecret(v.groupId, v.hs) && out[0].seqNo == s.server.cipher.sendSeq)
    requires s'.server.cipher.sendSeq == s.server.cipher.sendSeq + |out|
    ensures ServerFresh(s', v', log + out)
  {
    SameOrLonger(v.hs, v'.hs);
    var key, n := ServerSecret(v.groupId, v.hs), s.server.cipher.sendSeq;
    FreshOut(log, key, n, out);
    FreshRekey(log + out, key, n + |out|, ServerSecret(v.groupId, v'.hs), n + |out|);
  }

  lemma ServerFreshUp(s: System, v: Ideal, a: Action, log: seq<Record>)
    requires Connected(s, v) && Honest(a) && !a.LinkDrops? && ServerFresh(s, v, log)
    ensures Next(s, a).Ok?
    ensures ServerFresh(Next(s, a).value, NextIdeal(s, v, a), log + ServerOut(s, a))
  {
    ConnectedNext(s, v, a);
    ServerOutShape(s, a);
    IdealGrows(s, v, a);
    PhaseAgreement(v);
    ServerFreshGoesOn(s, v, Next(s, a).value, NextIdeal(s, v, a), log, ServerOut(s, a));
  }

  /** The server acts before the client has its confirmation. */
  lemma ServerFreshAnswered(s: System, v: Ideal, a: Action, log: seq<Record>)
    requires Disconnected(s, v) && s.link.Answered? && AtServer(a) && ServerFresh(s, v, log)
    ensures Next(s, a).Ok?
    ensures ServerFresh(Next(s, a).value, NextIdeal(s, v, a), log + ServerOut(s, a))
  {
    AnsweredNext(s, v, a);
    UpcomingServer(s, v, a);
    ServerFreshUp(Upcoming(s), v.(internal := ClientInternal.Running), a, log);
    AnsweredIdeal(s, v, a);
  }

  /** The server is already what it will be when the confirmation arrives. */
  lemma UpcomingServer(s: System, v: Ideal, a: Action)
    requires Disconnected(s, v) && s.link.Answered? && AtServer(a) && Next(s, a).Ok?
    ensures Connected(Upcoming(s), v.(internal := ClientInternal.Running))
    ensures Upcoming(s).server == s.server && ServerOut(Upcoming(s), a) == ServerOut(s, a)
    ensures Next(Upcoming(s), a).Ok? && Next(Upcoming(s), a).value.server == Next(s, a).value.server
  {
    ServerStepCommutes(s, a);
  }

  lemma ServerFreshDown(s: System, v: Ideal, a: Action, log: seq<Record>)
    requires Disconnected(s, v) && ServerFresh(s, v, log) && !a.LinkDrops? && !Live(s.link, a)
    ensures Next(s, a).Ok?
    ensures ServerFresh(Next(s, a).value, NextIdeal(s, v, a), log)
  {
    if a.OfferArrives? && s.link.Offered? {
      ServerFreshOffer(s, v, log);
    } else {
      DisconnectedNext(s, v, a);
      ServerUntouched(s, v, a);
    }
  }

  lemma ServerUntouched(s: System, v: Ideal, a: Action)
    requires !s.link.Up? && !a.LinkDrops? && !Live(s.link, a) && !(a.OfferArrives? && s.link.Offered?)
    requires Next(s, a).Ok?
    ensures Next(s, a).value.server == s.server
    ensures NextIdeal(s, v, a).hs == v.hs && NextIdeal(s, v, a).groupId == v.groupId
  {
  }

  /** A refusal leaves the server's cipher alone; an accepted offer brings a longer history. */
  lemma ServerFreshOffer(s: System, v: Ideal, log: seq<Record>)
    requires Disconnected(s, v) && s.link.Offered? && ServerFresh(s, v, log)
    ensures ServerFresh(OfferArrived(s), NextIdeal(s, v, OfferArrives), log)
  {
    if !AlreadyMerged(v) {
      AcceptedEnd(s, v);
      RelatedAgreement(v);
      SameOrLonger(v.hs, v.hc);
      var key, next := ServerSecret(v.groupId, v.hs), ServerSecret(v.groupId, v.hc);
      FreshRekey(log, key, s.server.cipher.sendSeq, next, First(s.mode));
    } else {
      OfferRefused(s, v);
    }
  }

  lemma ServerFreshStep(s: System, v: Ideal, a: Action, log: seq<Record>)
    requires InvAt(s, v) && Honest(a) && ServerFresh(s, v, log) && Next(s, a).Ok?
    ensures ServerFresh(Next(s, a).value, NextIdeal(s, v, a), log + ServerOut(s, a))
  {
    if a.LinkDrops? {
      assert log + [] == log;
    } else if s.link.Up? {
      ServerFreshUp(s, v, a, log);
    } else if Live(s.link, a) {
      ServerFreshAnswered(s, v, a, log);
    } else {
      ServerFreshDown(s, v, a, log);
      assert log + [] == log;
    }
  }

  ghost predicate ServerGood(s: System, log: seq<Record>) {
    exists v :: InvAt(s, v) && ServerFresh(s, v, log)
  }

  lemma ServerGoodStep(s: System, a: Action, log: seq<Record>)
    requires ServerGood(s, log) && Honest(a)
    ensures Next(s, a).Ok? && ServerGood(Next(s, a).value, log + ServerOut(s, a))
  {
    var v :| InvAt(s, v) && ServerFresh(s, v, log);
    NextSimulates(s, v, a);
    ServerFreshStep(s, v, a, log);
  }

  lemma ServerGoodMeans(s: System, log: seq<Record>)
    requires ServerGood(s, log)
    ensures Distinct(log) && FromServer(log)
  {
  }

  lemma {:induction false} ServerGoodRun(s: System, actions: seq<Action>, log: seq<Record>)
    requires ServerGood(s, log) && AllHonest(actions)
    ensures Distinct(log + ServerLog(s, actions)) && FromServer(log + ServerLog(s, actions))
    decreases |actions|, 1
  {
    if actions == [] {
      ServerGoodMeans(s, log);
      assert log + [] == log;
    } else {
      ServerGoodStep(s, actions[0], log);
      ServerGoodLater(s, actions, log);
    }
  }

  lemma {:induction false} ServerGoodLater(s: System, actions: seq<Action>, log: seq<Record>)
    requires actions != [] && AllHonest(actions)
    requires Next(s, actions[0]).Ok? && ServerGood(Next(s, actions[0]).value, log + ServerOut(s, actions[0]))
    ensures Distinct(log + ServerLog(s, actions)) && FromServer(log + ServerLog(s, actions))
    decreases |actions|, 0
  {
    var s', out := Next(s, actions[0]).value, ServerOut(s, actions[0]);
    ServerGoodRun(s', actions[1..], log + out);
    Regroup(log, out, ServerLog(s', actions[1..]));
  }

  /** Over every honest run, with any losses and resumptions, the server never sends two records under
      one key and number: each resumption it accepts brings it a longer history. */
  lemma ServerNeverRepeats(start: Start, actions: seq<Action>)
    requires Fair(start) && AllHonest(actions)
    ensures EstablishedState(start).Ok?
    ensures Distinct(ServerLog(EstablishedState(start).value, actions))
    ensures FromServer(ServerLog(EstablishedState(start).value, actions))
  {
    EstablishWorks(start);
    var s := EstablishedState(start).value;
    var v :| InvAt(s, v);
    assert ServerFresh(s, v, []);
    ServerGoodRun(s, actions, []);
    assert [] + ServerLog(s, actions) == ServerLog(s, actions);
  }

  // ----- exactly when a resumed connection goes on under the same key -----

  lemma ResumedKeyAt(s: System, v: Ideal)
    requires InvAt(s, v) && !AlreadyMerged(v)
    ensures
      var r := Run(s, RESUMPTION);
      && r.Ok? && r.value.link.Up? && r.value.client.cipher.sendSeq == First(s.mode)
      && r.value.client.cipher.sendKey == ClientSecret(v.groupId, OfferIdeal(v, FreshId(s.client)).hc)
  {
    DropKeeps(s, v);
    ResumptionFrom(s, v);
    RunKeepsMode(s, RESUMPTION);
  }

  lemma {:induction false} RunKeepsMode(s: System, actions: seq<Action>)
    ensures Run(s, actions).Ok? ==> Run(s, actions).value.mode == s.mode
    decreases |actions|
  {
    if actions != [] && Next(s, actions[0]).Ok? {
      RunKeepsMode(Next(s, actions[0]).value, actions[1..]);
    }
  }

  /** The key the client sent under last is that of its history, or an older one if the row lags. */
  lemma LastKey(s: System, v: Ideal)
    requires InvAt(s, v)
    ensures s.client.cipher.sendKey.ClientSecret?
    ensures if RowLags(s) then |s.client.cipher.sendKey.history| < |v.hc|
            else s.client.cipher.sendKey == ClientSecret(v.groupId, v.hc)
  {
  }

  lemma ResumedKeyMeaning(s: System, v: Ideal)
    requires InvAt(s, v) && Reads(s, v)
    ensures
      ClientSecret(v.groupId, OfferIdeal(v, FreshId(s.client)).hc) == s.client.cipher.sendKey
      <==> ClientWaitsForOwn(s) && !RowLags(s)
    ensures
      !(ClientWaitsForOwn(s) && !RowLags(s)) ==>
        |HistoryOf(s.client.cipher.sendKey)| < |OfferIdeal(v, FreshId(s.client)).hc|
  {
    LastKey(s, v);
    assert |OfferIdeal(v, FreshId(s.client)).hc| == if ClientWaitsForOwn(s) then |v.hc| else |v.hc| + 1;
  }

  /** From every reachable state, connected or not, from which a resumption succeeds: it starts the
      client's numbers where a fresh connection starts them, and under the very key the client sent under
      last if and only if the client waits for a commit of its own that its row knows. */
  lemma ResumedKeyIff(s: System)
    requires Reachable(s) && !CannotResume(s)
    ensures
      var r := Run(s, RESUMPTION);
      && r.Ok? && r.value.link.Up? && r.value.client.cipher.sendSeq == First(s.mode)
      && (r.value.client.cipher.sendKey == s.client.cipher.sendKey <==> ClientWaitsForOwn(s) && !RowLags(s))
      && (r.value.client.cipher.sendKey != s.client.cipher.sendKey ==>
            |HistoryOf(s.client.cipher.sendKey)| < |HistoryOf(r.value.client.cipher.sendKey)|)
  {
    var v := ResumableAt(s);
    ResumedKeyAt(s, v);
    ResumedKeyMeaning(s, v);
  }

  lemma ResumableAt(s: System) returns (v: Ideal)
    requires Reachable(s) && !CannotResume(s)
    ensures InvAt(s, v) && Reads(s, v) && !AlreadyMerged(v)
  {
    ReachableInv(s);
    v :| InvAt(s, v);
    InvReads(s, v);
    CannotResumeMeaning(s, v);
  }

  lemma {:induction false} RunJoin(s: System, first: seq<Action>, then_: seq<Action>)
    requires Run(s, first).Ok?
    ensures Run(s, first + then_) == Run(Run(s, first).value, then_)
    decreases |first|
  {
    if first == [] {
      assert first + then_ == then_;
    } else {
      assert (first + then_)[1..] == first[1..] + then_;
      RunJoin(Next(s, first[0]).value, first[1..], then_);
    }
  }

  lemma {:induction false} ClientLogJoin(s: System, first: seq<Action>, then_: seq<Action>)
    requires Run(s, first).Ok?
    ensures ClientLog(s, first + then_) == ClientLog(s, first) + ClientLog(Run(s, first).value, then_)
    ensures Run(s, first + then_) == Run(Run(s, first).value, then_)
    decreases |first|
  {
    RunJoin(s, first, then_);
    if first == [] {
      assert first + then_ == then_;
    } else {
      var s' := Next(s, first[0]).value;
      assert (first + then_)[1..] == first[1..] + then_;
      ClientLogJoin(s', first[1..], then_);
      Regroup(ClientOut(s, first[0]), ClientLog(s', first[1..]), ClientLog(Run(s, first).value, then_));
    }
  }

  /** One message sent: one record, under the key and number in force. */
  lemma OneSend(s: System, d: Data)
    requires s.link.Up?
    ensures
      var r := Run(s, [ClientSends(d)]);
      && ClientLog(s, [ClientSends(d)]) == [Record(s.client.cipher.sendKey, s.client.cipher.sendSeq, Application(d))]
      && r.Ok? && r.value.link.Up? && r.value.client.hs == s.client.hs
      && r.value.client.cipher == s.client.cipher.(sendSeq := s.client.cipher.sendSeq + 1)
  {
    assert [ClientSends(d)][1..] == [];
    assert ClientLog(s, [ClientSends(d)]) == SendData(s.client, d).records + [];
  }

  lemma RepeatsSomewhere(a: seq<Record>, x: Record, b: seq<Record>, y: Record, z: Record)
    requires x.key == z.key && x.seqNo == z.seqNo
    ensures !Distinct(a + ([x] + (b + ([y] + [z]))))
  {
    var log := a + ([x] + (b + ([y] + [z])));
    assert log[|a|] == x && log[|log| - 1] == z;
  }

  /** Three stretches of a run, one after the other. */
  lemma JoinThree(s: System, a: seq<Action>, b: seq<Action>, c: seq<Action>, s1: System, s2: System)
    requires Run(s, a) == Ok(s1) && Run(s1, b) == Ok(s2)
    ensures Run(s, a + (b + c)) == Run(s2, c)
    ensures ClientLog(s, a + (b + c)) == ClientLog(s, a) + (ClientLog(s1, b) + ClientLog(s2, c))
  {
    ClientLogJoin(s, a, b + c);
    ClientLogJoin(s1, b, c);
  }

  lemma TwoSends(t: System, y: Data, z: Data)
    requires t.link.Up?
    ensures Run(t, [ClientSends(y)] + [ClientSends(z)]).Ok?
    ensures
      var key, n := t.client.cipher.sendKey, t.client.cipher.sendSeq;
      ClientLog(t, [ClientSends(y)] + [ClientSends(z)])
      == [Record(key, n, Application(y))] + [Record(key, n + 1, Application(z))]
  {
    OneSend(t, y);
    var t' := Run(t, [ClientSends(y)]).value;
    OneSend(t', z);
    ClientLogJoin(t, [ClientSends(y)], [ClientSends(z)]);
  }

  lemma AfterOneAction(s: System, v: Ideal, a: Action)
    requires Connected(s, v) && Honest(a) && !a.LinkDrops?
    ensures Run(s, [a]).Ok? && Connected(Run(s, [a]).value, NextIdeal(s, v, a)) && Run(s, [a]).value.mode == s.mode
    ensures ClientLog(s, [a]) == ClientOut(s, a)
  {
    ConnectedNext(s, v, a);
    assert [a][1..] == [];
    assert Run(s, [a]) == Next(s, a);
    RunKeepsMode(s, [a]);
    assert ClientLog(s, [a]) == ClientOut(s, a) + [];
  }

  lemma RunningUpdateSends(s: System, v: Ideal)
    requires Connected(s, v) && v.internal.Running?
    ensures Next(s, ClientUpdates(false)).Ok?
    ensures |ClientOut(s, ClientUpdates(false))| == 1
  {
    PhaseAgreement(v);
    ClientUpdatesEnd(s.client, v);
  }

  /** From a connection on which the client waits for its own update and has numbered one record. */
  lemma RepeatsAfterUpdate(s1: System, v1: Ideal, x: Data, y: Data, z: Data) returns (b: seq<Record>)
    requires Connected(s1, v1) && v1.internal.WaitingForEpochKeyUpdate? && v1.hs != v1.hc
    requires s1.client.cipher.sendSeq == First(s1.mode) + 1
    ensures
      var run := [ClientSends(x)] + (RESUMPTION + ([ClientSends(y)] + [ClientSends(z)]));
      var key, n := s1.client.cipher.sendKey, First(s1.mode);
      && Run(s1, run).Ok?
      && ClientLog(s1, run) == [Record(key, n + 1, Application(x))]
                               + (b + ([Record(key, n, Application(y))] + [Record(key, n + 1, Application(z))]))
  {
    var s2, t := SendThenResume(s1, v1, x);
    b := ClientLog(s2, RESUMPTION);
    var key, n := s1.client.cipher.sendKey, First(s1.mode);
    TwoSends(t, y, z);
    LogOfThree(s1, [ClientSends(x)], RESUMPTION, [ClientSends(y)] + [ClientSends(z)], s2, t,
               [Record(key, n + 1, Application(x))],
               [Record(key, n, Application(y))] + [Record(key, n + 1, Application(z))]);
  }

  lemma LogOfThree(s: System, a: seq<Action>, b: seq<Action>, c: seq<Action>, s1: System, s2: System,
                   sentFirst: seq<Record>, sentLast: seq<Record>)
    requires Run(s, a) == Ok(s1) && Run(s1, b) == Ok(s2) && Run(s2, c).Ok?
    requires ClientLog(s, a) == sentFirst && ClientLog(s2, c) == sentLast
    ensures Run(s, a + (b + c)).Ok?
    ensures ClientLog(s, a + (b + c)) == sentFirst + (ClientLog(s1, b) + sentLast)
  {
    JoinThree(s, a, b, c, s1, s2);
  }

  lemma SendThenResume(s1: System, v1: Ideal, x: Data) returns (s2: System, t: System)
    requires Connected(s1, v1) && v1.internal.WaitingForEpochKeyUpdate? && v1.hs != v1.hc
    ensures Run(s1, [ClientSends(x)]) == Ok(s2) && Run(s2, RESUMPTION) == Ok(t) && t.link.Up?
    ensures
      var key := s1.client.cipher.sendKey;
      && t.client.cipher.sendKey == key && t.client.cipher.sendSeq == First(s1.mode)
      && ClientLog(s1, [ClientSends(x)]) == [Record(key, s1.client.cipher.sendSeq, Application(x))]
  {
    OneSend(s1, x);
    AfterOneAction(s1, v1, ClientSends(x));
    s2 := Run(s1, [ClientSends(x)]).value;
    t := ResumedAgain(s2, v1);
  }

  /** Resuming with the commit in force brings back the key in force. */
  lemma ResumedAgain(s: System, v: Ideal) returns (t: System)
    requires Connected(s, v) && v.internal.WaitingForEpochKeyUpdate? && v.hs != v.hc
    ensures Run(s, RESUMPTION) == Ok(t) && t.link.Up?
    ensures t.client.cipher.sendKey == s.client.cipher.sendKey && t.client.cipher.sendSeq == First(s.mode)
  {
    ResumedKeyAt(s, v);
    ConnectedKey(s, v);
    t := Run(s, RESUMPTION).value;
  }

  lemma AfterFirstUpdate(s: System, v: Ideal) returns (s1: System, v1: Ideal)
    requires Connected(s, v) && v.internal.Running? && s.client.cipher.sendSeq == First(s.mode)
    ensures Run(s, [ClientUpdates(false)]) == Ok(s1)
    ensures Connected(s1, v1) && v1.internal.WaitingForEpochKeyUpdate? && v1.hs != v1.hc
    ensures s1.mode == s.mode && s1.client.cipher.sendSeq == First(s.mode) + 1
  {
    RunningUpdateSends(s, v);
    ClientOutShape(s, ClientUpdates(false));
    AfterOneAction(s, v, ClientUpdates(false));
    assert [ClientUpdates(false)][1..] == [];
    s1, v1 := Next(s, ClientUpdates(false)).value, NextIdeal(s, v, ClientUpdates(false));
    PhaseAgreement(v);
    assert |v1.hc| == |v1.hs| + 1;
  }

  lemma EstablishedRunning(start: Start) returns (s: System, v: Ideal)
    requires Fair(start)
    ensures EstablishedState(start) == Ok(s) && Connected(s, v) && v.internal.Running?
    ensures s.mode == start.mode && s.client.cipher.sendSeq == First(s.mode)
  {
    EstablishWorks(start);
    s := EstablishedState(start).value;
    v :| InvAt(s, v);
  }

  /** The concrete case, from every start: a client that updates, sends `x`, loses the connection, resumes
      and sends `y` and `z` sends `z` under the key and number of `x`. */
  lemma RepeatedAfterReoffer(start: Start, x: Data, y: Data, z: Data)
    requires Fair(start)
    ensures EstablishedState(start).Ok?
    ensures
      var run := [ClientUpdates(false)]
                 + ([ClientSends(x)] + (RESUMPTION + ([ClientSends(y)] + [ClientSends(z)])));
      && Run(EstablishedState(start).value, run).Ok?
      && !Distinct(ClientLog(EstablishedState(start).value, run))
  {
    var s, v := EstablishedRunning(start);
    RepeatsFromRunning(s, v, x, y, z);
  }

  lemma RepeatsFromRunning(s: System, v: Ideal, x: Data, y: Data, z: Data)
    requires Connected(s, v) && v.internal.Running? && s.client.cipher.sendSeq == First(s.mode)
    ensures
      var run := [ClientUpdates(false)]
                 + ([ClientSends(x)] + (RESUMPTION + ([ClientSends(y)] + [ClientSends(z)])));
      Run(s, run).Ok? && !Distinct(ClientLog(s, run))
  {
    var s1, v1 := AfterFirstUpdate(s, v);
    var b := RepeatsAfterUpdate(s1, v1, x, y, z);
    var rest := [ClientSends(x)] + (RESUMPTION + ([ClientSends(y)] + [ClientSends(z)]));
    ClientLogJoin(s, [ClientUpdates(false)], rest);
    var key, n := s1.client.cipher.sendKey, First(s1.mode);
    RepeatsSomewhere(ClientLog(s, [ClientUpdates(false)]), Record(key, n + 1, Application(x)), b,
                     Record(key, n, Application(y)), Record(key, n + 1, Application(z)));
  }
}
