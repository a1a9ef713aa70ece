/** The driver's calls are runs of the network, so everything proved about runs holds for them; and
    what the update policy counts over any sequence of sends. */
module DriverTheorems {
  import opened Wrappers
  import opened Words
  import opened MlsGroups
  import opened Messages
  import opened Persistence
  import opened Endpoints
  import opened Network
  import opened Channels
  import opened Simulation
  import opened UpdatePolicies
  import opened Driver

  // ----- reading -----

  function Rounds(n: nat, reading: Action, processing: Action): seq<Action> {
    if n == 0 then [] else [reading, processing] + Rounds(n - 1, reading, processing)
  }

  lemma RunRound(s: System, reading: Action, processing: Action, n: nat)
    requires n > 0 && Next(s, reading).Ok? && Next(Next(s, reading).value, processing).Ok?
    ensures Run(s, Rounds(n, reading, processing))
         == Run(Next(Next(s, reading).value, processing).value, Rounds(n - 1, reading, processing))
  {
    var rest := Rounds(n - 1, reading, processing);
    assert ([reading, processing] + rest)[1..] == [processing] + rest;
    assert ([processing] + rest)[1..] == rest;
  }

  /** The system after the client's read loop ended in `r`. */
  function AfterClientRead(s: System, r: Reading): System {
    s.(client := r.end, toClient := r.inbox, toServer := r.outbox)
  }

  /** What the read loop returns: the oldest application data in flight, if there is any. */
  function FirstData(q: seq<Plaintext>): Option<Data> {
    if Datas(q) == [] then None else Some(Datas(q)[0])
  }

  lemma ReadLoopStep(e: Endpoint, inbox: seq<Record>, outbox: seq<Record>, e1: Endpoint, m: Emission)
    requires inbox != [] && Read(e, inbox[0]) == Ok(e1) && ProcessHeld(e1) == Ok(m)
    ensures ReadLoop(e, inbox, outbox)
         == if inbox[0].payload.Application?
            then Reading(m.end, inbox[1..], outbox + m.records, Ok(Some(inbox[0].payload.data)))
            else ReadLoop(m.end, inbox[1..], outbox + m.records)
  {
  }

  /** No honest continuation faults. */
  ghost predicate Safe(s: System) {
    forall actions :: AllHonest(actions) ==> Run(s, actions).Ok?
  }

  lemma SafeNext(s: System, a: Action)
    requires Safe(s) && Honest(a)
    ensures Next(s, a).Ok? && Safe(Next(s, a).value)
  {
    assert [a][1..] == [];
    assert Run(s, [a]).Ok?;
    var s' := Next(s, a).value;
    forall actions | AllHonest(actions) ensures Run(s', actions).Ok? {
      assert ([a] + actions)[1..] == actions;
      assert AllHonest([a] + actions);
      assert Run(s, [a] + actions) == Run(s', actions);
    }
  }

  lemma ReachableIsSafe(s: System)
    requires Reachable(s)
    ensures Safe(s)
  {
    ReachableInv(s);
    forall actions | AllHonest(actions) ensures Run(s, actions).Ok? {
      RunKeepsInv(s, actions);
    }
  }

  lemma SafeRound(s: System, reading: Action, processing: Action) returns (s1: System, s': System)
    requires Safe(s) && Honest(reading) && Honest(processing)
    ensures Next(s, reading) == Ok(s1) && Next(s1, processing) == Ok(s') && Safe(s')
  {
    SafeNext(s, reading);
    s1 := Next(s, reading).value;
    SafeNext(s1, processing);
    s' := Next(s1, processing).value;
  }

  /** One turn of the client's loop is a read and a processing step of the network. */
  lemma ClientTurn(s: System, s1: System, s': System)
    requires s.link.Up? && s.client.held.None? && s.toClient != []
    requires Next(s, ClientReads) == Ok(s1) && Next(s1, ClientProcesses) == Ok(s')
    ensures s'.link.Up? && s'.client.held.None? && s'.toClient == s.toClient[1..]
    ensures s'.server == s.server && s'.groupId == s.groupId
    ensures
      var loop := ReadLoop(s.client, s.toClient, s.toServer);
      if s.toClient[0].payload.Application?
      then loop == Reading(s'.client, s'.toClient, s'.toServer, Ok(Some(s.toClient[0].payload.data)))
      else loop == ReadLoop(s'.client, s'.toClient, s'.toServer)
  {
    ReadLoopStep(s.client, s.toClient, s.toServer, s1.client, ProcessHeld(s1.client).value);
  }

  lemma ClientReadBytesData(s: System, s1: System, s': System)
    requires s.link.Up? && s.client.held.None? && s.toClient != [] && s.toClient[0].payload.Application?
    requires Next(s, ClientReads) == Ok(s1) && Next(s1, ClientProcesses) == Ok(s')
    ensures
      var r := ReadLoop(s.client, s.toClient, s.toServer);
      && Run(s, Rounds(1, ClientReads, ClientProcesses)) == Ok(AfterClientRead(s, r))
      && r.result == Ok(FirstData(Payloads(s.toClient)))
  {
    ClientTurn(s, s1, s');
    RunRound(s, ClientReads, ClientProcesses, 1);
    assert Payloads(s.toClient)[0] == s.toClient[0].payload;
  }

  lemma ClientReadBytesSignal(s: System, s1: System, s': System, k: nat)
    requires s.link.Up? && s.client.held.None? && s.toClient != [] && s.toClient[0].payload.Signaling?
    requires Next(s, ClientReads) == Ok(s1) && Next(s1, ClientProcesses) == Ok(s')
    requires
      var r := ReadLoop(s'.client, s'.toClient, s'.toServer);
      && Run(s', Rounds(k, ClientReads, ClientProcesses)) == Ok(AfterClientRead(s', r))
      && r.result == Ok(FirstData(Payloads(s'.toClient)))
    ensures
      var r := ReadLoop(s.client, s.toClient, s.toServer);
      && Run(s, Rounds(k + 1, ClientReads, ClientProcesses)) == Ok(AfterClientRead(s, r))
      && r.result == Ok(FirstData(Payloads(s.toClient)))
  {
    ClientTurn(s, s1, s');
    RunRound(s, ClientReads, ClientProcesses, k + 1);
    assert Payloads(s.toClient)[0] == s.toClient[0].payload;
    assert Payloads(s.toClient)[1..] == Payloads(s'.toClient);
  }

  /** `read_bytes` at the client: in every state whose honest continuations do not fault
      (`ReachableIsSafe`) it succeeds, equals a number of read-and-process rounds of the network, and
      returns the oldest data in flight; signaling never surfaces. */
  lemma {:induction false} ClientReadBytes(s: System) returns (n: nat)
    requires Safe(s) && s.link.Up? && s.client.held.None?
    ensures
      var r := ReadLoop(s.client, s.toClient, s.toServer);
      && Run(s, Rounds(n, ClientReads, ClientProcesses)) == Ok(AfterClientRead(s, r))
      && r.result == Ok(FirstData(Payloads(s.toClient)))
    decreases |s.toClient|
  {
    if s.toClient == [] {
      n := 0;
    } else {
      var s1, s' := SafeRound(s, ClientReads, ClientProcesses);
      if s.toClient[0].payload.Application? {
        n := 1;
        ClientReadBytesData(s, s1, s');
      } else {
        ClientTurn(s, s1, s');
        var k := ClientReadBytes(s');
        n := k + 1;
        ClientReadBytesSignal(s, s1, s', k);
      }
    }
  }

  function AfterServerRead(s: System, r: Reading): System {
    s.(server := r.end, toServer := r.inbox, toClient := r.outbox)
  }

  /** One turn of the server's loop is a read and a processing step of the network. */
  lemma ServerTurn(s: System, s1: System, s': System)
    requires s.link.Up? && s.server.held.None? && s.toServer != []
    requires Next(s, ServerReads) == Ok(s1) && Next(s1, ServerProcesses) == Ok(s')
    ensures s'.link.Up? && s'.server.held.None? && s'.toServer == s.toServer[1..]
    ensures s'.client == s.client && s'.groupId == s.groupId
    ensures
      var loop := ReadLoop(s.server, s.toServer, s.toClient);
      if s.toServer[0].payload.Application?
      then loop == Reading(s'.server, s'.toServer, s'.toClient, Ok(Some(s.toServer[0].payload.data)))
      else loop == ReadLoop(s'.server, s'.toServer, s'.toClient)
  {
    ReadLoopStep(s.server, s.toServer, s.toClient, s1.server, ProcessHeld(s1.server).value);
  }

  lemma ServerReadBytesData(s: System, s1: System, s': System)
    requires s.link.Up? && s.server.held.None? && s.toServer != [] && s.toServer[0].payload.Application?
    requires Next(s, ServerReads) == Ok(s1) && Next(s1, ServerProcesses) == Ok(s')
    ensures
      var r := ReadLoop(s.server, s.toServer, s.toClient);
      && Run(s, Rounds(1, ServerReads, ServerProcesses)) == Ok(AfterServerRead(s, r))
      && r.result == Ok(FirstData(Payloads(s.toServer)))
  {
    ServerTurn(s, s1, s');
    RunRound(s, ServerReads, ServerProcesses, 1);
    assert Payloads(s.toServer)[0] == s.toServer[0].payload;
  }

  lemma ServerReadBytesSignal(s: System, s1: System, s': System, k: nat)
    requires s.link.Up? && s.server.held.None? && s.toServer != [] && s.toServer[0].payload.Signaling?
    requires Next(s, ServerReads) == Ok(s1) && Next(s1, ServerProcesses) == Ok(s')
    requires
      var r := ReadLoop(s'.server, s'.toServer, s'.toClient);
      && Run(s', Rounds(k, ServerReads, ServerProcesses)) == Ok(AfterServerRead(s', r))
      && r.result == Ok(FirstData(Payloads(s'.toServer)))
    ensures
      var r := ReadLoop(s.server, s.toServer, s.toClient);
      && Run(s, Rounds(k + 1, ServerReads, ServerProcesses)) == Ok(AfterServerRead(s, r))
      && r.result == Ok(FirstData(Payloads(s.toServer)))
  {
    ServerTurn(s, s1, s');
    RunRound(s, ServerReads, ServerProcesses, k + 1);
    assert Payloads(s.toServer)[0] == s.toServer[0].payload;
    assert Payloads(s.toServer)[1..] == Payloads(s'.toServer);
  }

  /** `read_bytes` at the server, likewise. */
  lemma {:induction false} ServerReadBytes(s: System) returns (n: nat)
    requires Safe(s) && s.link.Up? && s.server.held.None?
    ensures
      var r := ReadLoop(s.server, s.toServer, s.toClient);
      && Run(s, Rounds(n, ServerReads, ServerProcesses)) == Ok(AfterServerRead(s, r))
      && r.result == Ok(FirstData(Payloads(s.toServer)))
    decreases |s.toServer|
  {
    if s.toServer == [] {
      n := 0;
    } else {
      var s1, s' := SafeRound(s, ServerReads, ServerProcesses);
      if s.toServer[0].payload.Application? {
        n := 1;
        ServerReadBytesData(s, s1, s');
      } else {
        ServerTurn(s, s1, s');
        var k := ServerReadBytes(s');
        n := k + 1;
        ServerReadBytesSignal(s, s1, s', k);
      }
    }
  }

  // ----- what fails while reading -----

  /** The numbers a send uses up. */
  function Used(d: Delivery): nat {
    if d.Refused? then 0 else 1
  }

  /** Processing, in every case: a refused message or an answer that does not leave is an error after which
      no key has changed, although the handshake may have moved on; an answer that leaves does so under the
      key and number from before, and only then do the keys change. */
  lemma ProcessOutcome(e: Endpoint, d: Delivery)
    requires e.held.Some? && e.held.value.Signaling?
    ensures
      var o := Process(e, d);
      var p := ProcessSignalingMessage(e.hs, e.db, e.held.value.signal, FreshId(e));
      && o.end.hs == p.hs && o.end.db == p.db && o.end.held == None
      && o.end.got == e.got && o.end.sent == e.sent && o.end.cipher.recvSeq == e.cipher.recvSeq
      && match p.result
         case Err(error) => o.result == Err(HandshakeFailed(error)) && o.records == [] && o.end.cipher == e.cipher
         case Ok((update, response)) =>
           if response.Some? && !d.Delivered? then
             && o.result == Err(TransportFailed) && o.records == []
             && o.end.cipher == e.cipher.(sendSeq := e.cipher.sendSeq + Used(d))
           else
             && o.result == Ok(None)
             && o.records == (match response
                              case None => []
                              case Some(m) => [Record(e.cipher.sendKey, e.cipher.sendSeq, Signaling(m))])
             && o.end.cipher.sendSeq == e.cipher.sendSeq + |o.records|
             && (update.None? ==> o.end.cipher.sendKey == e.cipher.sendKey && o.end.cipher.recvKey == e.cipher.recvKey)
  {
  }

  /** A record that does not open ends the loop at once: it is gone, nothing else has changed, and the
      number is still there for the next. */
  lemma ReadLoopStops(e: Endpoint, inbox: seq<Record>, outbox: seq<Record>, fate: nat -> Delivery)
    requires inbox != []
    requires inbox[0].key != e.cipher.recvKey || inbox[0].seqNo != e.cipher.recvSeq
    ensures ReadLoopOver(e, inbox, outbox, fate) == Reading(e, inbox[1..], outbox, Err(DecryptionFailed))
  {
  }

  // ----- sending -----

  /** The driver's update is the network's: being asked to wait changes nothing. */
  lemma DueUpdateIsStart(e: Endpoint, p: Policy, now: int)
    requires Due(p, now) && StartUpdate(e, false).Ok?
    ensures
      var u := UpdateIfDue(e, p, now);
      u.result == None && StartUpdate(e, false) == Ok(Emission(u.end, u.records))
  {
  }

  /** An update and a send, one after the other. */
  lemma ThenSend(e: Endpoint, p: Policy, data: Data, now: int)
    requires UpdateIfDue(e, p, now).result == None
    ensures
      var u := UpdateIfDue(e, p, now);
      var o := SendWithUpdate(e, p, data, now);
      var sent := SendData(u.end, data);
      o.result == None && o.end == sent.end && o.records == u.records + sent.records
  {
  }

  /** `send_bytes` at the client, whatever the policy: it succeeds in every such state, and
      equals an update, if one is due, followed by a send. */
  lemma ClientSendBytes(s: System, p: Policy, data: Data, now: int)
    requires Safe(s) && s.link.Up?
    ensures
      var o := SendWithUpdate(s.client, p, data, now);
      && o.result == None
      && Run(s, (if Due(p, now) then [ClientUpdates(false)] else []) + [ClientSends(data)])
         == Ok(ClientEmits(s, Emission(o.end, o.records)))
  {
    var last := [ClientSends(data)];
    assert last[1..] == [];
    if Due(p, now) {
      SafeNext(s, ClientUpdates(false));
      ClientUpdateThenSend(s, p, data, now);
    } else {
      assert [] + last == last;
      assert [] + SendData(s.client, data).records == SendData(s.client, data).records;
    }
  }

  lemma ClientUpdateThenSend(s: System, p: Policy, data: Data, now: int)
    requires s.link.Up? && Due(p, now) && Next(s, ClientUpdates(false)).Ok?
    ensures
      var o := SendWithUpdate(s.client, p, data, now);
      && o.result == None
      && Run(s, [ClientUpdates(false)] + [ClientSends(data)]) == Ok(ClientEmits(s, Emission(o.end, o.records)))
  {
    var last := [ClientSends(data)];
    assert last[1..] == [];
    var u := UpdateIfDue(s.client, p, now);
    DueUpdateIsStart(s.client, p, now);
    ThenSend(s.client, p, data, now);
    var s1 := ClientEmits(s, Emission(u.end, u.records));
    assert ([ClientUpdates(false)] + last)[1..] == last;
    assert Run(s1, last) == Next(s1, ClientSends(data));
    var sent := SendData(u.end, data);
    assert s.toServer + u.records + sent.records == s.toServer + (u.records + sent.records);
  }

  /** `send_bytes` at the server, likewise, and also before the client has its confirmation. */
  lemma ServerSendBytes(s: System, p: Policy, data: Data, now: int)
    requires Safe(s) && ServerUp(s.link)
    ensures
      var o := SendWithUpdate(s.server, p, data, now);
      && o.result == None
      && Run(s, (if Due(p, now) then [ServerUpdates(false)] else []) + [ServerSends(data)])
         == Ok(ServerEmits(s, Emission(o.end, o.records)))
  {
    var last := [ServerSends(data)];
    assert last[1..] == [];
    if Due(p, now) {
      SafeNext(s, ServerUpdates(false));
      ServerUpdateThenSend(s, p, data, now);
    } else {
      assert [] + last == last;
      assert [] + SendData(s.server, data).records == SendData(s.server, data).records;
    }
  }

  lemma ServerUpdateThenSend(s: System, p: Policy, data: Data, now: int)
    requires ServerUp(s.link) && Due(p, now) && Next(s, ServerUpdates(false)).Ok?
    ensures
      var o := SendWithUpdate(s.server, p, data, now);
      && o.result == None
      && Run(s, [ServerUpdates(false)] + [ServerSends(data)]) == Ok(ServerEmits(s, Emission(o.end, o.records)))
  {
    var last := [ServerSends(data)];
    assert last[1..] == [];
    var u := UpdateIfDue(s.server, p, now);
    DueUpdateIsStart(s.server, p, now);
    ThenSend(s.server, p, data, now);
    var s1 := ServerEmits(s, Emission(u.end, u.records));
    assert ([ServerUpdates(false)] + last)[1..] == last;
    assert Run(s1, last) == Next(s1, ServerSends(data));
    var sent := SendData(u.end, data);
    assert s.toClient + u.records + sent.records == s.toClient + (u.records + sent.records);
  }

  // ----- the update policy -----

  /** The handshake refuses to update because it waits for the peer. */
  predicate Waiting(hs: Handshake) {
    match hs
    case NoHandshake => false
    case ClientSide(c) => !c.internal.Running?
    case ServerSide(s) => s.internal.WaitingForUpdate?
  }

  /** The interval since the last update has passed, or the threshold is reached. */
  predicate Reached(p: Policy, now: int) {
    || (p.time.Some? && now - p.time.value.lastUpdate >= p.time.value.duration)
    || (p.traffic.Some? && p.traffic.value.bytes >= p.traffic.value.threshold)
  }

  /** The handshake cannot make a commit: there is none, or its group is gone or already has one pending. */
  predicate CannotCommit(hs: Handshake, db: Database) {
    match hs
    case NoHandshake => true
    case ClientSide(c) => BlockedGroup(db.groups, c.session.groupId)
    case ServerSide(s) => BlockedGroup(db.groups, s.session.groupId)
  }

  predicate BlockedGroup(groups: Groups, groupId: GroupId) {
    groupId !in groups || groups[groupId].pending.Some?
  }

  /** A call that finds a limit reached does one of four things; the handshake decides, and then the
      transport: wait and send; fail without sending; make an update that does not leave, which fails the
      call before its message; or update, start both limits afresh and send. A message that does not leave
      fails the call too, but is counted. */
  lemma SendWhenReached(e: Endpoint, p: Policy, data: Data, now: int, first: Delivery, second: Delivery)
    requires Reached(p, now)
    ensures
      var o := SendOver(e, p, data, now, first, second);
      var sent := if second.Delivered? then 1 else 0;
      if Waiting(e.hs) then
        && o.result == (if second.Delivered? then None else Some(TransportFailed))
        && |o.records| == sent && o.policy == AfterCount(p, |data|)
        && o.end.hs == e.hs && o.end.db == e.db && o.end.cipher.sendSeq == e.cipher.sendSeq + Used(second)
      else if CannotCommit(e.hs, e.db) then
        o.result.Some? && o.records == [] && o.policy == p
      else if !first.Delivered? then
        && o.result == Some(TransportFailed) && o.records == [] && o.policy == p
        && o.end.serial == e.serial + 1 && o.end.cipher.sendSeq == e.cipher.sendSeq + Used(first)
        && o.end.cipher.sendKey == e.cipher.sendKey && o.end.cipher.recvKey == e.cipher.recvKey
      else
        && o.result == (if second.Delivered? then None else Some(TransportFailed))
        && |o.records| == 1 + sent && o.records[0].payload.Signaling?
        && o.records[0].key == e.cipher.sendKey && o.records[0].seqNo == e.cipher.sendSeq
        && o.end.cipher.sendSeq == e.cipher.sendSeq + 1 + Used(second)
        && (second.Delivered? ==> o.records[1].payload == Application(data))
        && (p.traffic.Some? ==> o.policy.traffic == Some(TrafficPolicy(p.traffic.value.threshold, |data| % U64)))
        && (p.time.Some? ==> o.policy.time == Some(TimePolicy(p.time.value.duration, now)))
  {
  }

  /** Below both limits a call only sends and counts. */
  lemma SendWhenNotReached(e: Endpoint, p: Policy, data: Data, now: int, first: Delivery, second: Delivery)
    requires !Reached(p, now)
    ensures
      var o := SendOver(e, p, data, now, first, second);
      && o.result == (if second.Delivered? then None else Some(TransportFailed))
      && (if second.Delivered? then |o.records| == 1 && o.records[0].payload == Application(data) else o.records == [])
      && o.end.hs == e.hs && o.end.db == e.db && o.policy.time == p.time
      && o.end.cipher == e.cipher.(sendSeq := e.cipher.sendSeq + Used(second))
      && (p.traffic.Some? ==>
            o.policy.traffic
            == Some(TrafficPolicy(p.traffic.value.threshold, (p.traffic.value.bytes + |data|) % U64)))
  {
  }

  /** One `send_bytes`, over a transport that may fail, in a run in which the endpoint may change in any way
      between calls. */
  datatype Attempt = Attempt(end: Endpoint, data: Data, now: int, first: Delivery, second: Delivery) {
    function Outcome(p: Policy): Sending { SendOver(end, p, data, now, first, second) }
  }

  function CallOf(p: Policy, a: Attempt): Call {
    var made := Due(p, a.now) && UpdateHandshake(a.end.hs, a.end.db, false, FreshId(a.end)).result.Ok?;
    Call(a.now, made && a.first.Delivered?, UpdateOver(a.end, p, a.now, a.first).result.Some?, |a.data|)
  }

  function PolicyAfter(p: Policy, attempts: seq<Attempt>): Policy
    decreases |attempts|
  {
    if attempts == [] then p
    else PolicyAfter(attempts[0].Outcome(p).policy, attempts[1..])
  }

  function CallsOf(p: Policy, attempts: seq<Attempt>): seq<Call>
    decreases |attempts|
  {
    if attempts == [] then []
    else
      var p' := attempts[0].Outcome(p).policy;
      [CallOf(p, attempts[0])] + CallsOf(p', attempts[1..])
  }

  lemma {:induction false} AttemptsAreCalls(p: Policy, attempts: seq<Attempt>)
    ensures PolicyAfter(p, attempts) == AfterCalls(p, CallsOf(p, attempts))
    decreases |attempts|
  {
    if attempts != [] {
      var a := attempts[0];
      var p' := a.Outcome(p).policy;
      assert p' == AfterCall(p, CallOf(p, a));
      assert CallsOf(p, attempts)[1..] == CallsOf(p', attempts[1..]);
      AttemptsAreCalls(p', attempts[1..]);
    }
  }

  /** Over any run of `send_bytes`: the traffic counter equals the bytes of the messages that calls got as far
      as sending, whether they left or not, since the last completed update, that call's own message
      included; or, as long as none was completed, what it started with and all such bytes; modulo 2^64. */
  lemma CounterOverAttempts(p: Policy, attempts: seq<Attempt>)
    requires p.traffic.Some? && p.traffic.value.bytes < U64
    ensures PolicyAfter(p, attempts).traffic.Some?
    ensures
      var calls := CallsOf(p, attempts);
      var counter := PolicyAfter(p, attempts).traffic.value.bytes;
      match LastUpdate(calls)
      case None => counter == (p.traffic.value.bytes + BytesSent(calls)) % U64
      case Some(k) => counter == BytesSent(calls[k..]) % U64
  {
    AttemptsAreCalls(p, attempts);
    UpdatesAreNotRefused(p, attempts);
    CounterSinceLastUpdate(p, CallsOf(p, attempts));
  }

  lemma {:induction false} UpdatesAreNotRefused(p: Policy, attempts: seq<Attempt>)
    ensures UpdatesSend(CallsOf(p, attempts))
    decreases |attempts|
  {
    if attempts != [] {
      UpdatesAreNotRefused(attempts[0].Outcome(p).policy, attempts[1..]);
    }
  }
}
