/**
 Runs in which the client may also restart: it loses its memory with the connection, starts again from
 its stored row and resumes. Nothing faults and nothing repeats in these runs either.
 */
module Restarts {
  import opened Wrappers
  import opened KeyLabels
  import opened TrafficKeys
  import opened MlsGroups
  import opened Endpoints
  import opened Network
  import opened Rekeying
  import opened Safety
  import opened Simulation
  import opened Theorems
  import opened Recovery
  import opened RowRecovery
  import opened KeyUse
  import opened Repetition

  datatype Step = Act(action: Action) | RestartAndResume

  function Stepped(s: System, step: Step): Result<System, Fault> {
    match step
    case Act(a) => Next(s, a)
    case RestartAndResume => Run(Reloaded(s), RESUME_ONLY)
  }

  function Journey(s: System, steps: seq<Step>): Result<System, Fault>
    decreases |steps|
  {
    if steps == [] then Ok(s)
    else
      match Stepped(s, steps[0])
      case Err(f) => Err(f)
      case Ok(s') => Journey(s', steps[1..])
  }

  /** Actions are honest, and a restart is made only where it brings the connection up;
      `ResumptionFromRowIff` says where that is, and after one that does not nothing more is ever sent. */
  predicate Proper(s: System, steps: seq<Step>)
    decreases |steps|
  {
    steps == [] ||
    (match Stepped(s, steps[0])
     case Err(_) => (match steps[0] case Act(a) => Honest(a) case RestartAndResume => false)
     case Ok(s') =>
       && (match steps[0] case Act(a) => Honest(a) case RestartAndResume => s'.link.Up?)
       && Proper(s', steps[1..]))
  }

  /** No step, after what `log` holds, offers a commit under whose key the client has sent. */
  predicate NeverOffersUsed(s: System, steps: seq<Step>, log: seq<Record>)
    decreases |steps|
  {
    steps == [] ||
    (&& (match steps[0]
         case Act(a) => !Reoffers(s, a, log)
         case RestartAndResume => !OffersUsedKey(s, log))
     && match Stepped(s, steps[0])
        case Err(_) => true
        case Ok(s') => NeverOffersUsed(s', steps[1..], log + ClientStepOut(s, steps[0])))
  }

  function ClientStepOut(s: System, step: Step): seq<Record> {
    match step case Act(a) => ClientOut(s, a) case RestartAndResume => []
  }

  function ServerStepOut(s: System, step: Step): seq<Record> {
    match step case Act(a) => ServerOut(s, a) case RestartAndResume => []
  }

  function ClientJourneyLog(s: System, steps: seq<Step>): seq<Record>
    decreases |steps|
  {
    if steps == [] || Stepped(s, steps[0]).Err? then []
    else ClientStepOut(s, steps[0]) + ClientJourneyLog(Stepped(s, steps[0]).value, steps[1..])
  }

  function ServerJourneyLog(s: System, steps: seq<Step>): seq<Record>
    decreases |steps|
  {
    if steps == [] || Stepped(s, steps[0]).Err? then []
    else ServerStepOut(s, steps[0]) + ServerJourneyLog(Stepped(s, steps[0]).value, steps[1..])
  }

  // ----- one restart -----

  /** A fresh connection with its ideal state. */
  lemma FreshAt(t: System) returns (v: Ideal)
    requires Inv(t) && FreshConnection(t)
    ensures InvAt(t, v) && v.hc == ClientHistory(t) && v.hs == ClientHistory(t)
    ensures v.internal.Running? && v.groupId == t.groupId
    ensures t.client.cipher.sendSeq == t.server.cipher.sendSeq == First(t.mode)
  {
    v :| InvAt(t, v);
    InvReads(t, v);
    ConnectedKey(t, v);
  }

  lemma RestartKeepsClient(s: System, log: seq<Record>)
    requires ClientGood(s, log) && !OffersUsedKey(s, log)
    ensures
      var r := Run(Reloaded(s), RESUME_ONLY);
      r.Ok? && (r.value.link.Up? ==> ClientGood(r.value, log))
  {
    var v :| InvAt(s, v) && ClientFresh(s, v, log);
    RestartKeepsInv(s, v);
    var t := Run(Reloaded(s), RESUME_ONLY).value;
    if t.link.Up? {
      LastKey(s, v);
      var v' := FreshAt(t);
      ClientFreshRestart(s, v, t, v', log);
    }
  }

  lemma ClientFreshRestart(s: System, v: Ideal, t: System, v': Ideal, log: seq<Record>)
    requires ClientFresh(s, v, log) && !OffersUsedKey(s, log)
    requires !RowLags(s) ==> s.client.cipher.sendKey == ClientSecret(v.groupId, v.hc)
    requires v'.internal.Running? && v'.groupId == v.groupId
    requires v'.hc == v.hc + (if ClientWaitsForOwn(s) && !RowLags(s) then [] else [FreshId(s.client)])
    ensures ClientFresh(t, v', log)
  {
    var bound := if v.internal.WaitingForConnectionConfirmation? then 0 else s.client.cipher.sendSeq;
    FreshRekey(log, ClientSecret(v.groupId, v.hc), bound, ClientSecret(v.groupId, v'.hc), t.client.cipher.sendSeq);
  }

  lemma RestartKeepsServer(s: System, log: seq<Record>)
    requires ServerGood(s, log)
    ensures
      var r := Run(Reloaded(s), RESUME_ONLY);
      r.Ok? && (r.value.link.Up? ==> ServerGood(r.value, log))
  {
    var v :| InvAt(s, v) && ServerFresh(s, v, log);
    RestartKeepsInv(s, v);
    var t := Run(Reloaded(s), RESUME_ONLY).value;
    if t.link.Up? {
      ServerGetsLonger(s, v);
      var v' := FreshAt(t);
      FreshRekey(log, ServerSecret(v.groupId, v.hs), s.server.cipher.sendSeq,
                 ServerSecret(v.groupId, v'.hs), t.server.cipher.sendSeq);
    }
  }

  /** A restart that succeeds brings the server a commit it did not have. */
  lemma ServerGetsLonger(s: System, v: Ideal)
    requires InvAt(s, v)
    ensures
      var r := Run(Reloaded(s), RESUME_ONLY);
      r.Ok? && (r.value.link.Up? ==> |v.hs| < |ClientHistory(r.value)|)
  {
    RestartKeepsInv(s, v);
    InvReads(s, v);
    RelatedAgreement(v);
    if ClientWaitsForOwn(s) && !RowLags(s) {
      CannotResumeMeaning(s, v);
      RestartSucceedsIff(s, v);
    }
  }

  // ----- journeys -----

  lemma StepKeepsClient(s: System, step: Step, log: seq<Record>)
    requires ClientGood(s, log) && Proper(s, [step]) && NeverOffersUsed(s, [step], log)
    ensures Stepped(s, step).Ok? && ClientGood(Stepped(s, step).value, log + ClientStepOut(s, step))
  {
    match step
    case Act(a) => ClientGoodStep(s, a, log);
    case RestartAndResume =>
      RestartKeepsClient(s, log);
      assert log + [] == log;
  }

  lemma StepKeepsServer(s: System, step: Step, log: seq<Record>)
    requires ServerGood(s, log) && Proper(s, [step])
    ensures Stepped(s, step).Ok? && ServerGood(Stepped(s, step).value, log + ServerStepOut(s, step))
  {
    match step
    case Act(a) => ServerGoodStep(s, a, log);
    case RestartAndResume =>
      RestartKeepsServer(s, log);
      assert log + [] == log;
  }

  lemma {:induction false} ClientJourney(s: System, steps: seq<Step>, log: seq<Record>)
    requires ClientGood(s, log) && Proper(s, steps) && NeverOffersUsed(s, steps, log)
    ensures Distinct(log + ClientJourneyLog(s, steps)) && FromClient(log + ClientJourneyLog(s, steps))
    decreases |steps|
  {
    if steps == [] {
      ClientGoodMeans(s, log);
      assert log + [] == log;
    } else {
      StepKeepsClient(s, steps[0], log);
      var s', out := Stepped(s, steps[0]).value, ClientStepOut(s, steps[0]);
      ClientJourney(s', steps[1..], log + out);
      Regroup(log, out, ClientJourneyLog(s', steps[1..]));
    }
  }

  lemma {:induction false} ServerJourney(s: System, steps: seq<Step>, log: seq<Record>)
    requires ServerGood(s, log) && Proper(s, steps)
    ensures Distinct(log + ServerJourneyLog(s, steps)) && FromServer(log + ServerJourneyLog(s, steps))
    ensures Journey(s, steps).Ok? && Inv(Journey(s, steps).value)
    decreases |steps|
  {
    if steps == [] {
      ServerGoodMeans(s, log);
      assert log + [] == log;
      var v :| InvAt(s, v) && ServerFresh(s, v, log);
    } else {
      StepKeepsServer(s, steps[0], log);
      var s', out := Stepped(s, steps[0]).value, ServerStepOut(s, steps[0]);
      ServerJourney(s', steps[1..], log + out);
      Regroup(log, out, ServerJourneyLog(s', steps[1..]));
    }
  }

  /** Over every run from a handshake on in which the client may also restart and resume from its row:
      nothing faults and the invariant holds at the end; the server never repeats a key and number; and
      the client does not either unless it offers a commit under whose key it has sent. */
  lemma JourneysNeverRepeat(start: Start, steps: seq<Step>)
    requires Fair(start)
    ensures EstablishedState(start).Ok?
    ensures
      var s := EstablishedState(start).value;
      Proper(s, steps) ==>
        && Journey(s, steps).Ok? && Inv(Journey(s, steps).value)
        && Distinct(ServerJourneyLog(s, steps)) && FromServer(ServerJourneyLog(s, steps))
        && (NeverOffersUsed(s, steps, []) ==>
              Distinct(ClientJourneyLog(s, steps)) && FromClient(ClientJourneyLog(s, steps)))
  {
    var s := FreshLogs(start);
    if Proper(s, steps) {
      ServerJourney(s, steps, []);
      assert [] + ServerJourneyLog(s, steps) == ServerJourneyLog(s, steps);
      if NeverOffersUsed(s, steps, []) {
        ClientJourney(s, steps, []);
        assert [] + ClientJourneyLog(s, steps) == ClientJourneyLog(s, steps);
      }
    }
  }

  lemma FreshLogs(start: Start) returns (s: System)
    requires Fair(start)
    ensures EstablishedState(start) == Ok(s) && ClientGood(s, []) && ServerGood(s, [])
  {
    EstablishWorks(start);
    s := EstablishedState(start).value;
    var v :| InvAt(s, v);
    assert ClientFresh(s, v, []) && ServerFresh(s, v, []);
  }

  /** The same for the records of both sides together, as key bytes and nonces. */
  lemma JourneyNoncesNeverRepeat(start: Start, steps: seq<Step>, c: Crypto, bytesOf: SecretBytes)
    requires Fair(start) && Sensible(c)
    ensures EstablishedState(start).Ok?
    ensures
      var s := EstablishedState(start).value;
      var log := ClientJourneyLog(s, steps) + ServerJourneyLog(s, steps);
      Proper(s, steps) && NeverOffersUsed(s, steps, []) && In64Bits(log) && KeysApart(c, bytesOf, log)
      ==> NoncesApart(c, bytesOf, log)
  {
    JourneysNeverRepeat(start, steps);
    var s := EstablishedState(start).value;
    var log := ClientJourneyLog(s, steps) + ServerJourneyLog(s, steps);
    if Proper(s, steps) && NeverOffersUsed(s, steps, []) && In64Bits(log) && KeysApart(c, bytesOf, log) {
      DistinctMeansApart(c, bytesOf, log);
    }
  }
}
