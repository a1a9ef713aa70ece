/**
 Exactly when a resumption can make the client repeat a key and a sequence number; and, in terms of key
 bytes and nonces, that otherwise nothing repeats on either side.
 */
module Repetition {
  import opened Wrappers
  import opened Words
  import opened Bytes
  import opened KeyLabels
  import opened Nonces
  import opened TrafficKeys
  import opened MlsGroups
  import opened Messages
  import opened Endpoints
  import opened Network
  import opened Rekeying
  import opened Safety
  import opened Simulation
  import opened Runs
  import opened Recovery
  import opened KeyUse

  // ----- keys never go back -----

  /** No record was sealed under a longer history than that of `key`. */
  predicate Within(log: seq<Record>, key: Secret) {
    forall i :: 0 <= i < |log| ==> |HistoryOf(log[i].key)| <= |HistoryOf(key)|
  }

  lemma WithinLonger(log: seq<Record>, key: Secret, key': Secret)
    requires Within(log, key) && |HistoryOf(key)| <= |HistoryOf(key')|
    ensures Within(log, key')
  {
  }

  /** An honest step leaves the client with the same key or a later one. */
  lemma KeyGrows(s: System, a: Action)
    requires Inv(s) && Honest(a)
    ensures Next(s, a).Ok? && Inv(Next(s, a).value)
    ensures |HistoryOf(s.client.cipher.sendKey)| <= |HistoryOf(Next(s, a).value.client.cipher.sendKey)|
    ensures Within(ClientOut(s, a), s.client.cipher.sendKey)
  {
    var v :| InvAt(s, v);
    NextSimulates(s, v, a);
    IdealGrows(s, v, a);
    KeyGrowsAt(s, v, a);
    OutWithin(s, a);
  }

  lemma OutWithin(s: System, a: Action)
    requires Next(s, a).Ok?
    ensures Within(ClientOut(s, a), s.client.cipher.sendKey)
  {
    if s.link.Up? && !a.LinkDrops? {
      ClientOutShape(s, a);
    }
  }

  lemma KeyGrowsAt(s: System, v: Ideal, a: Action)
    requires InvAt(s, v) && Next(s, a).Ok? && InvAt(Next(s, a).value, NextIdeal(s, v, a))
    requires v.hc <= NextIdeal(s, v, a).hc
    ensures |HistoryOf(s.client.cipher.sendKey)| <= |HistoryOf(Next(s, a).value.client.cipher.sendKey)|
  {
    CipherStays(s, a);
    LastKey(s, v);
    if Next(s, a).value.link.Up? { ConnectedKey(Next(s, a).value, NextIdeal(s, v, a)); }
  }

  /** Only on a connection, or when one comes up, does the client's cipher change. */
  lemma CipherStays(s: System, a: Action)
    requires Next(s, a).Ok?
    ensures Next(s, a).value.link.Up? || Next(s, a).value.client.cipher == s.client.cipher
    ensures Next(s, a).value.mode == s.mode
    ensures !s.link.Up? ==> Next(s, a).value.client.cipher == s.client.cipher
                            || (s.link.Answered? && Next(s, a).value.client.cipher == s.link.clientCipher)
  {
  }

  lemma {:induction false} LogWithin(s: System, actions: seq<Action>)
    requires Inv(s) && AllHonest(actions)
    ensures Run(s, actions).Ok?
    ensures Within(ClientLog(s, actions), Run(s, actions).value.client.cipher.sendKey)
    ensures |HistoryOf(s.client.cipher.sendKey)| <= |HistoryOf(Run(s, actions).value.client.cipher.sendKey)|
    decreases |actions|
  {
    if actions != [] {
      KeyGrows(s, actions[0]);
      var s' := Next(s, actions[0]).value;
      LogWithin(s', actions[1..]);
      WithinLonger(ClientOut(s, actions[0]), s.client.cipher.sendKey, Run(s, actions).value.client.cipher.sendKey);
    }
  }

  // ----- numbers never fall below the first -----

  predicate AtLeast(log: seq<Record>, first: nat) {
    forall i :: 0 <= i < |log| ==> first <= log[i].seqNo
  }

  lemma NumbersStay(s: System, a: Action)
    requires Inv(s) && Honest(a) && First(s.mode) <= s.client.cipher.sendSeq
    ensures Next(s, a).Ok? && Inv(Next(s, a).value)
    ensures Next(s, a).value.mode == s.mode && First(s.mode) <= Next(s, a).value.client.cipher.sendSeq
    ensures AtLeast(ClientOut(s, a), First(s.mode))
  {
    KeyGrows(s, a);
    if s.link.Answered? { ConfirmedNumbers(s); }
    NumbersStep(s, a);
  }

  lemma NumbersStep(s: System, a: Action)
    requires Next(s, a).Ok? && First(s.mode) <= s.client.cipher.sendSeq
    requires s.link.Answered? ==> s.link.clientCipher.sendSeq == First(s.mode)
    ensures Next(s, a).value.mode == s.mode && First(s.mode) <= Next(s, a).value.client.cipher.sendSeq
    ensures AtLeast(ClientOut(s, a), First(s.mode))
  {
    CipherStays(s, a);
    if s.link.Up? && !a.LinkDrops? { ClientOutShape(s, a); }
  }

  lemma ConfirmedNumbers(s: System)
    requires Inv(s) && s.link.Answered?
    ensures s.link.clientCipher.sendSeq == First(s.mode)
  {
    var v :| InvAt(s, v);
  }

  lemma {:induction false} LogAtLeast(s: System, actions: seq<Action>)
    requires Inv(s) && AllHonest(actions) && First(s.mode) <= s.client.cipher.sendSeq
    ensures AtLeast(ClientLog(s, actions), First(s.mode))
    decreases |actions|
  {
    if actions != [] {
      NumbersStay(s, actions[0]);
      LogAtLeast(Next(s, actions[0]).value, actions[1..]);
    }
  }

  // ----- a run of sends -----

  function Sends(data: seq<Data>): seq<Action> {
    if data == [] then [] else [ClientSends(data[0])] + Sends(data[1..])
  }

  /** Messages sent one after the other leave under one key and consecutive numbers. */
  lemma {:induction false} SendsLog(t: System, data: seq<Data>)
    requires t.link.Up?
    ensures Run(t, Sends(data)).Ok? && |ClientLog(t, Sends(data))| == |data|
    ensures NumberedFrom(ClientLog(t, Sends(data)), t.client.cipher.sendSeq)
    ensures forall r <- ClientLog(t, Sends(data)) :: r.key == t.client.cipher.sendKey
    decreases |data|
  {
    if data != [] {
      OneSend(t, data[0]);
      var t' := Run(t, [ClientSends(data[0])]).value;
      ClientLogJoin(t, [ClientSends(data[0])], Sends(data[1..]));
      SendsLog(t', data[1..]);
    }
  }

  lemma {:induction false} ResumingSendsNothing(s: System, actions: seq<Action>)
    requires forall a <- actions :: a.LinkDrops? || a.ClientResumes? || a.OfferArrives? || a.ConfirmationArrives?
    ensures ClientLog(s, actions) == []
    decreases |actions|
  {
    if actions != [] && Next(s, actions[0]).Ok? {
      assert actions[0] in actions;
      ResumingSendsNothing(Next(s, actions[0]).value, actions[1..]);
    }
  }

  // ----- exactly when a resumption leads to a repetition -----

  lemma FollowedLog(s0: System, first: seq<Action>, data: seq<Data>)
    requires Run(s0, first).Ok? && Run(Run(s0, first).value, RESUMPTION).Ok?
    ensures
      var t := Run(Run(s0, first).value, RESUMPTION).value;
      ClientLog(s0, first + (RESUMPTION + Sends(data))) == ClientLog(s0, first) + ClientLog(t, Sends(data))
  {
    var s := Run(s0, first).value;
    var t := Run(s, RESUMPTION).value;
    JoinThree(s0, first, RESUMPTION, Sends(data), s, t);
    ResumingSendsNothing(s, RESUMPTION);
    assert [] + ClientLog(t, Sends(data)) == ClientLog(t, Sends(data));
  }

  /** If the key is new, no number of sends repeats anything. */
  lemma NewKeyIsDistinct(log: seq<Record>, more: seq<Record>, key: Secret, first: nat)
    requires Distinct(log) && !Used(log, key)
    requires NumberedFrom(more, first) && forall i :: 0 <= i < |more| ==> more[i].key == key
    ensures Distinct(log + more)
  {
  }

  /** If it is not, enough sends reach a number already used. */
  lemma UsedKeyRepeats(log: seq<Record>, more: seq<Record>, key: Secret, first: nat, i: nat)
    requires i < |log| && log[i].key == key && first <= log[i].seqNo < first + |more|
    requires NumberedFrom(more, first) && forall j :: 0 <= j < |more| ==> more[j].key == key
    ensures !Distinct(log + more)
  {
    var n := log[i].seqNo - first;
    assert (log + more)[|log| + n] == more[n] && (log + more)[i] == log[i];
  }

  /** After the resumption, some sends repeat a key and number. */
  ghost predicate CanRepeat(s0: System, first: seq<Action>) {
    exists data: seq<Data> :: !Distinct(ClientLog(s0, first + (RESUMPTION + Sends(data))))
  }

  lemma RepeatsIffUsed(s0: System, first: seq<Action>, t: System)
    requires Run(s0, first).Ok? && Distinct(ClientLog(s0, first))
    requires Run(Run(s0, first).value, RESUMPTION) == Ok(t) && t.link.Up?
    requires AtLeast(ClientLog(s0, first), t.client.cipher.sendSeq)
    ensures CanRepeat(s0, first) <==> Used(ClientLog(s0, first), t.client.cipher.sendKey)
  {
    var log, key, n := ClientLog(s0, first), t.client.cipher.sendKey, t.client.cipher.sendSeq;
    if i: nat :| i < |log| && log[i].key == key {
      var data: seq<Data> := seq(log[i].seqNo + 1, _ => []);
      FollowedLog(s0, first, data);
      SendsLog(t, data);
      UsedKeyRepeats(log, ClientLog(t, Sends(data)), key, n, i);
    } else {
      assert !Used(log, key);
      forall data ensures Distinct(ClientLog(s0, first + (RESUMPTION + Sends(data)))) {
        FollowedLog(s0, first, data);
        SendsLog(t, data);
        NewKeyIsDistinct(log, ClientLog(t, Sends(data)), key, n);
      }
    }
  }

  /** After any honest run in which nothing repeated, and from which a resumption succeeds: later sends can
      repeat a key and number if and only if the client waits for a commit of its own that its row knows
      and has sent under its key. The client can tell before it resumes. */
  lemma RepetitionIff(start: Start, first: seq<Action>)
    requires Fair(start) && AllHonest(first)
    ensures EstablishedState(start).Ok? && Run(EstablishedState(start).value, first).Ok?
    ensures
      var s0 := EstablishedState(start).value;
      var s := Run(s0, first).value;
      Distinct(ClientLog(s0, first)) && !CannotResume(s) ==>
        (CanRepeat(s0, first) <==> OffersUsedKey(s, ClientLog(s0, first)))
  {
    EstablishWorks(start);
    var s0 := EstablishedState(start).value;
    LogWithin(s0, first);
    LogAtLeast(s0, first);
    RunKeepsMode(s0, first);
    var s, log := Run(s0, first).value, ClientLog(s0, first);
    if Distinct(log) && !CannotResume(s) {
      assert RunFrom(start, first) == Some(s);
      ResumedKeyIff(s);
      var t := Run(s, RESUMPTION).value;
      RepeatsIffUsed(s0, first, t);
      assert Within(log, s.client.cipher.sendKey);
    }
  }

  // ----- key bytes and nonces -----

  /** The different secrets of these records have different key bytes. */
  predicate KeysApart(c: Crypto, bytesOf: SecretBytes, log: seq<Record>) {
    forall i, j :: 0 <= i < j < |log| && KeysOf(c, bytesOf, log[i].key).key == KeysOf(c, bytesOf, log[j].key).key
                   ==> log[i].key == log[j].key
  }

  /** Every number fits 64 bits: on each connection a side has sent fewer than 2^64 records. */
  predicate In64Bits(log: seq<Record>) {
    forall i :: 0 <= i < |log| ==> log[i].seqNo < U64
  }

  ghost function NonceOf(c: Crypto, bytesOf: SecretBytes, r: Record): seq<byte>
    requires Sensible(c)
  {
    Nonce(KeysOf(c, bytesOf, r.key).iv, r.seqNo)
  }

  /** No two records are sealed with the same key bytes and the same nonce. */
  ghost predicate NoncesApart(c: Crypto, bytesOf: SecretBytes, log: seq<Record>)
    requires Sensible(c)
  {
    forall i, j :: 0 <= i < j < |log| ==>
                     || KeysOf(c, bytesOf, log[i].key).key != KeysOf(c, bytesOf, log[j].key).key
                     || NonceOf(c, bytesOf, log[i]) != NonceOf(c, bytesOf, log[j])
  }

  lemma DistinctMeansApart(c: Crypto, bytesOf: SecretBytes, log: seq<Record>)
    requires Sensible(c) && KeysApart(c, bytesOf, log) && In64Bits(log) && Distinct(log)
    ensures NoncesApart(c, bytesOf, log)
  {
    forall i, j | 0 <= i < j < |log| && KeysOf(c, bytesOf, log[i].key).key == KeysOf(c, bytesOf, log[j].key).key
      ensures NonceOf(c, bytesOf, log[i]) != NonceOf(c, bytesOf, log[j])
    {
      assert log[i].key == log[j].key;
      if NonceOf(c, bytesOf, log[i]) == NonceOf(c, bytesOf, log[j]) {
        NonceInjective(KeysOf(c, bytesOf, log[i].key).iv, log[i].seqNo, log[j].seqNo);
      }
    }
  }

  /** Over every honest run from a handshake on that never offers a commit under whose key the client has
      sent, with the codec's own key derivation: of all records of both sides, over all connections, no two
      share key bytes and nonce, unless two secrets of the run have the same key bytes. */
  lemma NoncesNeverRepeat(start: Start, actions: seq<Action>, c: Crypto, bytesOf: SecretBytes)
    requires Fair(start) && AllHonest(actions) && Sensible(c)
    ensures EstablishedState(start).Ok?
    ensures
      var s := EstablishedState(start).value;
      var log := ClientLog(s, actions) + ServerLog(s, actions);
      NeverReoffers(s, actions, []) && In64Bits(log) && KeysApart(c, bytesOf, log) ==> NoncesApart(c, bytesOf, log)
  {
    ServerNeverRepeats(start, actions);
    ClientNeverRepeats(start, actions);
    var s := EstablishedState(start).value;
    var log := ClientLog(s, actions) + ServerLog(s, actions);
    if NeverReoffers(s, actions, []) && In64Bits(log) && KeysApart(c, bytesOf, log) {
      DistinctMeansApart(c, bytesOf, log);
    }
  }
}
