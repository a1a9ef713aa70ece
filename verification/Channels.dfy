/**
 One direction of a connection: the sender's cipher, the records in flight and the receiver's
 cipher with the message it holds. `Flows` says that every record will open when its turn comes,
 although the keys of both ends change on the way.
 */
module Channels {
  import opened Wrappers
  import opened MlsGroups
  import opened Messages
  import opened Endpoints

  datatype Direction = ToServer | ToClient

  datatype Pipe = Pipe(
    sendKey: Secret, sendSeq: nat, sent: seq<Data>,
    records: seq<Record>,
    held: Option<Plaintext>, recvKey: Secret, recvSeq: nat, got: seq<Data>)

  /** The messages that make their receiver change its receive key: any signaling message at the
      server, only a key confirmation at the client. */
  predicate Switches(m: Signal, d: Direction) {
    d.ToServer? || m.EpochKeyUpdate?
  }

  predicate SwitchesOn(p: Plaintext, d: Direction) {
    p.Signaling? && Switches(p.signal, d)
  }

  // ----- the messages not yet processed -----

  function Payloads(records: seq<Record>): (q: seq<Plaintext>)
    ensures |q| == |records|
  {
    seq(|records|, i requires 0 <= i < |records| => records[i].payload)
  }

  function Queue(p: Pipe): seq<Plaintext> {
    (if p.held.Some? then [p.held.value] else []) + Payloads(p.records)
  }

  function SignalsIn(p: Plaintext): seq<Signal> {
    if p.Signaling? then [p.signal] else []
  }

  function DataIn(p: Plaintext): seq<Data> {
    if p.Application? then [p.data] else []
  }

  function Signals(q: seq<Plaintext>): seq<Signal> {
    if q == [] then [] else SignalsIn(q[0]) + Signals(q[1..])
  }

  function Datas(q: seq<Plaintext>): seq<Data> {
    if q == [] then [] else DataIn(q[0]) + Datas(q[1..])
  }

  lemma {:induction false} SignalsAppend(q: seq<Plaintext>, p: Plaintext)
    ensures Signals(q + [p]) == Signals(q) + SignalsIn(p)
  {
    if q == [] {
      assert [p][1..] == [];
    } else {
      assert (q + [p])[1..] == q[1..] + [p];
      SignalsAppend(q[1..], p);
      assert SignalsIn(q[0]) + (Signals(q[1..]) + SignalsIn(p)) == Signals(q) + SignalsIn(p);
    }
  }

  lemma {:induction false} DatasAppend(q: seq<Plaintext>, p: Plaintext)
    ensures Datas(q + [p]) == Datas(q) + DataIn(p)
  {
    if q == [] {
      assert [p][1..] == [];
    } else {
      assert (q + [p])[1..] == q[1..] + [p];
      DatasAppend(q[1..], p);
      assert DataIn(q[0]) + (Datas(q[1..]) + DataIn(p)) == Datas(q) + DataIn(p);
    }
  }

  // ----- keys along the channel -----

  /** Record by record: each is sealed under the key its receiver has by then, where the receiver
      takes up `next` at the first switching message, and the sender's key is where this ends. */
  predicate Flows(records: seq<Record>, d: Direction, key: Secret, next: Secret, sendKey: Secret) {
    if records == [] then key == sendKey
    else
      && records[0].key == key
      && Flows(records[1..], d, if SwitchesOn(records[0].payload, d) then next else key, next, sendKey)
  }

  predicate Numbered(records: seq<Record>, first: nat) {
    forall i :: 0 <= i < |records| ==> records[i].seqNo == first + i
  }

  /** The key the receiver has once it processed the message it holds. */
  function KeyAfterHeld(p: Pipe, d: Direction, next: Secret): Secret {
    if p.held.Some? && SwitchesOn(p.held.value, d) then next else p.recvKey
  }

  predicate Sound(p: Pipe, d: Direction, next: Secret) {
    && Flows(p.records, d, KeyAfterHeld(p, d, next), next, p.sendKey)
    && Numbered(p.records, p.recvSeq)
    && p.sendSeq == p.recvSeq + |p.records|
    && p.sent == p.got + Datas(Queue(p))
  }

  predicate Quiet(q: seq<Plaintext>, d: Direction) {
    forall i :: 0 <= i < |q| ==> !SwitchesOn(q[i], d)
  }

  /** Quietness can be read off the signaling messages alone. */
  lemma {:induction false} QuietBySignals(q: seq<Plaintext>, d: Direction)
    requires forall i :: 0 <= i < |Signals(q)| ==> !Switches(Signals(q)[i], d)
    ensures Quiet(q, d)
  {
    if q != [] {
      assert Signals(q)[|SignalsIn(q[0])|..] == Signals(q[1..]);
      QuietBySignals(q[1..], d);
      forall i | 0 <= i < |q| ensures !SwitchesOn(q[i], d) {
        if i == 0 {
          if q[0].Signaling? { assert Signals(q)[0] == q[0].signal; }
        } else {
          assert q[i] == q[1..][i - 1];
        }
      }
    }
  }

  lemma {:induction false} FlowsAppend(records: seq<Record>, d: Direction, key: Secret, next: Secret, sendKey: Secret,
                                       r: Record, sendKey': Secret)
    requires Flows(records, d, key, next, sendKey)
    requires r.key == sendKey
    requires sendKey' == if SwitchesOn(r.payload, d) then next else sendKey
    ensures Flows(records + [r], d, key, next, sendKey')
  {
    if records == [] {
      assert (records + [r])[1..] == [];
    } else {
      assert (records + [r])[1..] == records[1..] + [r];
      FlowsAppend(records[1..], d, if SwitchesOn(records[0].payload, d) then next else key, next, sendKey, r, sendKey');
    }
  }

  /** Without a switching message on the way, the key to come is immaterial. */
  lemma {:induction false} FlowsQuiet(records: seq<Record>, d: Direction, key: Secret, next: Secret, next': Secret,
                                      sendKey: Secret)
    requires Flows(records, d, key, next, sendKey) && Quiet(Payloads(records), d)
    ensures Flows(records, d, key, next', sendKey) && key == sendKey
  {
    if records != [] {
      assert !SwitchesOn(Payloads(records)[0], d);
      assert Payloads(records[1..]) == Payloads(records)[1..];
      FlowsQuiet(records[1..], d, key, next, next', sendKey);
    }
  }

  // ----- the four things that happen to a pipe -----

  function Sent(p: Pipe, m: Plaintext, sendKey: Secret): Pipe {
    p.(sendKey := sendKey, sendSeq := p.sendSeq + 1, sent := p.sent + DataIn(m),
    records := p.records + [Record(p.sendKey, p.sendSeq, m)])
  }

  lemma QueueSent(p: Pipe, m: Plaintext, sendKey: Secret)
    ensures Queue(Sent(p, m, sendKey)) == Queue(p) + [m]
    ensures Signals(Queue(Sent(p, m, sendKey))) == Signals(Queue(p)) + SignalsIn(m)
    ensures Datas(Queue(Sent(p, m, sendKey))) == Datas(Queue(p)) + DataIn(m)
  {
    assert Queue(Sent(p, m, sendKey)) == Queue(p) + [m];
    SignalsAppend(Queue(p), m);
    DatasAppend(Queue(p), m);
  }

  /** Sending keeps a pipe sound; the sender's key may change with a switching message, provided it
      changes to what the receiver will take up. */
  lemma SendKeepsSound(p: Pipe, d: Direction, next: Secret, m: Plaintext, sendKey: Secret)
    requires Sound(p, d, next)
    requires sendKey == if SwitchesOn(m, d) then next else p.sendKey
    ensures Sound(Sent(p, m, sendKey), d, next)
  {
    QueueSent(p, m, sendKey);
    FlowsAppend(p.records, d, KeyAfterHeld(p, d, next), next, p.sendKey, Record(p.sendKey, p.sendSeq, m), sendKey);
    assert p.got + Datas(Queue(p)) + DataIn(m) == p.got + (Datas(Queue(p)) + DataIn(m));
  }

  lemma RetargetKeepsSound(p: Pipe, d: Direction, next: Secret, next': Secret)
    requires Sound(p, d, next) && Quiet(Queue(p), d)
    ensures Sound(p, d, next') && p.recvKey == p.sendKey
  {
    if p.held.Some? {
      assert !SwitchesOn(Queue(p)[0], d);
    }
    var h := if p.held.Some? then 1 else 0;
    assert Payloads(p.records) == Queue(p)[h..];
    FlowsQuiet(p.records, d, KeyAfterHeld(p, d, next), next, next', p.sendKey);
  }

  function Taken(p: Pipe): Pipe
    requires p.records != []
  {
    p.(records := p.records[1..], held := Some(p.records[0].payload), recvSeq := p.recvSeq + 1)
  }

  /** The next record opens under the receiver's key and number, and reading it keeps the pipe sound. */
  lemma ReadKeepsSound(p: Pipe, d: Direction, next: Secret)
    requires Sound(p, d, next) && p.held.None? && p.records != []
    ensures p.records[0].key == p.recvKey && p.records[0].seqNo == p.recvSeq
    ensures Sound(Taken(p), d, next) && Queue(Taken(p)) == Queue(p)
  {
    assert Queue(Taken(p)) == Queue(p);
  }

  function Processed(p: Pipe, recvKey: Secret): Pipe
    requires p.held.Some?
  {
    p.(held := None, recvKey := recvKey, got := p.got + DataIn(p.held.value))
  }

  lemma QueueProcessed(p: Pipe, recvKey: Secret)
    requires p.held.Some?
    ensures Queue(p) == [p.held.value] + Queue(Processed(p, recvKey))
    ensures Signals(Queue(p)) == SignalsIn(p.held.value) + Signals(Queue(Processed(p, recvKey)))
    ensures Datas(Queue(p)) == DataIn(p.held.value) + Datas(Queue(Processed(p, recvKey)))
  {
    assert Queue(p)[1..] == Queue(Processed(p, recvKey));
  }

  lemma ProcessKeepsSound(p: Pipe, d: Direction, next: Secret)
    requires Sound(p, d, next) && p.held.Some?
    ensures Sound(Processed(p, KeyAfterHeld(p, d, next)), d, next)
  {
    QueueProcessed(p, KeyAfterHeld(p, d, next));
    var p' := Processed(p, KeyAfterHeld(p, d, next));
    assert p.got + (DataIn(p.held.value) + Datas(Queue(p'))) == p.got + DataIn(p.held.value) + Datas(Queue(p'));
  }
}
