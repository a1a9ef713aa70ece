/**
 The protocol on the wire: the records in flight between client and server as the bytes the record
 layer makes of them. In every reachable state these bytes, in whatever reads they arrive, open in
 order under the keys that their receiver has by then.
 */
module Wire {
  import opened Wrappers
  import opened Words
  import opened Bytes
  import opened Frames
  import opened KeyLabels
  import opened Nonces
  import opened AeadCodec
  import opened Pipeline
  import opened TrafficKeys
  import opened MlsGroups
  import opened Messages
  import opened Endpoints
  import opened Network
  import opened Channels
  import opened Safety
  import opened Simulation
  import opened Theorems

  /** How secrets and plaintexts become bytes. */
  datatype Encoding = Encoding(
    bytesOf: SecretBytes,
    write: Plaintext -> seq<byte>,
    read: seq<byte> -> Option<Plaintext>)

  /** Every plaintext on the way is written in one record and can be read back. */
  ghost predicate Fits(e: Encoding, records: seq<Record>) {
    forall i :: 0 <= i < |records| ==>
                  && 0 < |e.write(records[i].payload)| <= MAX_RECORD
                  && e.read(e.write(records[i].payload)) == Some(records[i].payload)
  }

  function KeyFor(c: Crypto, e: Encoding, r: Record): KeyIv {
    KeysOf(c, e.bytesOf, r.key)
  }

  /** The bytes of one record. */
  ghost function RecordBytes(c: Crypto, e: Encoding, r: Record): seq<byte>
    requires Sensible(c)
  {
    SealChunk(c, KeyFor(c, e, r), r.seqNo % U64, e.write(r.payload))
  }

  /** The bytes of a channel. */
  ghost function Stream(c: Crypto, e: Encoding, records: seq<Record>): seq<byte>
    requires Sensible(c)
  {
    EncodeAll(seq(|records|, i requires 0 <= i < |records| => RecordBytes(c, e, records[i])))
  }

  /** The key its receiver has when it comes to record `i`, having processed the records before it. */
  function KeyAt(records: seq<Record>, d: Direction, key: Secret, next: Secret, i: nat): Secret
    requires i < |records|
  {
    if i == 0 then key
    else KeyAt(records[1..], d, if SwitchesOn(records[0].payload, d) then next else key, next, i - 1)
  }

  lemma {:induction false} FlowsKeyAt(records: seq<Record>, d: Direction, key: Secret, next: Secret,
                                      sendKey: Secret, i: nat)
    requires Flows(records, d, key, next, sendKey) && i < |records|
    ensures records[i].key == KeyAt(records, d, key, next, i)
  {
    if i > 0 {
      FlowsKeyAt(records[1..], d, if SwitchesOn(records[0].payload, d) then next else key, next, sendKey, i - 1);
    }
  }

  /** Packet `i` opens, under the key and number the receiver has by then, to record `i`'s plaintext. */
  ghost predicate OpensAs(c: Crypto, e: Encoding, key: Secret, number: nat, packet: Packet, p: Plaintext)
    requires Sensible(c)
  {
    var r := OpenRecord(c, KeysOf(c, e.bytesOf, key), number % U64, packet);
    r.Ok? && e.read(r.value) == Some(p)
  }

  function MessagesOf(c: Crypto, e: Encoding, records: seq<Record>): (m: seq<Message>)
    ensures |m| == |records|
  {
    seq(|records|, i requires 0 <= i < |records| => Message(KeyFor(c, e, records[i]), e.write(records[i].payload)))
  }

  lemma StreamIsSealed(c: Crypto, e: Encoding, records: seq<Record>, first: nat)
    requires Sensible(c) && Fits(e, records) && Numbered(records, first)
    ensures Deliverable(MessagesOf(c, e, records))
    ensures Stream(c, e, records) == EncodeAll(Sealed(c, first, MessagesOf(c, e, records)))
  {
    MessagesAreDeliverable(c, e, records);
    var messages := MessagesOf(c, e, records);
    var sealed := Sealed(c, first, messages);
    forall i | 0 <= i < |records| ensures RecordBytes(c, e, records[i]) == sealed[i] {
      OneSealed(c, e, records, first, i);
    }
    SameBytes(c, e, records, sealed);
  }

  lemma OneSealed(c: Crypto, e: Encoding, records: seq<Record>, first: nat, i: nat)
    requires Sensible(c) && Numbered(records, first) && i < |records|
    requires Deliverable(MessagesOf(c, e, records))
    ensures RecordBytes(c, e, records[i]) == Sealed(c, first, MessagesOf(c, e, records))[i]
  {
    var m := MessagesOf(c, e, records)[i];
    assert RecordBytes(c, e, records[i]) == SealChunk(c, m.keys, Following(first, i), m.data);
  }

  lemma MessagesAreDeliverable(c: Crypto, e: Encoding, records: seq<Record>)
    requires Sensible(c) && Fits(e, records)
    ensures Deliverable(MessagesOf(c, e, records))
  {
  }

  lemma SameBytes(c: Crypto, e: Encoding, records: seq<Record>, sealed: seq<seq<byte>>)
    requires Sensible(c) && |sealed| == |records|
    requires forall i :: 0 <= i < |records| ==> RecordBytes(c, e, records[i]) == sealed[i]
    ensures Stream(c, e, records) == EncodeAll(sealed)
  {
    assert seq(|records|, i requires 0 <= i < |records| => RecordBytes(c, e, records[i])) == sealed;
  }

  /** What came out of a stream: one packet for each record, opening in order under the receiver's keys. */
  ghost predicate Arrived(c: Crypto, e: Encoding, records: seq<Record>, d: Direction, key: Secret, next: Secret,
                          first: nat, out: Drained)
    requires Sensible(c)
  {
    && |out.packets| == |records| && out.rest == []
    && (forall i :: 0 <= i < |records| ==>
                      OpensAs(c, e, KeyAt(records, d, key, next, i), first + i, out.packets[i], records[i].payload))
  }

  lemma OneOnTheWire(c: Crypto, e: Encoding, records: seq<Record>, d: Direction, key: Secret, next: Secret,
                     sendKey: Secret, first: nat, packet: Packet, i: nat)
    requires Sensible(c) && Flows(records, d, key, next, sendKey) && Fits(e, records) && i < |records|
    requires OpenRecord(c, KeyFor(c, e, records[i]), Following(first, i), packet) == Ok(e.write(records[i].payload))
    ensures OpensAs(c, e, KeyAt(records, d, key, next, i), first + i, packet, records[i].payload)
  {
    FlowsKeyAt(records, d, key, next, sendKey, i);
  }

  lemma StreamArrives(c: Crypto, e: Encoding, records: seq<Record>, first: nat, arrivals: seq<seq<byte>>)
    requires Numbered(records, first) && Sensible(c) && Fits(e, records)
    requires Concat(arrivals) == Stream(c, e, records)
    ensures
      var out := Feed([], arrivals);
      && |out.packets| == |records| && out.rest == []
      && (forall i :: 0 <= i < |records| ==>
                        OpenRecord(c, KeyFor(c, e, records[i]), Following(first, i), out.packets[i])
                        == Ok(e.write(records[i].payload)))
  {
    var messages := MessagesOf(c, e, records);
    StreamIsSealed(c, e, records, first);
    EndToEnd(c, first, messages, arrivals);
    var packets := Feed([], arrivals).packets;
    forall i | 0 <= i < |records|
      ensures OpenRecord(c, KeyFor(c, e, records[i]), Following(first, i), packets[i])
           == Ok(e.write(records[i].payload))
    {
      assert OpenRecord(c, messages[i].keys, Following(first, i), packets[i]) == Ok(messages[i].data);
    }
  }

  lemma FlowsOnTheWire(c: Crypto, e: Encoding, records: seq<Record>, d: Direction, key: Secret, next: Secret,
                       sendKey: Secret, first: nat, arrivals: seq<seq<byte>>)
    requires Flows(records, d, key, next, sendKey) && Numbered(records, first) && Sensible(c) && Fits(e, records)
    requires Concat(arrivals) == Stream(c, e, records)
    ensures Arrived(c, e, records, d, key, next, first, Feed([], arrivals))
  {
    StreamArrives(c, e, records, first, arrivals);
    var packets := Feed([], arrivals).packets;
    forall i | 0 <= i < |records|
      ensures OpensAs(c, e, KeyAt(records, d, key, next, i), first + i, packets[i], records[i].payload)
    {
      OneOnTheWire(c, e, records, d, key, next, sendKey, first, packets[i], i);
    }
  }

  lemma PipesFlow(s: System)
    requires Reachable(s) && s.link.Up?
    ensures
      var next := ServerSecret(s.groupId, ClientHistory(s));
      && Flows(s.toClient, ToClient, KeyAfterHeld(ToClientPipe(s), ToClient, next), next, s.server.cipher.sendKey)
      && Numbered(s.toClient, s.client.cipher.recvSeq)
    ensures
      var next := ClientSecret(s.groupId, ClientHistory(s));
      && Flows(s.toServer, ToServer, KeyAfterHeld(ToServerPipe(s), ToServer, next), next, s.client.cipher.sendKey)
      && Numbered(s.toServer, s.server.cipher.recvSeq)
  {
    ReachableInv(s);
    var v :| InvAt(s, v);
  }

  /** In every reachable state, what is in flight to the client opens on the wire, record by record, under
      the client's successive keys, and reads back as the plaintexts that were sent: the first key is the
      client's once it has processed the message it holds, the next that of its own history. */
  lemma ClientWire(s: System, c: Crypto, e: Encoding, arrivals: seq<seq<byte>>)
    requires Reachable(s) && s.link.Up? && Sensible(c) && Fits(e, s.toClient)
    requires Concat(arrivals) == Stream(c, e, s.toClient)
    ensures
      var next := ServerSecret(s.groupId, ClientHistory(s));
      var key := KeyAfterHeld(ToClientPipe(s), ToClient, next);
      Arrived(c, e, s.toClient, ToClient, key, next, s.client.cipher.recvSeq, Feed([], arrivals))
  {
    PipesFlow(s);
    var next := ServerSecret(s.groupId, ClientHistory(s));
    FlowsOnTheWire(c, e, s.toClient, ToClient, KeyAfterHeld(ToClientPipe(s), ToClient, next), next,
                   s.server.cipher.sendKey, s.client.cipher.recvSeq, arrivals);
  }

  /** The same for what is in flight to the server. */
  lemma ServerWire(s: System, c: Crypto, e: Encoding, arrivals: seq<seq<byte>>)
    requires Reachable(s) && s.link.Up? && Sensible(c) && Fits(e, s.toServer)
    requires Concat(arrivals) == Stream(c, e, s.toServer)
    ensures
      var next := ClientSecret(s.groupId, ClientHistory(s));
      var key := KeyAfterHeld(ToServerPipe(s), ToServer, next);
      Arrived(c, e, s.toServer, ToServer, key, next, s.server.cipher.recvSeq, Feed([], arrivals))
  {
    PipesFlow(s);
    var next := ClientSecret(s.groupId, ClientHistory(s));
    FlowsOnTheWire(c, e, s.toServer, ToServer, KeyAfterHeld(ToServerPipe(s), ToServer, next), next,
                   s.client.cipher.sendKey, s.server.cipher.recvSeq, arrivals);
  }

  // ----- what does not open -----

  /** This record, as it was sealed, does not open under this other key and nonce. */
  ghost predicate Separates(c: Crypto, k: KeyIv, seqNo: nat, x: seq<byte>, header: seq<byte>, k': KeyIv, seqNo': nat)
    requires |k.iv| == |k'.iv| == TLS13_IV_SIZE
  {
    (k.key, Nonce(k.iv, seqNo)) != (k'.key, Nonce(k'.iv, seqNo')) ==>
      c.open(k'.key, Nonce(k'.iv, seqNo'), header, x) == None
  }

  /** The protocol's rule that a record opens exactly under its own key and number is what the record layer
      does with its bytes: under the receiver's key and number they open if and only if `Read` succeeds, to
      the plaintext that was sent, and otherwise the tag is wrong. This is for secrets with different key
      bytes and an AEAD that does not open the record under another key or nonce. */
  lemma ReadAgrees(c: Crypto, e: Encoding, end: Endpoint, r: Record, own: KeyIv, other: KeyIv)
    requires Sensible(c) && Fits(e, [r]) && r.seqNo < U64 && end.cipher.recvSeq < U64
    requires own == KeysOf(c, e.bytesOf, r.key) && other == KeysOf(c, e.bytesOf, end.cipher.recvKey)
    requires own.key == other.key ==> r.key == end.cipher.recvKey
    requires
      var x := RecordBytes(c, e, r);
      Separates(c, own, r.seqNo, x, PacketOf(x).header, other, end.cipher.recvSeq)
    ensures
      var plain := OpenRecord(c, other, end.cipher.recvSeq, PacketOf(RecordBytes(c, e, r)));
      && (Read(end, r).Ok? <==> plain.Ok?)
      && (plain.Ok? ==> e.read(plain.value) == Some(r.payload))
      && (plain.Err? ==> plain.error == InvalidMac)
  {
    assert [r][0] == r;
    RecordIs(c, e, r, own);
    OpensIff(c, own, r.seqNo, other, end.cipher.recvSeq, e.write(r.payload));
  }

  lemma RecordIs(c: Crypto, e: Encoding, r: Record, own: KeyIv)
    requires Sensible(c) && r.seqNo < U64 && own == KeysOf(c, e.bytesOf, r.key)
    ensures RecordBytes(c, e, r) == SealChunk(c, own, r.seqNo, e.write(r.payload))
  {
    assert r.seqNo % U64 == r.seqNo;
    assert KeyFor(c, e, r) == own;
  }

  lemma OpensIff(c: Crypto, own: KeyIv, n: nat, other: KeyIv, n': nat, chunk: seq<byte>)
    requires Sensible(c) && |own.iv| == |other.iv| == TLS13_IV_SIZE && 0 < |chunk| <= MAX_RECORD
    requires n < U64 && n' < U64 && (own.key == other.key ==> own == other)
    requires
      var x := SealChunk(c, own, n, chunk);
      Separates(c, own, n, x, PacketOf(x).header, other, n')
    ensures
      var plain := OpenRecord(c, other, n', PacketOf(SealChunk(c, own, n, chunk)));
      plain == if own.key == other.key && n == n' then Ok(chunk) else Err(InvalidMac)
  {
    SealedHeader(c, own, n, chunk);
    if own == other && Nonce(own.iv, n) == Nonce(other.iv, n') {
      NonceInjective(own.iv, n, n');
    }
  }
}
