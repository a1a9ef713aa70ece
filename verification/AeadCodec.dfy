/**
 The TLS AEAD codec of src/tls_aead/mod.rs: chunking, sealing and opening of records, with keys and
 sequence numbers updated in place.
 */
module AeadCodec {
  import opened Wrappers
  import opened Words
  import opened Bytes
  import opened Frames
  import opened KeyLabels
  import opened Nonces

  const MAX_RECORD: nat := 32768  // 2 << 14
  const MIN_RECORD_SIZE: nat := 22  // header, tag and content type

  datatype CodecError = NotEnoughData | InvalidMac | EmptyPlaintext

  // ----- specification -----

  /** The data in pieces of at most `MAX_RECORD` bytes; none for empty data. */
  function Chunks(data: seq<byte>): seq<seq<byte>>
    decreases |data|
  {
    if data == [] then []
    else if |data| <= MAX_RECORD then [data]
    else [data[..MAX_RECORD]] + Chunks(data[MAX_RECORD..])
  }

  /** One record: the chunk and a content-type byte, bound to the header the frame codec will write. */
  function SealChunk(c: Crypto, k: KeyIv, seqNo: nat, chunk: seq<byte>): seq<byte>
    requires |k.iv| == TLS13_IV_SIZE
  {
    c.seal(k.key, Nonce(k.iv, seqNo), Header(|chunk| + TLS_AEAD_TAG_SIZE + 1), chunk + [TLS_APP_DATA])
  }

  function Following(seqNo: nat, n: nat): nat {
    (seqNo + n) % U64
  }

  function SealChunks(c: Crypto, k: KeyIv, seqNo: nat, chunks: seq<seq<byte>>): (r: seq<seq<byte>>)
    requires |k.iv| == TLS13_IV_SIZE
    ensures |r| == |chunks|
  {
    seq(|chunks|, i requires 0 <= i < |chunks| => SealChunk(c, k, Following(seqNo, i), chunks[i]))
  }

  /** The key, IV and nonce of each of `n` consecutive records. */
  function Uses(k: KeyIv, seqNo: nat, n: nat): (u: seq<Use>)
    requires |k.iv| == TLS13_IV_SIZE
    ensures |u| == n
  {
    seq(n, i requires 0 <= i < n => Use(k.key, k.iv, Nonce(k.iv, Following(seqNo, i))))
  }

  function FramesOf(records: seq<seq<byte>>): (f: seq<seq<byte>>)
    ensures |f| == |records|
  {
    seq(|records|, i requires 0 <= i < |records| => EncodeFrame(records[i]))
  }

  /** Opening drops the content-type byte; the sequence number advances only if the tag was right. */
  function OpenRecord(c: Crypto, k: KeyIv, seqNo: nat, packet: Packet): Result<seq<byte>, CodecError>
    requires |k.iv| == TLS13_IV_SIZE
  {
    match c.open(k.key, Nonce(k.iv, seqNo), packet.header, packet.data)
    case None => Err(InvalidMac)
    case Some(m) => if m == [] then Err(EmptyPlaintext) else Ok(m[..|m| - 1])
  }

  /** Opens the packets from number `i` on, one after the other; the first failure ends it. */
  function OpenRecords(c: Crypto, k: KeyIv, seqNo: nat, packets: seq<Packet>, i: nat)
    : Result<seq<seq<byte>>, CodecError>
    requires |k.iv| == TLS13_IV_SIZE && i <= |packets|
    decreases |packets| - i
  {
    if i == |packets| then Ok([])
    else
      match OpenRecord(c, k, Following(seqNo, i), packets[i])
      case Err(e) => Err(e)
      case Ok(m) =>
        match OpenRecords(c, k, seqNo, packets, i + 1)
        case Err(e) => Err(e)
        case Ok(rest) => Ok([m] + rest)
  }

  // ----- chunks -----

  /** Chunks are non-empty, no larger than a record, and put together again give the data. */
  lemma {:induction false} ChunksPartition(data: seq<byte>)
    ensures Concat(Chunks(data)) == data
    ensures forall i :: 0 <= i < |Chunks(data)| ==> 0 < |Chunks(data)[i]| <= MAX_RECORD
    ensures MAX_RECORD * |Chunks(data)| < |data| + MAX_RECORD
    ensures |data| <= MAX_RECORD * |Chunks(data)|
    ensures forall i :: 0 <= i < |Chunks(data)| - 1 ==> |Chunks(data)[i]| == 32768
    decreases |data|
  {
    if |data| > MAX_RECORD {
      ChunksPartition(data[MAX_RECORD..]);
      assert data[..MAX_RECORD] + data[MAX_RECORD..] == data;
      assert Chunks(data)[1..] == Chunks(data[MAX_RECORD..]);
    } else if data != [] {
      assert Chunks(data)[1..] == [];
    }
  }

  /** A message travels as one record exactly if it is not empty and fits one chunk. */
  lemma OneRecordIff(data: seq<byte>)
    ensures |Chunks(data)| == 1 <==> 0 < |data| <= 32768
    ensures |Chunks(data)| == 1 ==> Chunks(data) == [data]
  {
    ChunksPartition(data);
  }

  // ----- sealing and opening -----

  /** The associated data of a sealed chunk is the header the frame codec writes for it, the 16-bit
      length does not truncate, and the frame is longer than the smallest record. */
  lemma SealedHeader(c: Crypto, k: KeyIv, seqNo: nat, chunk: seq<byte>)
    requires Sensible(c) && |k.iv| == TLS13_IV_SIZE && 0 < |chunk| <= MAX_RECORD
    ensures
      var r := SealChunk(c, k, seqNo, chunk);
      && |r| == |chunk| + TLS_AEAD_TAG_SIZE + 1 && |r| < U16
      && PacketOf(r).header == Header(|chunk| + TLS_AEAD_TAG_SIZE + 1)
      && |EncodeFrame(r)| > MIN_RECORD_SIZE
      && OpenRecord(c, k, seqNo, PacketOf(r)) == Ok(chunk)
  {
    var m := chunk + [TLS_APP_DATA];
    assert m[..|m| - 1] == chunk;
  }

  /** Every byte that goes into a record: plaintext and associated data, with content type 23 and version
      3.3, for a chunk of any length a record may have. */
  lemma SealedBytes(c: Crypto, k: KeyIv, seqNo: nat, chunk: seq<byte>)
    requires |k.iv| == 12 && |chunk| <= 32768
    ensures
      var n := |chunk| + 1 + 16;
      SealChunk(c, k, seqNo, chunk)
      == c.seal(k.key, Nonce(k.iv, seqNo), [0x17, 3, 3, ByteOf(n / 256), ByteOf(n % 256)], chunk + [0x17])
  {
    ShortHeader(|chunk| + 17);
  }

  /** What opening means, by `open` alone: a message comes out exactly if it was authenticated with one
      more byte behind it; a record that is not authenticated is rejected, and only such a record is called
      a wrong tag. */
  lemma OpenRecordMeans(c: Crypto, k: KeyIv, seqNo: nat, packet: Packet, m: seq<byte>)
    requires |k.iv| == 12
    ensures
      var plain := c.open(k.key, Nonce(k.iv, seqNo), packet.header, packet.data);
      var r := OpenRecord(c, k, seqNo, packet);
      && (r == Err(InvalidMac) <==> plain == None)
      && (r == Err(EmptyPlaintext) <==> plain == Some([]))
      && (r == Ok(m) <==> exists last: byte :: plain == Some(m + [last]))
      && r != Err(NotEnoughData)
  {
    var plain := c.open(k.key, Nonce(k.iv, seqNo), packet.header, packet.data);
    if plain.Some? && plain.value != [] {
      var p := plain.value;
      var last := p[|p| - 1];
      assert p == p[..|p| - 1] + [last];
      assert OpenRecord(c, k, seqNo, packet) == Ok(p[..|p| - 1]);
      assert p[..|p| - 1] == m ==> plain == Some(m + [last]);
    }
    forall last: byte | plain == Some(m + [last]) ensures OpenRecord(c, k, seqNo, packet) == Ok(m) {
      assert (m + [last])[..|m|] == m;
    }
  }

  /** `open` yields a plaintext only for what `seal` makes of it under the same key, nonce and associated
      data. */
  ghost predicate Authentic(c: Crypto) {
    forall k, n, a, x :: c.open(k, n, a, x).Some? ==> x == c.seal(k, n, a, c.open(k, n, a, x).value)
  }

  /** `x` was sealed under this key, nonce and associated data, and `m` is the message in it. */
  ghost predicate SealedUnder(c: Crypto, k: seq<byte>, n: seq<byte>, a: seq<byte>, x: seq<byte>, m: seq<byte>) {
    exists last: byte :: x == c.seal(k, n, a, m + [last])
  }

  /** This can be met together with `Sensible`. */
  lemma AuthenticCryptoExists() returns (c: Crypto)
    ensures Sensible(c) && Authentic(c)
  {
    var tag := seq(TLS_AEAD_TAG_SIZE, _ => 0 as byte);
    c := Crypto((k, n, a, p) => p + tag,
                (k, n, a, x) =>
                  if |x| < TLS_AEAD_TAG_SIZE || x[|x| - TLS_AEAD_TAG_SIZE..] != tag then None
                  else Some(x[..|x| - TLS_AEAD_TAG_SIZE]),
                (s: seq<byte>, i: seq<byte>, l: nat) => seq(l, _ => 0 as byte));
    forall k, n, a, p ensures c.open(k, n, a, c.seal(k, n, a, p)) == Some(p) {
      assert (p + tag)[..|p|] == p && (p + tag)[|p|..] == tag;
    }
    forall k, n, a, x | c.open(k, n, a, x).Some? ensures x == c.seal(k, n, a, c.open(k, n, a, x).value) {
      assert x == x[..|x| - TLS_AEAD_TAG_SIZE] + x[|x| - TLS_AEAD_TAG_SIZE..];
    }
  }

  predicate Recordable(chunks: seq<seq<byte>>) {
    forall i :: 0 <= i < |chunks| ==> 0 < |chunks[i]| <= MAX_RECORD
  }

  lemma SealedRecords(c: Crypto, k: KeyIv, seqNo: nat, chunks: seq<seq<byte>>)
    requires Sensible(c) && |k.iv| == TLS13_IV_SIZE && Recordable(chunks)
    ensures
      var records := SealChunks(c, k, seqNo, chunks);
      && Short(records)
      && (forall i :: 0 <= i < |chunks| ==>
                        OpenRecord(c, k, Following(seqNo, i), PacketOf(records[i])) == Ok(chunks[i]))
  {
    forall i | 0 <= i < |chunks|
      ensures
        var r := SealChunks(c, k, seqNo, chunks)[i];
        |r| < U16 && OpenRecord(c, k, Following(seqNo, i), PacketOf(r)) == Ok(chunks[i])
    {
      SealedHeader(c, k, Following(seqNo, i), chunks[i]);
    }
  }

  /** If every packet opens to its chunk, opening them one after the other gives the chunks. */
  lemma {:induction false} OpenOneByOne(c: Crypto, k: KeyIv, seqNo: nat, packets: seq<Packet>,
                                        chunks: seq<seq<byte>>, i: nat)
    requires |k.iv| == TLS13_IV_SIZE && i <= |packets| == |chunks|
    requires forall j :: 0 <= j < |packets| ==> OpenRecord(c, k, Following(seqNo, j), packets[j]) == Ok(chunks[j])
    ensures OpenRecords(c, k, seqNo, packets, i) == Ok(chunks[i..])
    decreases |packets| - i
  {
    if i < |packets| {
      OpenOneByOne(c, k, seqNo, packets, chunks, i + 1);
      assert chunks[i..] == [chunks[i]] + chunks[i + 1..];
    } else {
      assert chunks[i..] == [];
    }
  }

  /** Whole data of any length: the records fit their frames and open in order to the chunks, which put
      together are the data. */
  lemma DataRoundTrip(c: Crypto, k: KeyIv, seqNo: nat, data: seq<byte>)
    requires Sensible(c) && |k.iv| == TLS13_IV_SIZE
    ensures
      var records := SealChunks(c, k, seqNo, Chunks(data));
      && Short(records)
      && OpenRecords(c, k, seqNo, Packets(records), 0).Ok?
      && Concat(OpenRecords(c, k, seqNo, Packets(records), 0).value) == data
  {
    ChunksPartition(data);
    SealedRecords(c, k, seqNo, Chunks(data));
    OpenOneByOne(c, k, seqNo, Packets(SealChunks(c, k, seqNo, Chunks(data))), Chunks(data), 0);
    assert Chunks(data)[0..] == Chunks(data);
  }

  // ----- nonces -----

  lemma FollowingOne(seqNo: nat, i: nat)
    ensures Following(Following(seqNo, i), 1) == Following(seqNo, i + 1)
  {
    ModAdd(seqNo + i, 1);
  }

  lemma UseIsCounted(log: seq<Use>, key: seq<byte>, iv: seq<byte>)
    requires |iv| == TLS13_IV_SIZE && Counted(log)
    ensures Counted(log + [Use(key, iv, Nonce(iv, |log| % U64))])
  {
  }

  // ----- the codec -----

  datatype KeyUpdate = NewClientSecret(secret: seq<byte>) | NewServerSecret(secret: seq<byte>)
                     | NewSecrets(clientSecret: seq<byte>, serverSecret: seq<byte>)

  datatype KeyPair = KeyPair(send: KeyIv, recv: KeyIv)

  function ClientKeys(c: Crypto, secret: seq<byte>): KeyIv {
    var k := ExpandSecret(c, secret, CLIENT_LABEL, []);
    if k.Some? then k.value else KeyIv([], [])
  }

  function ServerKeys(c: Crypto, secret: seq<byte>): KeyIv {
    var k := ExpandSecret(c, secret, SERVER_LABEL, []);
    if k.Some? then k.value else KeyIv([], [])
  }

  /** Each direction's keys, in terms of `expand` and the texts of the labels alone. */
  lemma DirectionKeys(c: Crypto, secret: seq<byte>)
    ensures DerivedFrom(c, ClientKeys(c, secret), secret, CLIENT_LABEL)
    ensures DerivedFrom(c, ServerKeys(c, secret), secret, SERVER_LABEL)
    ensures Sensible(c) ==> |ClientKeys(c, secret).iv| == |ServerKeys(c, secret).iv| == TLS13_IV_SIZE
  {
    ExpandSecretDerives(c, secret, CLIENT_LABEL, []);
    ExpandSecretDerives(c, secret, SERVER_LABEL, []);
  }

  function Installed(c: Crypto, keys: KeyPair, update: KeyUpdate, isServer: bool): KeyPair {
    match update
    case NewClientSecret(s) =>
      if isServer then keys.(recv := ClientKeys(c, s)) else keys.(send := ClientKeys(c, s))
    case NewServerSecret(s) =>
      if isServer then keys.(send := ServerKeys(c, s)) else keys.(recv := ServerKeys(c, s))
    case NewSecrets(client, server) =>
      if isServer then KeyPair(ServerKeys(c, server), ClientKeys(c, client))
      else KeyPair(ClientKeys(c, client), ServerKeys(c, server))
  }

  /** The keys of what the client sends, at either side. */
  function ClientDirection(keys: KeyPair, isServer: bool): KeyIv {
    if isServer then keys.recv else keys.send
  }

  function ServerDirection(keys: KeyPair, isServer: bool): KeyIv {
    if isServer then keys.send else keys.recv
  }

  /** What an update has to do: each direction it names gets the keys derived from its secret under the
      label of that direction, with an IV of 12 bytes, and the other keeps its own. */
  ghost predicate Given(c: Crypto, before: KeyPair, after: KeyPair, update: KeyUpdate, isServer: bool) {
    var client, server := ClientDirection(after, isServer), ServerDirection(after, isServer);
    match update
    case NewClientSecret(s) =>
      DerivedFrom(c, client, s, CLIENT_LABEL) && |client.iv| == 12 && server == ServerDirection(before, isServer)
    case NewServerSecret(s) =>
      DerivedFrom(c, server, s, SERVER_LABEL) && |server.iv| == 12 && client == ClientDirection(before, isServer)
    case NewSecrets(cs, ss) =>
      && DerivedFrom(c, client, cs, CLIENT_LABEL) && DerivedFrom(c, server, ss, SERVER_LABEL)
      && |client.iv| == 12 && |server.iv| == 12
  }

  lemma InstalledIsGiven(c: Crypto, keys: KeyPair, update: KeyUpdate, isServer: bool)
    requires Sensible(c)
    ensures Given(c, keys, Installed(c, keys, update, isServer), update, isServer)
    ensures
      |keys.send.iv| == |keys.recv.iv| == 12 || update.NewSecrets? ==>
        |Installed(c, keys, update, isServer).send.iv| == |Installed(c, keys, update, isServer).recv.iv| == 12
  {
    match update
    case NewClientSecret(s) => DirectionKeys(c, s);
    case NewServerSecret(s) => DirectionKeys(c, s);
    case NewSecrets(client, server) =>
      DirectionKeys(c, client);
      DirectionKeys(c, server);
  }

  lemma BothReplaceAll(c: Crypto, a: KeyPair, b: KeyPair, client: seq<byte>, server: seq<byte>, isServer: bool)
    ensures Installed(c, a, NewSecrets(client, server), isServer)
         == Installed(c, b, NewSecrets(client, server), isServer)
  {
  }

  function InstalledAll(c: Crypto, keys: KeyPair, updates: seq<KeyUpdate>, isServer: bool): KeyPair
    decreases |updates|
  {
    if updates == [] then keys
    else InstalledAll(c, Installed(c, keys, updates[0], isServer), updates[1..], isServer)
  }

  /** What each direction's key is after a list of updates: the last secret given for it. */
  function LastSecret(updates: seq<KeyUpdate>, client: bool): Option<seq<byte>> {
    if updates == [] then None
    else
      var u := updates[|updates| - 1];
      if u.NewSecrets? then Some(if client then u.clientSecret else u.serverSecret)
      else if u.NewClientSecret? == client then Some(u.secret)
      else LastSecret(updates[..|updates| - 1], client)
  }

  lemma {:induction false} InstalledAppend(c: Crypto, keys: KeyPair, updates: seq<KeyUpdate>, last: KeyUpdate,
                                           isServer: bool)
    ensures InstalledAll(c, keys, updates + [last], isServer)
         == Installed(c, InstalledAll(c, keys, updates, isServer), last, isServer)
    decreases |updates|
  {
    if updates == [] {
      assert [last][1..] == [];
    } else {
      assert (updates + [last])[1..] == updates[1..] + [last];
      InstalledAppend(c, Installed(c, keys, updates[0], isServer), updates[1..], last, isServer);
    }
  }

  /** After any list of updates, each key of either role is that of the last secret given for its
      direction, and unchanged if none was given. */
  lemma {:induction false} KeysByLastSecret(c: Crypto, keys: KeyPair, updates: seq<KeyUpdate>, isServer: bool)
    ensures
      var after := InstalledAll(c, keys, updates, isServer);
      var client := if isServer then after.recv else after.send;
      var server := if isServer then after.send else after.recv;
      && client == (match LastSecret(updates, true)
                    case None => (if isServer then keys.recv else keys.send)
                    case Some(s) => ClientKeys(c, s))
      && server == (match LastSecret(updates, false)
                    case None => (if isServer then keys.send else keys.recv)
                    case Some(s) => ServerKeys(c, s))
    decreases |updates|
  {
    if updates != [] {
      var before, last := updates[..|updates| - 1], updates[|updates| - 1];
      assert updates == before + [last];
      InstalledAppend(c, keys, before, last, isServer);
      KeysByLastSecret(c, keys, before, isServer);
    }
  }

  predicate MirroredKeys(client: KeyPair, server: KeyPair) {
    client.send == server.recv && client.recv == server.send
  }

  /** Client and server may be given their secrets in different updates, as here: the client one secret at
      a time, the server both at once. If the last secret given for each direction is the same on both
      sides, and the keys mirrored each other before, they mirror each other afterwards. */
  lemma MirroredByLastSecret(c: Crypto, clientKeys: KeyPair, serverKeys: KeyPair,
                             clientUpdates: seq<KeyUpdate>, serverUpdates: seq<KeyUpdate>)
    requires MirroredKeys(clientKeys, serverKeys)
    requires forall client :: LastSecret(clientUpdates, client) == LastSecret(serverUpdates, client)
    ensures MirroredKeys(InstalledAll(c, clientKeys, clientUpdates, false),
                         InstalledAll(c, serverKeys, serverUpdates, true))
  {
    KeysByLastSecret(c, clientKeys, clientUpdates, false);
    KeysByLastSecret(c, serverKeys, serverUpdates, true);
  }

  /** A queue of records waiting to be sent. */
  class VecDeque {
    var items: seq<seq<byte>>

    constructor ()
      ensures items == []
    {
      items := [];
    }

    method PushBack(item: seq<byte>)
      modifies this
      ensures items == old(items) + [item]
    {
      items := items + [item];
    }

    method PopFront() returns (item: seq<byte>)
      requires items != []
      modifies this
      ensures item == old(items)[0] && items == old(items)[1..]
    {
      item := items[0];
      items := items[1..];
    }
  }

  class TlsAeadCodec {
    const crypto: Crypto
    const isServer: bool
    var send: KeyIv
    var recv: KeyIv
    var sendSeq: nat
    var recvSeq: nat
    ghost var log: seq<Use>

    /** Every nonce this codec ever used for sealing is counted, over all key changes. */
    ghost predicate Valid()
      reads this
    {
      && Sensible(crypto) && |send.iv| == TLS13_IV_SIZE && |recv.iv| == TLS13_IV_SIZE
      && sendSeq == |log| % U64 && recvSeq < U64 && Counted(log)
    }

    ghost function Keys(): KeyPair
      reads this
    {
      KeyPair(send, recv)
    }

    constructor (crypto: Crypto, isServer: bool, clientSecret: seq<byte>, serverSecret: seq<byte>)
      requires Sensible(crypto)
      ensures Valid() && this.crypto == crypto && this.isServer == isServer && log == []
      ensures sendSeq == 0 && recvSeq == 0
      ensures Keys() == Installed(crypto, Keys(), NewSecrets(clientSecret, serverSecret), isServer)
      ensures Given(crypto, Keys(), Keys(), NewSecrets(clientSecret, serverSecret), isServer)
    {
      this.crypto, this.isServer := crypto, isServer;
      send, recv := KeyIv([], []), KeyIv([], []);
      sendSeq, recvSeq, log := 0, 0, [];
      new;
      ghost var before, secrets := Keys(), NewSecrets(clientSecret, serverSecret);
      Install(NewSecrets(clientSecret, serverSecret));
      BothReplaceAll(crypto, before, Keys(), clientSecret, serverSecret, isServer);
      assert Keys() == Installed(crypto, Keys(), secrets, isServer);
      InstalledIsGiven(crypto, Keys(), secrets, isServer);
    }

    /** New keys, same sequence numbers. */
    method UpdateTrafficSecrets(update: KeyUpdate)
      requires Valid()
      modifies this
      ensures Valid() && Keys() == Installed(crypto, old(Keys()), update, isServer)
      ensures sendSeq == old(sendSeq) && recvSeq == old(recvSeq) && log == old(log)
      ensures Given(crypto, old(Keys()), Keys(), update, isServer)
    {
      ghost var before := Keys();
      InstalledIsGiven(crypto, before, update, isServer);
      Install(update);
      assert Keys() == Installed(crypto, before, update, isServer);
    }

    method Install(update: KeyUpdate)
      requires Sensible(crypto)
      modifies this`send, this`recv
      ensures Keys() == Installed(crypto, old(Keys()), update, isServer)
    {
      match update {
        case NewClientSecret(s) =>
          if isServer { recv := ClientKeys(crypto, s); } else { send := ClientKeys(crypto, s); }
        case NewServerSecret(s) =>
          if isServer { send := ServerKeys(crypto, s); } else { recv := ServerKeys(crypto, s); }
        case NewSecrets(client, server) =>
          send := if isServer then ServerKeys(crypto, server) else ClientKeys(crypto, client);
          recv := if isServer then ClientKeys(crypto, client) else ServerKeys(crypto, server);
      }
    }

    /** Seals one chunk under the next sequence number. */
    method SealNext(chunk: seq<byte>) returns (record: seq<byte>)
      requires Valid()
      modifies this`sendSeq, this`log
      ensures Valid() && record == SealChunk(crypto, send, old(sendSeq), chunk)
      ensures sendSeq == Following(old(sendSeq), 1)
      ensures log == old(log) + [Use(send.key, send.iv, Nonce(send.iv, old(sendSeq)))]
    {
      UseIsCounted(log, send.key, send.iv);
      ModAdd(|log|, 1);
      var nonce := MakeIv(send.iv, sendSeq);
      record := crypto.seal(send.key, nonce.value, Header(|chunk| + TLS_AEAD_TAG_SIZE + 1), chunk + [TLS_APP_DATA]);
      log := log + [Use(send.key, send.iv, nonce.value)];
      sendSeq := (sendSeq + 1) % U64;
    }

    method Encrypt(data: seq<byte>, buffer: VecDeque)
      requires Valid()
      modifies this`sendSeq, this`log, buffer
      ensures Valid()
      ensures buffer.items == old(buffer.items) + SealChunks(crypto, send, old(sendSeq), Chunks(data))
      ensures sendSeq == Following(old(sendSeq), |Chunks(data)|)
      ensures log == old(log) + Uses(send, old(sendSeq), |Chunks(data)|)
    {
      var chunks := Chunks(data);
      var i := 0;
      while i < |chunks|
        invariant 0 <= i <= |chunks|
        invariant Valid()
        invariant sendSeq == Following(old(sendSeq), i)
        invariant log == old(log) + Uses(send, old(sendSeq), i)
        invariant buffer.items == old(buffer.items) + SealChunks(crypto, send, old(sendSeq), chunks[..i])
      {
        FollowingOne(old(sendSeq), i);
        var encrypted := SealNext(chunks[i]);
        buffer.PushBack(encrypted);
        i := i + 1;
      }
      assert chunks[..i] == chunks;
    }

    /** The other encryption path: it yields the frames of exactly the records that `Encrypt` queues. */
    method EncryptWithHeader(data: seq<byte>) returns (frames: seq<seq<byte>>)
      requires Valid()
      modifies this`sendSeq, this`log
      ensures Valid()
      ensures frames == FramesOf(SealChunks(crypto, send, old(sendSeq), Chunks(data)))
      ensures sendSeq == Following(old(sendSeq), |Chunks(data)|)
      ensures log == old(log) + Uses(send, old(sendSeq), |Chunks(data)|)
    {
      var chunks := Chunks(data);
      var i := 0;
      frames := [];
      while i < |chunks|
        invariant 0 <= i <= |chunks|
        invariant Valid()
        invariant sendSeq == Following(old(sendSeq), i)
        invariant log == old(log) + Uses(send, old(sendSeq), i)
        invariant frames == FramesOf(SealChunks(crypto, send, old(sendSeq), chunks[..i]))
      {
        FollowingOne(old(sendSeq), i);
        var encrypted := SealNext(chunks[i]);
        frames := frames + [[TLS_APP_DATA] + TLS_VERSION + BigEndian16(|encrypted| % U16) + encrypted];
        i := i + 1;
      }
      assert chunks[..i] == chunks;
    }

    /** A record that does not open leaves the sequence number alone. */
    method Decrypt(ciphertext: seq<byte>, associatedData: seq<byte>) returns (r: Result<seq<byte>, CodecError>)
      requires Valid()
      modifies this`recvSeq
      ensures Valid() && r == OpenRecord(crypto, recv, old(recvSeq), Packet(associatedData, ciphertext))
      ensures recvSeq == if r == Err(InvalidMac) then old(recvSeq) else Following(old(recvSeq), 1)
      ensures
        match crypto.open(recv.key, Nonce(recv.iv, old(recvSeq)), associatedData, ciphertext)
        case None => r == Err(InvalidMac) && recvSeq == old(recvSeq)
        case Some(p) =>
          && recvSeq == (old(recvSeq) + 1) % U64
          && (if p == [] then r == Err(EmptyPlaintext) else r.Ok? && p == r.value + [p[|p| - 1]])
    {
      var nonce := MakeIv(recv.iv, recvSeq);
      var m := crypto.open(recv.key, nonce.value, associatedData, ciphertext);
      if m.None? {
        return Err(InvalidMac);
      }
      recvSeq := (recvSeq + 1) % U64;
      if m.value == [] {
        return Err(EmptyPlaintext);
      }
      return Ok(m.value[..|m.value| - 1]);
    }

    /** Beyond the two special lengths the first five bytes are the associated data and all others the
        ciphertext, whatever the header's length field says. */
    method DecryptWithHeader(data: seq<byte>) returns (r: Result<seq<byte>, CodecError>)
      requires Valid()
      modifies this`recvSeq
      ensures Valid()
      ensures |data| < 22 ==> r == Err(NotEnoughData) && recvSeq == old(recvSeq)
      ensures |data| == 22 ==> r == Ok([]) && recvSeq == old(recvSeq)
      ensures
        |data| > 22 ==>
          && r == OpenRecord(crypto, recv, old(recvSeq), Packet(data[..TLS_HDR_SIZE], data[TLS_HDR_SIZE..]))
          && recvSeq == (if r == Err(InvalidMac) then old(recvSeq) else Following(old(recvSeq), 1))
          && match crypto.open(recv.key, Nonce(recv.iv, old(recvSeq)), data[..5], data[5..])
             case None => r == Err(InvalidMac) && recvSeq == old(recvSeq)
             case Some(p) =>
               && recvSeq == (old(recvSeq) + 1) % U64
               && (if p == [] then r == Err(EmptyPlaintext) else r.Ok? && p == r.value + [p[|p| - 1]])
    {
      if |data| < MIN_RECORD_SIZE {
        return Err(NotEnoughData);
      }
      if |data| == MIN_RECORD_SIZE {
        return Ok([]);
      }
      r := Decrypt(data[TLS_HDR_SIZE..], data[..TLS_HDR_SIZE]);
    }
  }
}
