/**
 The buffered encrypting sink of src/tls_aead/stream_sink.rs over an inner sink that answers
 "ready", "pending" or an error as it likes, and the decrypting stream.
 */
module StreamSink {
  import opened Wrappers
  import opened Bytes
  import opened Frames
  import opened AeadCodec
  import opened Nonces
  import opened Words

  datatype Poll = Ready | Pending | Failed

  /** Answer number `i`; after the list the transport stays pending. */
  function AnswerAt(answers: seq<Poll>, i: nat): Poll {
    if i < |answers| then answers[i] else Pending
  }

  /** Whether record number `i` will be refused; after the list nothing is. */
  predicate RefusedAt(refusals: seq<bool>, i: nat) {
    i < |refusals| && refusals[i]
  }

  function Later<T>(s: seq<T>, n: nat): seq<T> {
    if n <= |s| then s[n..] else []
  }

  /** The next `n` answers are ready. */
  predicate ReadyFor(answers: seq<Poll>, n: nat) {
    forall i :: 0 <= i < n ==> AnswerAt(answers, i).Ready?
  }

  /** The next `n` records are accepted. */
  predicate Accepted(refusals: seq<bool>, n: nat) {
    forall i :: 0 <= i < n ==> !RefusedAt(refusals, i)
  }

  lemma LaterAt(answers: seq<Poll>, refusals: seq<bool>, n: nat)
    ensures RefusedAt(Later(refusals, n), 0) == RefusedAt(refusals, n)
    ensures Later(Later(refusals, n), 1) == Later(refusals, n + 1)
    ensures AnswerAt(Later(answers, n), 0) == AnswerAt(answers, n)
    ensures Later(Later(answers, n), 1) == Later(answers, n + 1)
    ensures AnswerAt(Later(answers, n + 1), 0) == AnswerAt(answers, n + 1)
    ensures Later(Later(answers, n + 1), 1) == Later(answers, n + 2)
  {
  }

  /** Record `n` moves from the buffer to the transport. */
  lemma NextHanded(handed: seq<seq<byte>>, items: seq<seq<byte>>, n: nat)
    requires n < |items|
    ensures items[n..][0] == items[n] && items[n..][1..] == items[n + 1..]
    ensures handed + items[..n] + [items[n]] == handed + items[..n + 1]
    ensures handed + items[..n + 1] + items[n + 1..] == handed + items
  {
  }

  /** A result that is not ready was answered by the transport within its first `n + 1` answers, or a
      failure by its refusing one of the first `n + 1` records. */
  ghost predicate Explained(p: Poll, answers: seq<Poll>, refusals: seq<bool>, n: nat) {
    match p
    case Ready => true
    case Pending => exists i: nat :: i <= n && AnswerAt(answers, i).Pending?
    case Failed => exists i: nat :: i <= n && (AnswerAt(answers, i).Failed? || RefusedAt(refusals, i))
  }

  /** Emptying a buffer of `n` records asks the transport at least once. */
  function Asked(n: nat): nat {
    if n == 0 then 1 else n
  }

  /** The transport lets a buffer of `n` records through. */
  predicate Passes(answers: seq<Poll>, refusals: seq<bool>, n: nat) {
    ReadyFor(answers, Asked(n)) && Accepted(refusals, n)
  }

  /** The transport under the sink. Its answers are given in advance, as an arbitrary list; after the
      list it stays pending. An item may be handed over only after a ready answer. */
  class InnerSink {
    var answers: seq<Poll>
    var refusals: seq<bool>
    var handed: seq<seq<byte>>
    ghost var ready: bool

    constructor (answers: seq<Poll>, refusals: seq<bool>)
      ensures this.answers == answers && this.refusals == refusals && handed == [] && !ready
    {
      this.answers, this.refusals := answers, refusals;
      handed, ready := [], false;
    }

    method Answer() returns (p: Poll)
      modifies this`answers
      ensures p == AnswerAt(old(answers), 0) && answers == Later(old(answers), 1)
    {
      if answers == [] {
        return Pending;
      }
      p := answers[0];
      answers := answers[1..];
    }

    method PollReady() returns (p: Poll)
      modifies this`answers, this`ready
      ensures p == AnswerAt(old(answers), 0) && answers == Later(old(answers), 1)
      ensures ready == (old(ready) || p.Ready?)
    {
      p := Answer();
      ready := ready || p.Ready?;
    }

    method StartSend(item: seq<byte>) returns (accepted: bool)
      requires ready
      modifies this`refusals, this`handed, this`ready
      ensures !ready
      ensures accepted == !RefusedAt(old(refusals), 0) && refusals == Later(old(refusals), 1)
      ensures handed == if accepted then old(handed) + [item] else old(handed)
    {
      accepted := refusals == [] || !refusals[0];
      refusals := if refusals == [] then [] else refusals[1..];
      if accepted {
        handed := handed + [item];
      }
      ready := false;
    }
  }

  class TlsAeadSink {
    const inner: InnerSink
    const cipher: TlsAeadCodec
    const buffer: VecDeque
    ghost var encrypted: seq<seq<byte>>  // every record encrypted so far
    ghost var intact: bool  // the transport has not refused a record

    /** Over the whole life of the sink: what the transport got, followed by what waits, is everything
        encrypted so far, in order, until the transport itself refuses a record. */
    ghost predicate Valid()
      reads this, cipher, inner, buffer
    {
      cipher.Valid() && Kept()
    }

    ghost predicate Kept()
      reads this, inner, buffer
    {
      intact ==> inner.handed + buffer.items == encrypted
    }

    constructor (inner: InnerSink, cipher: TlsAeadCodec)
      requires cipher.Valid() && inner.handed == []
      ensures Valid() && intact && encrypted == []
      ensures this.inner == inner && this.cipher == cipher && fresh(buffer) && buffer.items == []
    {
      this.inner, this.cipher := inner, cipher;
      buffer := new VecDeque();
      encrypted, intact := [], true;
    }

    /** Hands records over as long as the transport is ready. Exactly `n` records go, in order, one for each
        ready answer that is not followed by a refusal; it stops early only at an answer that is not ready,
        which it passes on, or at a refusal, which loses the one record refused. */
    method TryEmptyBuffer() returns (p: Poll, ghost n: nat, ghost refused: bool)
      requires Valid()
      modifies inner, buffer, this`intact
      ensures Valid() && (intact <==> old(intact) && !refused)
      ensures n <= |old(buffer.items)| && (refused ==> n < |old(buffer.items)|)
      ensures inner.handed == old(inner.handed) + old(buffer.items)[..n]
      ensures buffer.items == old(buffer.items)[if refused then n + 1 else n..]
      ensures ReadyFor(old(inner.answers), n) && Accepted(old(inner.refusals), n)
      ensures refused ==> p.Failed? && AnswerAt(old(inner.answers), n).Ready? && RefusedAt(old(inner.refusals), n)
      ensures
        !p.Ready? && !refused ==>
          n < Asked(|old(buffer.items)|) && p == AnswerAt(old(inner.answers), n)
      ensures p.Ready? <==> Passes(old(inner.answers), old(inner.refusals), |old(buffer.items)|)
      ensures p.Ready? ==> n == |old(buffer.items)|
      ensures inner.answers == Later(old(inner.answers), if p.Ready? then Asked(n) else n + 1)
      ensures inner.refusals == Later(old(inner.refusals), if refused then n + 1 else n)
    {
      ghost var handed, items := inner.handed, buffer.items;
      p, n, refused := DrainBuffer();
      intact := intact && !refused;
      assert handed + items == handed + items[..n] + items[n..];
    }

    /** The loop, in terms of the transport and the buffer. */
    method DrainBuffer() returns (p: Poll, ghost n: nat, ghost refused: bool)
      modifies inner, buffer
      ensures n <= |old(buffer.items)| && (refused ==> n < |old(buffer.items)|)
      ensures inner.handed == old(inner.handed) + old(buffer.items)[..n]
      ensures buffer.items == old(buffer.items)[if refused then n + 1 else n..]
      ensures ReadyFor(old(inner.answers), n) && Accepted(old(inner.refusals), n)
      ensures refused ==> p.Failed? && AnswerAt(old(inner.answers), n).Ready? && RefusedAt(old(inner.refusals), n)
      ensures
        !p.Ready? && !refused ==>
          n < Asked(|old(buffer.items)|) && p == AnswerAt(old(inner.answers), n)
      ensures p.Ready? ==> n == |old(buffer.items)| && !refused && ReadyFor(old(inner.answers), Asked(n))
      ensures inner.answers == Later(old(inner.answers), if p.Ready? then Asked(n) else n + 1)
      ensures inner.refusals == Later(old(inner.refusals), if refused then n + 1 else n)
    {
      n, refused := 0, false;
      ghost var handed, items, answers, refusals := inner.handed, buffer.items, inner.answers, inner.refusals;
      ghost var asked := 1;
      p := inner.PollReady();
      if !p.Ready? {
        assert items[..0] == [] && items[0..] == items;
        return;
      }
      while buffer.items != []
        invariant n <= |items| && buffer.items == items[n..] && inner.handed == handed + items[..n]
        invariant inner.refusals == Later(refusals, n) && Accepted(refusals, n)
        invariant asked == if n < |items| then n + 1 else Asked(n)
        invariant inner.answers == Later(answers, asked) && ReadyFor(answers, asked)
        invariant n < |items| ==> inner.ready
        decreases |items| - n
      {
        NextHanded(handed, items, n);
        LaterAt(answers, refusals, n);
        var accepted := HandOver();
        if !accepted {
          refused := true;
          return Failed, n, refused;
        }
        n := n + 1;
        if buffer.items != [] {
          p := inner.PollReady();
          if !p.Ready? {
            return;
          }
          asked := asked + 1;
        }
      }
      p := Ready;
    }

    /** The first record leaves the buffer, for the transport or, if that refuses it, for good. */
    method HandOver() returns (accepted: bool)
      requires buffer.items != [] && inner.ready
      modifies inner`handed, inner`refusals, inner`ready, buffer
      ensures buffer.items == old(buffer.items)[1..]
      ensures accepted == !RefusedAt(old(inner.refusals), 0) && inner.refusals == Later(old(inner.refusals), 1)
      ensures inner.handed == if accepted then old(inner.handed) + [old(buffer.items)[0]] else old(inner.handed)
    {
      var item := buffer.PopFront();
      accepted := inner.StartSend(item);
    }

    /** Ready exactly if the buffer went through and the transport is ready again. */
    method PollReady() returns (p: Poll)
      requires Valid()
      modifies inner, buffer, this`intact
      ensures Valid() && (old(intact) && !p.Failed? ==> intact)
      ensures p.Ready? ==> buffer.items == [] && inner.ready
      ensures
        p.Ready? <==>
        && Passes(old(inner.answers), old(inner.refusals), |old(buffer.items)|)
        && AnswerAt(old(inner.answers), Asked(|old(buffer.items)|)).Ready?
      ensures Explained(p, old(inner.answers), old(inner.refusals), Asked(|old(buffer.items)|))
      ensures p.Ready? ==> inner.handed == old(inner.handed) + old(buffer.items)
    {
      ghost var n, refused;
      p, n, refused := TryEmptyBuffer();
      if p.Ready? {
        p := inner.PollReady();
      }
    }

    /** Encrypts the item and queues its records behind everything that is on its way. */
    method StartSend(item: seq<byte>)
      requires Valid()
      modifies cipher, buffer, this`encrypted
      ensures Valid()
      ensures encrypted == old(encrypted) + SealChunks(cipher.crypto, cipher.send, old(cipher.sendSeq), Chunks(item))
      ensures
        buffer.items
        == old(buffer.items) + SealChunks(cipher.crypto, cipher.send, old(cipher.sendSeq), Chunks(item))
      ensures cipher.send == old(cipher.send) && cipher.recv == old(cipher.recv)
      ensures cipher.recvSeq == old(cipher.recvSeq)
      ensures cipher.sendSeq == Following(old(cipher.sendSeq), |Chunks(item)|)
    {
      ghost var records := SealChunks(cipher.crypto, cipher.send, cipher.sendSeq, Chunks(item));
      cipher.Encrypt(item, buffer);
      encrypted := encrypted + records;
    }

    /** A flush that reports ready has handed every record encrypted so far to the transport. */
    method PollFlush() returns (p: Poll)
      requires Valid()
      modifies inner, buffer, this`intact
      ensures Valid() && (old(intact) && !p.Failed? ==> intact)
      ensures p.Ready? ==> buffer.items == [] && (old(intact) ==> inner.handed == encrypted)
      ensures
        p.Ready? <==>
        && Passes(old(inner.answers), old(inner.refusals), |old(buffer.items)|)
        && AnswerAt(old(inner.answers), Asked(|old(buffer.items)|)).Ready?
      ensures Explained(p, old(inner.answers), old(inner.refusals), Asked(|old(buffer.items)|))
      ensures p.Ready? ==> inner.handed == old(inner.handed) + old(buffer.items)
    {
      ghost var n, refused;
      p, n, refused := TryEmptyBuffer();
      if p.Ready? {
        p := inner.Answer();
      }
    }

    /** Closing hands everything over in the same way before the transport is closed. */
    method PollClose() returns (p: Poll)
      requires Valid()
      modifies inner, buffer, this`intact
      ensures Valid() && (old(intact) && !p.Failed? ==> intact)
      ensures p.Ready? ==> buffer.items == [] && (old(intact) ==> inner.handed == encrypted)
      ensures
        p.Ready? <==>
        && Passes(old(inner.answers), old(inner.refusals), |old(buffer.items)|)
        && AnswerAt(old(inner.answers), Asked(|old(buffer.items)|)).Ready?
      ensures Explained(p, old(inner.answers), old(inner.refusals), Asked(|old(buffer.items)|))
      ensures p.Ready? ==> inner.handed == old(inner.handed) + old(buffer.items)
    {
      ghost var n, refused;
      p, n, refused := TryEmptyBuffer();
      if p.Ready? {
        p := inner.Answer();
      }
    }
  }

  /** `poll_next` on a packet: it is opened with its own header as associated data, and keeps it. */
  method PollNext(cipher: TlsAeadCodec, packet: Packet) returns (r: Result<Packet, CodecError>)
    requires cipher.Valid()
    modifies cipher`recvSeq
    ensures cipher.Valid()
    ensures
      match OpenRecord(cipher.crypto, cipher.recv, old(cipher.recvSeq), packet)
      case Err(e) => r == Err(e)
      case Ok(m) => r == Ok(Packet(packet.header, m))
    ensures cipher.recvSeq == if r == Err(InvalidMac) then old(cipher.recvSeq) else Following(old(cipher.recvSeq), 1)
    ensures
      match cipher.crypto.open(cipher.recv.key, Nonce(cipher.recv.iv, old(cipher.recvSeq)), packet.header, packet.data)
      case None => r == Err(InvalidMac) && cipher.recvSeq == old(cipher.recvSeq)
      case Some(p) =>
        && cipher.recvSeq == (old(cipher.recvSeq) + 1) % U64
        && (if p == [] then r == Err(EmptyPlaintext)
            else r.Ok? && r.value.header == packet.header && p == r.value.data + [p[|p| - 1]])
    ensures
      Authentic(cipher.crypto) && r.Ok? ==>
        SealedUnder(cipher.crypto, cipher.recv.key, Nonce(cipher.recv.iv, old(cipher.recvSeq)),
                    packet.header, packet.data, r.value.data)
  {
    ghost var nonce := Nonce(cipher.recv.iv, cipher.recvSeq);
    ghost var p := cipher.crypto.open(cipher.recv.key, nonce, packet.header, packet.data);
    var plaintext := cipher.Decrypt(packet.data, packet.header);
    match plaintext
    case Err(e) => return Err(e);
    case Ok(m) =>
      ghost var last := p.value[|p.value| - 1];
      assert p.value == m + [last];
      assert Authentic(cipher.crypto) ==>
          packet.data == cipher.crypto.seal(cipher.recv.key, nonce, packet.header, m + [last]);
      return Ok(Packet(packet.header, m));
  }
}
