/**
 The record layer end to end: messages sealed under changing keys, framed, sent as a byte stream
 and cut into arbitrary reads, come out at a receiver with the same keys as they went in.
 */
module Pipeline {
  import opened Wrappers
  import opened Bytes
  import opened Frames
  import opened KeyLabels
  import opened AeadCodec

  /** A message and the keys in force when it is sent. Sequence numbers run on over key changes. */
  datatype Message = Message(keys: KeyIv, data: seq<byte>)

  /** Each message fits one record, as the receiver, which does not reassemble records, needs. */
  ghost predicate Deliverable(messages: seq<Message>) {
    forall i :: 0 <= i < |messages| ==>
                  |messages[i].keys.iv| == TLS13_IV_SIZE && 0 < |messages[i].data| <= MAX_RECORD
  }

  function Sealed(c: Crypto, seqNo: nat, messages: seq<Message>): (records: seq<seq<byte>>)
    requires Deliverable(messages)
    ensures |records| == |messages|
  {
    seq(|messages|, i requires 0 <= i < |messages| =>
      SealChunk(c, messages[i].keys, Following(seqNo, i), messages[i].data))
  }

  /** The sender's view: a deliverable message is one record of the codec. */
  lemma OneRecordEach(c: Crypto, seqNo: nat, messages: seq<Message>, i: nat)
    requires Deliverable(messages) && i < |messages|
    ensures SealChunks(c, messages[i].keys, Following(seqNo, i), Chunks(messages[i].data))
         == [Sealed(c, seqNo, messages)[i]]
  {
    OneRecordIff(messages[i].data);
    assert Following(Following(seqNo, i), 0) == Following(seqNo, i);
  }

  /** Every message arrives, unchanged and in order, in whatever pieces the bytes of the stream come. */
  lemma EndToEnd(c: Crypto, seqNo: nat, messages: seq<Message>, arrivals: seq<seq<byte>>)
    requires Sensible(c) && Deliverable(messages)
    requires Concat(arrivals) == EncodeAll(Sealed(c, seqNo, messages))
    ensures
      var packets := Feed([], arrivals).packets;
      && |packets| == |messages|
      && (forall i :: 0 <= i < |messages| ==>
                        OpenRecord(c, messages[i].keys, Following(seqNo, i), packets[i]) == Ok(messages[i].data))
      && Feed([], arrivals).rest == []
  {
    var records := Sealed(c, seqNo, messages);
    forall i | 0 <= i < |messages|
      ensures |records[i]| < U16
      ensures OpenRecord(c, messages[i].keys, Following(seqNo, i), PacketOf(records[i])) == Ok(messages[i].data)
    {
      SealedHeader(c, messages[i].keys, Following(seqNo, i), messages[i].data);
    }
    StreamRoundTrip(records, arrivals);
  }

  /** A part of the stream delivers a prefix of the messages. */
  lemma EndToEndPrefix(c: Crypto, seqNo: nat, messages: seq<Message>, arrivals: seq<seq<byte>>) returns (k: nat)
    requires Sensible(c) && Deliverable(messages)
    requires Concat(arrivals) <= EncodeAll(Sealed(c, seqNo, messages))
    ensures
      var packets := Feed([], arrivals).packets;
      && |packets| == k <= |messages|
      && (forall i :: 0 <= i < k ==>
                        OpenRecord(c, messages[i].keys, Following(seqNo, i), packets[i]) == Ok(messages[i].data))
  {
    var records := Sealed(c, seqNo, messages);
    forall i | 0 <= i < |messages|
      ensures |records[i]| < U16
      ensures OpenRecord(c, messages[i].keys, Following(seqNo, i), PacketOf(records[i])) == Ok(messages[i].data)
    {
      SealedHeader(c, messages[i].keys, Following(seqNo, i), messages[i].data);
    }
    k := StreamPrefix(records, arrivals);
  }

  /** The two encryption paths produce the same bytes: the frames of the one, put together, are the
      stream of frames of the records of the other. */
  lemma {:induction false} FramesAreTheStream(records: seq<seq<byte>>)
    ensures Concat(FramesOf(records)) == EncodeAll(records)
  {
    if records != [] {
      assert FramesOf(records)[1..] == FramesOf(records[1..]);
      FramesAreTheStream(records[1..]);
    }
  }

  /** The header-carrying decryption of a produced frame: it is never the smallest record, and it is
      frame decoding followed by opening. */
  lemma ProducedFrames(c: Crypto, k: KeyIv, seqNo: nat, data: seq<byte>, i: nat)
    requires Sensible(c) && |k.iv| == TLS13_IV_SIZE && i < |Chunks(data)|
    ensures
      var frame := FramesOf(SealChunks(c, k, seqNo, Chunks(data)))[i];
      && |frame| > MIN_RECORD_SIZE
      && DecodeFrame(frame).Frame? && DecodeFrame(frame).packet == Packet(frame[..TLS_HDR_SIZE], frame[TLS_HDR_SIZE..])
      && DecodeFrame(frame) == Frame(PacketOf(SealChunks(c, k, seqNo, Chunks(data))[i]), [])
      && OpenRecord(c, k, Following(seqNo, i), DecodeFrame(frame).packet) == Ok(Chunks(data)[i])
  {
    ChunksPartition(data);
    SealedHeader(c, k, Following(seqNo, i), Chunks(data)[i]);
    RoundTripIff(SealChunks(c, k, seqNo, Chunks(data))[i]);
  }
}
