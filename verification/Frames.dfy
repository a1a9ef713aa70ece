/**
 The frame codec of src/tls_aead/codec.rs: a five-byte header whose last two bytes give the length
 of the payload. `Drain` is what a reader gets out of a buffer by decoding until nothing is left to
 decode; the theorems say that this does not depend on how the bytes arrived.
 */
module Frames {
  import opened Wrappers
  import opened Bytes

  const TLS_APP_DATA: byte := 0x17
  const TLS_VERSION: seq<byte> := [3, 3]
  const TLS_HDR_SIZE := 5

  datatype Packet = Packet(header: seq<byte>, data: seq<byte>)

  /** The header of a payload of `n` bytes; the length field is 16 bits wide and truncates. */
  function Header(n: nat): (h: seq<byte>)
    ensures |h| == TLS_HDR_SIZE && Number16(h[3..5]) == n % U16
  {
    var h := [TLS_APP_DATA] + TLS_VERSION + BigEndian16(n % U16);
    assert h[3..5] == BigEndian16(n % U16);
    h
  }

  function EncodeFrame(data: seq<byte>): seq<byte> {
    Header(|data|) + data
  }

  datatype Decoded = NeedMore | Frame(packet: Packet, rest: seq<byte>)

  function DecodeFrame(src: seq<byte>): Decoded {
    if |src| < TLS_HDR_SIZE then NeedMore
    else
      var length := Number16(src[3..5]);
      if |src| < length + TLS_HDR_SIZE then NeedMore
      else Frame(Packet(src[..TLS_HDR_SIZE], src[TLS_HDR_SIZE..TLS_HDR_SIZE + length]), src[TLS_HDR_SIZE + length..])
  }

  /** A growable byte buffer. */
  class BytesMut {
    var bytes: seq<byte>

    constructor ()
      ensures bytes == []
    {
      bytes := [];
    }

    method SplitTo(n: nat) returns (front: seq<byte>)
      requires n <= |bytes|
      modifies this
      ensures front == old(bytes)[..n] && bytes == old(bytes)[n..]
    {
      front := bytes[..n];
      bytes := bytes[n..];
    }
  }

  /** Without a complete frame the buffer is left alone; otherwise exactly the frame is split off. */
  method Decode(src: BytesMut) returns (packet: Option<Packet>)
    modifies src
    ensures match DecodeFrame(old(src.bytes))
            case NeedMore => packet == None && src.bytes == old(src.bytes)
            case Frame(p, rest) => packet == Some(p) && src.bytes == rest && old(src.bytes) == p.header + p.data + rest
  {
    if |src.bytes| < TLS_HDR_SIZE {
      return None;
    }
    var length := Number16(src.bytes[3..5]);
    if |src.bytes| < length + TLS_HDR_SIZE {
      return None;
    }
    ghost var whole := src.bytes;
    var header := src.SplitTo(TLS_HDR_SIZE);
    var data := src.SplitTo(length);
    assert whole[TLS_HDR_SIZE..][..length] == whole[TLS_HDR_SIZE..TLS_HDR_SIZE + length];
    assert whole[TLS_HDR_SIZE..][length..] == whole[TLS_HDR_SIZE + length..];
    return Some(Packet(header, data));
  }

  method Encode(data: seq<byte>, dst: BytesMut)
    modifies dst
    ensures dst.bytes == old(dst.bytes) + EncodeFrame(data)
  {
    var length := |data| % U16;
    dst.bytes := dst.bytes + [TLS_APP_DATA];
    dst.bytes := dst.bytes + TLS_VERSION;
    dst.bytes := dst.bytes + BigEndian16(length);
    dst.bytes := dst.bytes + data;
    assert dst.bytes == old(dst.bytes) + EncodeFrame(data);
  }

  // ----- one frame -----

  /** The five bytes of every header: content type 23, version 3.3, and the length. */
  lemma HeaderBytes(n: nat)
    ensures Header(n) == [0x17, 3, 3, ByteOf(n % 0x1_0000 / 256), ByteOf(n % 0x1_0000 % 256)]
  {
  }

  lemma ShortHeader(n: nat)
    requires n < 0x1_0000
    ensures Header(n) == [0x17, 3, 3, ByteOf(n / 256), ByteOf(n % 256)]
  {
    assert n % 0x1_0000 == n;
    HeaderBytes(n);
  }

  /** Decoding depends on the length field alone: whatever the other three bytes of the header say, there
      is a frame if and only if the bytes it announces are there. */
  lemma DecodesIff(src: seq<byte>)
    ensures DecodeFrame(src).Frame? <==> |src| >= 5 && |src| >= 5 + ToNat(src[3]) * 256 + ToNat(src[4])
    ensures
      DecodeFrame(src).Frame? ==>
        var d := DecodeFrame(src);
        && |d.packet.header| == 5 && |d.packet.data| == ToNat(src[3]) * 256 + ToNat(src[4])
        && d.packet.header + d.packet.data + d.rest == src
  {
  }

  function PacketOf(data: seq<byte>): Packet {
    Packet(Header(|data|), data)
  }

  /** A payload comes back as one packet, with nothing left over, exactly if its length fits 16 bits. */
  lemma RoundTripIff(data: seq<byte>)
    ensures DecodeFrame(EncodeFrame(data)) == Frame(PacketOf(data), []) <==> |data| < U16
  {
    var src := EncodeFrame(data);
    assert src[3..5] == Header(|data|)[3..5];
    assert src[..TLS_HDR_SIZE] == Header(|data|);
    if |data| < U16 {
      assert src[TLS_HDR_SIZE..TLS_HDR_SIZE + |data|] == data;
    }
  }

  lemma DecodeOne(data: seq<byte>, rest: seq<byte>)
    requires |data| < U16
    ensures DecodeFrame(EncodeFrame(data) + rest) == Frame(PacketOf(data), rest)
  {
    var src := EncodeFrame(data) + rest;
    assert src[3..5] == Header(|data|)[3..5];
    assert src[..TLS_HDR_SIZE] == Header(|data|);
    assert src[TLS_HDR_SIZE..TLS_HDR_SIZE + |data|] == data;
    assert src[TLS_HDR_SIZE + |data|..] == rest;
  }

  /** More bytes behind a complete frame do not change how it is decoded. */
  lemma DecodeExtended(src: seq<byte>, more: seq<byte>)
    requires DecodeFrame(src).Frame?
    ensures DecodeFrame(src + more) == Frame(DecodeFrame(src).packet, DecodeFrame(src).rest + more)
  {
    var length := Number16(src[3..5]);
    assert (src + more)[3..5] == src[3..5];
    assert (src + more)[..TLS_HDR_SIZE] == src[..TLS_HDR_SIZE];
    assert (src + more)[TLS_HDR_SIZE..TLS_HDR_SIZE + length] == src[TLS_HDR_SIZE..TLS_HDR_SIZE + length];
    assert (src + more)[TLS_HDR_SIZE + length..] == src[TLS_HDR_SIZE + length..] + more;
  }

  // ----- a stream of frames -----

  datatype Drained = Drained(packets: seq<Packet>, rest: seq<byte>)

  function Drain(src: seq<byte>): Drained
    decreases |src|
  {
    match DecodeFrame(src)
    case NeedMore => Drained([], src)
    case Frame(p, rest) => var d := Drain(rest); Drained([p] + d.packets, d.rest)
  }

  /** Append one read to what is left over, decode what is complete, and go on with the next read. */
  function Feed(left: seq<byte>, arrivals: seq<seq<byte>>): Drained
    decreases |arrivals|
  {
    if arrivals == [] then Drained([], left)
    else
      var d := Drain(left + arrivals[0]);
      var f := Feed(d.rest, arrivals[1..]);
      Drained(d.packets + f.packets, f.rest)
  }

  lemma {:induction false} DrainInTwo(a: seq<byte>, b: seq<byte>)
    ensures Drain(a + b) == Drained(Drain(a).packets + Drain(Drain(a).rest + b).packets, Drain(Drain(a).rest + b).rest)
    decreases |a|
  {
    match DecodeFrame(a)
    case NeedMore =>
      assert [] + Drain(a + b).packets == Drain(a + b).packets;
    case Frame(p, rest) =>
      DecodeExtended(a, b);
      DrainInTwo(rest, b);
      assert [p] + (Drain(rest).packets + Drain(Drain(rest).rest + b).packets)
          == [p] + Drain(rest).packets + Drain(Drain(rest).rest + b).packets;
  }

  lemma {:induction false} DrainIsStable(a: seq<byte>)
    ensures DecodeFrame(Drain(a).rest).NeedMore?
    decreases |a|
  {
    match DecodeFrame(a)
    case NeedMore =>
    case Frame(_, rest) => DrainIsStable(rest);
  }

  lemma FeedStep(left: seq<byte>, arrivals: seq<seq<byte>>, later: seq<byte>)
    requires arrivals != []
    requires
      var rest := Drain(left + arrivals[0]).rest;
      Feed(rest, arrivals[1..]) == Drain(rest + later)
    ensures Feed(left, arrivals) == Drain(left + arrivals[0] + later)
  {
    DrainInTwo(left + arrivals[0], later);
  }

  lemma ConcatFirst(left: seq<byte>, arrivals: seq<seq<byte>>)
    requires arrivals != []
    ensures left + Concat(arrivals) == left + arrivals[0] + Concat(arrivals[1..])
  {
  }

  /** What is left over decodes to nothing more. */
  ghost predicate Exhausted(left: seq<byte>) {
    Drain(left) == Drained([], left)
  }

  lemma DrainExhausts(a: seq<byte>)
    ensures Exhausted(Drain(a).rest)
  {
    DrainIsStable(a);
  }

  /** Arrival does not matter: any way of cutting a stream into reads yields the packets, and leaves
      the rest, of the stream as a whole. */
  lemma {:induction false} ArrivalDoesNotMatter(left: seq<byte>, arrivals: seq<seq<byte>>)
    requires Exhausted(left)
    ensures Feed(left, arrivals) == Drain(left + Concat(arrivals))
    decreases |arrivals|
  {
    if arrivals == [] {
      assert left + Concat(arrivals) == left;
    } else {
      ArrivalStep(left, arrivals);
    }
  }

  lemma {:induction false} ArrivalStep(left: seq<byte>, arrivals: seq<seq<byte>>)
    requires arrivals != []
    ensures Feed(left, arrivals) == Drain(left + Concat(arrivals))
    decreases |arrivals|, 0
  {
    var rest := Drain(left + arrivals[0]).rest;
    DrainExhausts(left + arrivals[0]);
    ArrivalDoesNotMatter(rest, arrivals[1..]);
    FeedStep(left, arrivals, Concat(arrivals[1..]));
    ConcatFirst(left, arrivals);
  }

  function EncodeAll(payloads: seq<seq<byte>>): seq<byte> {
    if payloads == [] then [] else EncodeFrame(payloads[0]) + EncodeAll(payloads[1..])
  }

  function Packets(payloads: seq<seq<byte>>): (p: seq<Packet>)
    ensures |p| == |payloads|
  {
    seq(|payloads|, i requires 0 <= i < |payloads| => PacketOf(payloads[i]))
  }

  predicate Short(payloads: seq<seq<byte>>) {
    forall i :: 0 <= i < |payloads| ==> |payloads[i]| < U16
  }

  /** A strict prefix of one frame is not decoded. */
  lemma PartialFrame(data: seq<byte>, n: nat)
    requires |data| < U16 && n < |EncodeFrame(data)|
    ensures DecodeFrame(EncodeFrame(data)[..n]).NeedMore?
  {
    var src := EncodeFrame(data)[..n];
    if n >= TLS_HDR_SIZE {
      assert src[3..5] == Header(|data|)[3..5];
    }
  }

  lemma DrainFirst(data: seq<byte>, tail: seq<byte>)
    requires |data| < U16
    ensures Drain(EncodeFrame(data) + tail) == Drained([PacketOf(data)] + Drain(tail).packets, Drain(tail).rest)
  {
    DecodeOne(data, tail);
  }

  lemma PacketsOfPrefix(payloads: seq<seq<byte>>, j: nat)
    requires j < |payloads|
    ensures Packets(payloads[..j + 1]) == [PacketOf(payloads[0])] + Packets(payloads[1..][..j])
    ensures EncodeAll(payloads[..j + 1]) == EncodeFrame(payloads[0]) + EncodeAll(payloads[1..][..j])
  {
    assert payloads[..j + 1][1..] == payloads[1..][..j];
  }

  /** The state of a reader that got `src` of the frames of `payloads`: the first `k` packets are out
      and a strict prefix of the next frame, if there is one, is left. */
  ghost predicate Progress(payloads: seq<seq<byte>>, src: seq<byte>, d: Drained, k: nat) {
    && k <= |payloads|
    && d.packets == Packets(payloads[..k])
    && EncodeAll(payloads[..k]) + d.rest == src
    && if k == |payloads| then d.rest == [] else d.rest < EncodeFrame(payloads[k])
  }

  lemma ProgressFirst(payloads: seq<seq<byte>>, tail: seq<byte>, d: Drained, j: nat)
    requires payloads != [] && Progress(payloads[1..], tail, d, j)
    ensures Progress(payloads, EncodeFrame(payloads[0]) + tail,
                     Drained([PacketOf(payloads[0])] + d.packets, d.rest), j + 1)
  {
    PacketsOfPrefix(payloads, j);
    var frame, done := EncodeFrame(payloads[0]), EncodeAll(payloads[1..][..j]);
    assert (frame + done) + d.rest == frame + (done + d.rest);
  }

  /** After any number of bytes of a stream of frames, some number of payloads has come out. */
  lemma {:induction false} DrainPrefix(payloads: seq<seq<byte>>, n: nat) returns (k: nat)
    requires Short(payloads) && n <= |EncodeAll(payloads)|
    ensures Progress(payloads, EncodeAll(payloads)[..n], Drain(EncodeAll(payloads)[..n]), k)
    decreases |payloads|
  {
    if payloads == [] {
      return 0;
    }
    var frame, tail := EncodeFrame(payloads[0]), EncodeAll(payloads[1..]);
    if n < |frame| {
      assert EncodeAll(payloads)[..n] == frame[..n];
      PartialFrame(payloads[0], n);
      return 0;
    }
    var src := tail[..n - |frame|];
    assert EncodeAll(payloads)[..n] == frame + src;
    var j := DrainPrefix(payloads[1..], n - |frame|);
    DrainFirst(payloads[0], src);
    ProgressFirst(payloads, src, Drain(src), j);
    return j + 1;
  }

  /** The whole stream, in any reads: exactly the payloads, in order, and nothing left over. */
  lemma StreamRoundTrip(payloads: seq<seq<byte>>, arrivals: seq<seq<byte>>)
    requires Short(payloads) && Concat(arrivals) == EncodeAll(payloads)
    ensures Feed([], arrivals) == Drained(Packets(payloads), [])
  {
    ArrivalDoesNotMatter([], arrivals);
    var n := |EncodeAll(payloads)|;
    assert [] + Concat(arrivals) == EncodeAll(payloads)[..n];
    var k := DrainPrefix(payloads, n);
    FullLengthIsAll(payloads, k, Drain(EncodeAll(payloads)[..n]).rest);
    assert payloads[..k] == payloads;
  }

  lemma {:induction false} EncodeAllSplit(payloads: seq<seq<byte>>, k: nat)
    requires k <= |payloads|
    ensures EncodeAll(payloads) == EncodeAll(payloads[..k]) + EncodeAll(payloads[k..])
  {
    if k > 0 {
      assert payloads[..k][1..] == payloads[1..][..k - 1] && payloads[1..][k - 1..] == payloads[k..];
      EncodeAllSplit(payloads[1..], k - 1);
    } else {
      assert payloads[..k] == [] && payloads[k..] == payloads;
    }
  }

  lemma FullLengthIsAll(payloads: seq<seq<byte>>, k: nat, rest: seq<byte>)
    requires k <= |payloads| && EncodeAll(payloads[..k]) + rest == EncodeAll(payloads)
    requires k < |payloads| ==> rest < EncodeFrame(payloads[k])
    ensures k == |payloads|
  {
    if k < |payloads| {
      assert payloads[k..][0] == payloads[k];
      EncodeAllSplit(payloads, k);
    }
  }

  /** However much of the stream has arrived and in whatever reads: a prefix of the payloads has come
      out, in order, and a strict prefix of the next frame waits. */
  lemma StreamPrefix(payloads: seq<seq<byte>>, arrivals: seq<seq<byte>>) returns (k: nat)
    requires Short(payloads) && Concat(arrivals) <= EncodeAll(payloads)
    ensures k <= |payloads| && Feed([], arrivals).packets == Packets(payloads[..k])
    ensures
      var rest := Feed([], arrivals).rest;
      if k == |payloads| then rest == [] else rest < EncodeFrame(payloads[k])
  {
    ArrivalDoesNotMatter([], arrivals);
    assert [] + Concat(arrivals) == EncodeAll(payloads)[..|Concat(arrivals)|];
    k := DrainPrefix(payloads, |Concat(arrivals)|);
  }
}
