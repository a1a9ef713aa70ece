/** Per-record nonces (section 5.3 of RFC 8446; src/tls_aead/mod.rs:234-244). */
module Nonces {
  import opened Wrappers
  import opened Words
  import opened Bytes
  import opened KeyLabels

  /** The construction of the RFC: the sequence number as 64 bits, most significant byte first, padded
      on the left to the length of the IV, and XORed with the IV. */
  function Nonce(iv: seq<byte>, seqNo: nat): (n: seq<byte>)
    requires |iv| == TLS13_IV_SIZE
    ensures |n| == TLS13_IV_SIZE
  {
    Xor(iv, Padded(seqNo))
  }

  function Padded(seqNo: nat): (p: seq<byte>)
    ensures |p| == TLS13_IV_SIZE
  {
    [0, 0, 0, 0] + BigEndian(seqNo, 8)
  }

  /** The nonce byte by byte: the first four bytes of the IV, and then the others, each masked with its byte
      of the 64-bit sequence number. */
  lemma NonceBytes(iv: seq<byte>, seqNo: nat, j: nat)
    requires |iv| == 12 && j < 12
    ensures Nonce(iv, seqNo)[j]
         == if j < 4 then iv[j] else iv[j] ^ ByteOf(Digit(seqNo, 11 - j))
  {
    if j < 4 {
      XorZero(iv[j]);
    } else {
      BigEndianAt(seqNo, 8, j - 4);
    }
  }

  function LittleEndian(n: nat, k: nat): (b: seq<byte>)
    ensures |b| == k
  {
    if k == 0 then [] else [ByteOf(n % 256)] + LittleEndian(n / 256, k - 1)
  }

  lemma {:induction false} EndiansMirror(n: nat, k: nat, i: nat)
    requires i < k
    ensures LittleEndian(n, k)[i] == BigEndian(n, k)[k - 1 - i]
  {
    if i > 0 {
      EndiansMirror(n / 256, k - 1, i - 1);
    }
  }

  lemma XorZero(a: byte)
    ensures a ^ 0 == a
  {
  }

  /** The in-place loop over the little-endian bytes, from the end of the IV backwards. */
  method MakeIv(iv: seq<byte>, seqNo: nat) returns (r: Option<seq<byte>>)
    requires seqNo < U64
    ensures |iv| != TLS13_IV_SIZE ==> r == None
    ensures |iv| == TLS13_IV_SIZE ==> r == Some(Nonce(iv, seqNo))
  {
    if |iv| != TLS13_IV_SIZE {
      return None;
    }
    var ret := iv;
    var bytes := LittleEndian(seqNo, 8);
    var i := 0;
    while i < |bytes|
      invariant 0 <= i <= 8 && |ret| == |iv|
      invariant forall j :: 0 <= j < |iv| - i ==> ret[j] == iv[j]
      invariant forall j :: |iv| - i <= j < |iv| ==> ret[j] == iv[j] ^ bytes[|iv| - 1 - j]
    {
      var idx := |iv| - 1 - i;
      ret := ret[idx := ret[idx] ^ bytes[i]];
      i := i + 1;
    }
    forall j | 0 <= j < |iv| ensures ret[j] == Nonce(iv, seqNo)[j] {
      if j < 4 {
        XorZero(iv[j]);
      } else {
        EndiansMirror(seqNo, 8, |iv| - 1 - j);
      }
    }
    assert ret == Nonce(iv, seqNo);
    return Some(ret);
  }

  lemma EightBytesAreU64()
    ensures Power256(8) == U64
  {
    assert Power256(4) == 0x1_0000_0000;
    assert Power256(8) == 256 * (256 * (256 * (256 * Power256(4))));
  }

  /** For one IV, different sequence numbers give different nonces. */
  lemma NonceInjective(iv: seq<byte>, a: nat, b: nat)
    requires |iv| == TLS13_IV_SIZE && a < U64 && b < U64
    requires Nonce(iv, a) == Nonce(iv, b)
    ensures a == b
  {
    XorTwice(iv, Padded(a));
    XorTwice(iv, Padded(b));
    assert BigEndian(a, 8) == Padded(a)[4..] == Padded(b)[4..] == BigEndian(b, 8);
    EightBytesAreU64();
    NumberOfBigEndian(a, 8);
    NumberOfBigEndian(b, 8);
  }

  // ----- over the life of a codec -----

  /** One use of the AEAD: the key and IV in force and the nonce. */
  datatype Use = Use(key: seq<byte>, iv: seq<byte>, nonce: seq<byte>)

  /** Use number `i` of a codec, counted from its creation over all key changes, has sequence number
      `i` modulo 2^64. */
  ghost predicate Counted(log: seq<Use>) {
    forall i :: 0 <= i < |log| ==> |log[i].iv| == TLS13_IV_SIZE && log[i].nonce == Nonce(log[i].iv, i % U64)
  }

  /** Two uses under the same IV share a nonce exactly if a multiple of 2^64 records lies between. */
  lemma NoncesMeetIff(log: seq<Use>, i: nat, j: nat)
    requires Counted(log) && i < j < |log| && log[i].iv == log[j].iv
    ensures log[i].nonce == log[j].nonce <==> (j - i) % U64 == 0
  {
    SameRemainder(i, j);
    var iv, a, b := log[i].iv, i % U64, j % U64;
    assert log[i].nonce == Nonce(iv, a) && log[j].nonce == Nonce(iv, b);
    if log[i].nonce == log[j].nonce {
      NonceInjective(iv, a, b);
    }
  }

  /** As long as at most 2^64 records were sealed, no key and nonce occur twice, even if the same keys
      were installed again in between. */
  lemma NoncesUnique(log: seq<Use>, i: nat, j: nat)
    requires Counted(log) && |log| <= U64 && i < j < |log|
    ensures log[i] != log[j]
  {
    if log[i] == log[j] {
      NoncesMeetIff(log, i, j);
    }
  }
}
