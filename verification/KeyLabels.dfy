/**
 Key derivation (src/tls_aead/key_generation.rs): the HKDF name encoding of section 7.1 of
 RFC 8446 and the keys expanded from a traffic secret. HKDF itself and the AEAD are not part of
 this model; they are the functions of a `Crypto` value, of which only `Sensible` is assumed.
 */
module KeyLabels {
  import opened Wrappers
  import opened Bytes

  const TLS13_IV_SIZE: nat := 12
  const TLS_AEAD_TAG_SIZE: nat := 16
  const HASH_SIZE: nat := 64
  const KEY_SIZE: nat := 32

  /** seal(key, nonce, associated data, plaintext), open(key, nonce, associated data, ciphertext),
      expand(secret, info, length). */
  datatype Crypto = Crypto(
    seal: (seq<byte>, seq<byte>, seq<byte>, seq<byte>) -> seq<byte>,
    open: (seq<byte>, seq<byte>, seq<byte>, seq<byte>) -> Option<seq<byte>>,
    expand: (seq<byte>, seq<byte>, nat) -> seq<byte>)

  /** Sealing adds a tag, opening undoes sealing, and expanding yields the requested length. */
  ghost predicate Sensible(c: Crypto) {
    && (forall k, n, a, p :: |c.seal(k, n, a, p)| == |p| + TLS_AEAD_TAG_SIZE
                             && c.open(k, n, a, c.seal(k, n, a, p)) == Some(p))
    && (forall s, i, l :: |c.expand(s, i, l)| == l)
  }

  /** The assumptions can be met. */
  lemma SensibleCryptoExists() returns (c: Crypto)
    ensures Sensible(c)
  {
    var tag := seq(TLS_AEAD_TAG_SIZE, _ => 0 as byte);
    c := Crypto((k, n, a, p) => p + tag,
                (k, n, a, x) => if |x| < TLS_AEAD_TAG_SIZE then None else Some(x[..|x| - TLS_AEAD_TAG_SIZE]),
                (s: seq<byte>, i: seq<byte>, l: nat) => seq(l, _ => 0 as byte));
    forall k, n, a, p ensures c.open(k, n, a, c.seal(k, n, a, p)) == Some(p) {
      assert (p + tag)[..|p|] == p;
    }
  }

  // ----- the label encoding -----

  const TLS13_PREFIX: seq<byte> := [0x74, 0x6c, 0x73, 0x31, 0x33, 0x20]  // "tls13 "

  /** A byte string preceded by its length in one byte. */
  function Field(b: seq<byte>): seq<byte>
    requires |b| <= 0xFF
  {
    [ByteOf(|b|)] + b
  }

  /** The info bytes; each length must fit its field. */
  function HkdfLabel(name: seq<byte>, context: seq<byte>, length: nat): Option<seq<byte>> {
    if length > 0xFFFF || |TLS13_PREFIX| + |name| > 0xFF || |context| > 0xFF then None
    else
      Some(BigEndian16(length) + Field(TLS13_PREFIX + name) + Field(context))
  }

  datatype Label = Label(length: nat, name: seq<byte>, context: seq<byte>)

  /** A parser for info bytes, written from the format and not from the encoder. */
  function ParseHkdfLabel(info: seq<byte>): Option<Label> {
    if |info| < 3 then None
    else
      var labelLength := ToNat(info[2]);
      if labelLength < |TLS13_PREFIX| || |info| < 4 + labelLength
         || info[3..3 + |TLS13_PREFIX|] != TLS13_PREFIX
         || |info| != 4 + labelLength + ToNat(info[3 + labelLength])
      then None
      else Some(Label(Number16(info[..2]), info[3 + |TLS13_PREFIX|..3 + labelLength], info[4 + labelLength..]))
  }

  lemma ThreeParts(a: seq<byte>, b: seq<byte>, c: seq<byte>)
    ensures
      var s := a + b + c;
      s[..|a|] == a && s[|a|..|a| + |b|] == b && s[|a| + |b|..] == c
  {
  }

  lemma PrefixedName(name: seq<byte>)
    ensures (TLS13_PREFIX + name)[..|TLS13_PREFIX|] == TLS13_PREFIX
    ensures (TLS13_PREFIX + name)[|TLS13_PREFIX|..] == name
  {
  }

  /** How the parts lie in the info bytes. */
  lemma LabelLayout(name: seq<byte>, context: seq<byte>, length: nat)
    requires HkdfLabel(name, context, length).Some?
    ensures
      var info := HkdfLabel(name, context, length).value;
      var n := |TLS13_PREFIX| + |name|;
      && |info| == 4 + n + |context|
      && info[..2] == BigEndian16(length) && ToNat(info[2]) == n
      && info[3..3 + n] == TLS13_PREFIX + name
      && ToNat(info[3 + n]) == |context| && info[4 + n..] == context
  {
    var full := TLS13_PREFIX + name;
    var head := BigEndian16(length) + [ByteOf(|full|)];
    var info := HkdfLabel(name, context, length).value;
    assert info == head + full + Field(context);
    ThreeParts(head, full, Field(context));
    assert info[..2] == info[..3][..2];
    assert info[2] == info[..3][2];
    var tail := info[3 + |full|..];
    assert tail[0] == ByteOf(|context|) && tail[1..] == context;
  }

  /** Every accepted call can be recovered from its info bytes. */
  lemma ParseUndoesLabel(name: seq<byte>, context: seq<byte>, length: nat)
    requires HkdfLabel(name, context, length).Some?
    ensures ParseHkdfLabel(HkdfLabel(name, context, length).value) == Some(Label(length, name, context))
  {
    var info := HkdfLabel(name, context, length).value;
    var n := |TLS13_PREFIX| + |name|;
    LabelLayout(name, context, length);
    PrefixedName(name);
    assert info[3..3 + |TLS13_PREFIX|] == info[3..3 + n][..|TLS13_PREFIX|];
    assert info[3 + |TLS13_PREFIX|..3 + n] == info[3..3 + n][|TLS13_PREFIX|..];
  }

  /** A call is accepted exactly if its three lengths fit their fields; the prefix takes six bytes of the
      name's field. */
  lemma LabelAcceptedIff(name: seq<byte>, context: seq<byte>, length: nat)
    ensures HkdfLabel(name, context, length).Some? <==> length <= 65535 && |name| <= 249 && |context| <= 255
  {
  }

  /** The other direction: info bytes that parse are those of an accepted call, so there is exactly one
      info for each label. */
  lemma LabelUndoesParse(info: seq<byte>)
    requires ParseHkdfLabel(info).Some?
    ensures
      var l := ParseHkdfLabel(info).value;
      HkdfLabel(l.name, l.context, l.length) == Some(info)
  {
    var l := ParseHkdfLabel(info).value;
    Reassembled(info, ToNat(info[2]), l.name, l.context);
  }

  lemma Reassembled(info: seq<byte>, n: nat, name: seq<byte>, context: seq<byte>)
    requires 4 + n <= |info| && |TLS13_PREFIX| <= n <= 0xFF && |context| <= 0xFF
    requires ToNat(info[2]) == n && ToNat(info[3 + n]) == |context|
    requires info[3..3 + |TLS13_PREFIX|] == TLS13_PREFIX && info[3 + |TLS13_PREFIX|..3 + n] == name
    requires info[4 + n..] == context
    ensures BigEndian16(Number16(info[..2])) + Field(TLS13_PREFIX + name) + Field(context) == info
  {
    NameField(info, n, name);
    ContextField(info, 3 + n, context);
    TwoBytes(info[..2]);
    CutTwice(info, 2, 3 + n, BigEndian16(Number16(info[..2])), Field(TLS13_PREFIX + name), Field(context));
  }

  lemma CutTwice(s: seq<byte>, i: nat, j: nat, a: seq<byte>, b: seq<byte>, c: seq<byte>)
    requires i <= j <= |s| && a == s[..i] && b == s[i..j] && c == s[j..|s|]
    ensures a + b + c == s
  {
  }

  lemma NameField(info: seq<byte>, n: nat, name: seq<byte>)
    requires 3 + n <= |info| && |TLS13_PREFIX| <= n <= 0xFF && ToNat(info[2]) == n
    requires info[3..3 + |TLS13_PREFIX|] == TLS13_PREFIX && info[3 + |TLS13_PREFIX|..3 + n] == name
    ensures |TLS13_PREFIX + name| <= 0xFF && Field(TLS13_PREFIX + name) == info[2..3 + n]
  {
    JoinedParts(info, 3, 3 + |TLS13_PREFIX|, 3 + n);
    FirstOf(info, 2, 3 + n);
    FieldOf(info[2..3 + n], TLS13_PREFIX + name);
  }

  lemma ContextField(info: seq<byte>, at: nat, context: seq<byte>)
    requires at < |info| && ToNat(info[at]) == |context| <= 0xFF && info[at + 1..] == context
    ensures Field(context) == info[at..|info|]
  {
    FirstOf(info, at, |info|);
    FieldOf(info[at..|info|], context);
  }

  lemma FirstOf(s: seq<byte>, a: nat, b: nat)
    requires a < b <= |s|
    ensures s[a..b][0] == s[a] && s[a..b] == [s[a]] + s[a + 1..b]
  {
  }

  lemma JoinedParts(s: seq<byte>, a: nat, b: nat, c: nat)
    requires a <= b <= c <= |s|
    ensures s[a..b] + s[b..c] == s[a..c]
  {
  }

  lemma FieldOf(field: seq<byte>, b: seq<byte>)
    requires |b| <= 0xFF && field != [] && field == [field[0]] + b && ToNat(field[0]) == |b|
    ensures Field(b) == field
  {
    ByteAndBack(field[0]);
  }

  /** Distinct triples never share info bytes. */
  lemma LabelInjective(a: Label, b: Label)
    requires HkdfLabel(a.name, a.context, a.length).Some?
    requires HkdfLabel(a.name, a.context, a.length) == HkdfLabel(b.name, b.context, b.length)
    ensures a == b
  {
    ParseUndoesLabel(a.name, a.context, a.length);
    ParseUndoesLabel(b.name, b.context, b.length);
  }

  // ----- keys from a traffic secret -----

  function ExpandLabel(c: Crypto, secret: seq<byte>, name: seq<byte>, context: seq<byte>, length: nat)
    : Option<seq<byte>>
  {
    match HkdfLabel(name, context, length)
    case None => None
    case Some(info) => Some(c.expand(secret, info, length))
  }

  // "c ap traffic"
  const CLIENT_LABEL: seq<byte> := [0x63, 0x20, 0x61, 0x70, 0x20, 0x74, 0x72, 0x61, 0x66, 0x66, 0x69, 0x63]
  // "s ap traffic"
  const SERVER_LABEL: seq<byte> := [0x73, 0x20, 0x61, 0x70, 0x20, 0x74, 0x72, 0x61, 0x66, 0x66, 0x69, 0x63]
  const KEY_LABEL: seq<byte> := [0x6b, 0x65, 0x79]  // "key"
  const IV_LABEL: seq<byte> := [0x69, 0x76]  // "iv"

  /** What the labels say. */
  lemma LabelTexts()
    ensures TLS13_PREFIX == Ascii("tls13 ") && KEY_LABEL == Ascii("key") && IV_LABEL == Ascii("iv")
    ensures CLIENT_LABEL == Ascii("c ap traffic") && SERVER_LABEL == Ascii("s ap traffic")
  {
    ClientText();
    ServerText();
  }

  lemma ClientText()
    ensures CLIENT_LABEL == Ascii("c ap traffic")
  {
  }

  lemma ServerText()
    ensures SERVER_LABEL == Ascii("s ap traffic")
  {
  }

  datatype KeyIv = KeyIv(key: seq<byte>, iv: seq<byte>)

  /** The key and IV of one direction, expanded from its traffic secret. */
  function ExpandSecret(c: Crypto, secret: seq<byte>, name: seq<byte>, handshakeHash: seq<byte>): Option<KeyIv> {
    match ExpandLabel(c, secret, name, handshakeHash, HASH_SIZE)
    case None => None
    case Some(s) =>
      match (ExpandLabel(c, s, KEY_LABEL, [], KEY_SIZE), ExpandLabel(c, s, IV_LABEL, [], TLS13_IV_SIZE))
      case (Some(key), Some(iv)) => Some(KeyIv(key, iv))
      case _ => None
  }

  /** Expansion fails exactly for a handshake hash over 255 bytes; otherwise the IV has 12 bytes. */
  lemma ExpandSecretWorks(c: Crypto, secret: seq<byte>, name: seq<byte>, handshakeHash: seq<byte>)
    requires Sensible(c) && name in [CLIENT_LABEL, SERVER_LABEL]
    ensures ExpandSecret(c, secret, name, handshakeHash).Some? <==> |handshakeHash| <= 0xFF
    ensures |handshakeHash| <= 0xFF ==> |ExpandSecret(c, secret, name, handshakeHash).value.iv| == TLS13_IV_SIZE
  {
  }

  /** The two directions, and key and IV within a direction, are derived under different info bytes. */
  lemma DerivationsAreSeparated(handshakeHash: seq<byte>)
    requires |handshakeHash| <= 0xFF
    ensures HkdfLabel(CLIENT_LABEL, handshakeHash, HASH_SIZE) != HkdfLabel(SERVER_LABEL, handshakeHash, HASH_SIZE)
    ensures HkdfLabel(KEY_LABEL, [], KEY_SIZE) != HkdfLabel(IV_LABEL, [], TLS13_IV_SIZE)
  {
    ParseUndoesLabel(CLIENT_LABEL, handshakeHash, HASH_SIZE);
    ParseUndoesLabel(SERVER_LABEL, handshakeHash, HASH_SIZE);
    assert CLIENT_LABEL[0] != SERVER_LABEL[0];
    ParseUndoesLabel(KEY_LABEL, [], KEY_SIZE);
    ParseUndoesLabel(IV_LABEL, [], TLS13_IV_SIZE);
  }

  // ----- what the keys are, without the encoder -----

  /** The info bytes that ask for `length` bytes under a name and context. */
  predicate IsInfo(info: seq<byte>, length: nat, name: seq<byte>, context: seq<byte>) {
    ParseHkdfLabel(info) == Some(Label(length, name, context))
  }

  function InfoFor(length: nat, name: seq<byte>, context: seq<byte>): seq<byte>
    requires length <= 65535 && |name| <= 249 && |context| <= 255
  {
    HkdfLabel(name, context, length).value
  }

  /** An info, as a parser reads it, asks for that length under that name and context, and no other info does. */
  lemma InfoIsAsked(length: nat, name: seq<byte>, context: seq<byte>, info: seq<byte>)
    requires length <= 65535 && |name| <= 249 && |context| <= 255
    ensures info == InfoFor(length, name, context) <==> IsInfo(info, length, name, context)
  {
    ParseUndoesLabel(name, context, length);
    if IsInfo(info, length, name, context) {
      LabelUndoesParse(info);
    }
  }

  /** As in section 7.3 of RFC 8446: from the traffic secret a 64-byte secret of the direction and handshake,
      and from that a key of 32 and an IV of 12 bytes. `LabelTexts` says what the names read, `InfoIsAsked`
      what the infos ask. */
  predicate DerivedWith(c: Crypto, k: KeyIv, secret: seq<byte>, direction: seq<byte>, handshakeHash: seq<byte>)
    requires |direction| <= 249 && |handshakeHash| <= 255
  {
    var s := c.expand(secret, InfoFor(64, direction, handshakeHash), 64);
    k == KeyIv(c.expand(s, InfoFor(32, KEY_LABEL, []), 32), c.expand(s, InfoFor(12, IV_LABEL, []), 12))
  }

  /** The same without a handshake hash, as the codec uses it. */
  predicate DerivedFrom(c: Crypto, k: KeyIv, secret: seq<byte>, direction: seq<byte>)
    requires |direction| <= 249
  {
    DerivedWith(c, k, secret, direction, [])
  }

  /** What is expanded is so derived, under any name and hash that fit. */
  lemma ExpandSecretDerives(c: Crypto, secret: seq<byte>, name: seq<byte>, handshakeHash: seq<byte>)
    requires |name| <= 249 && |handshakeHash| <= 255
    ensures ExpandSecret(c, secret, name, handshakeHash).Some?
    ensures DerivedWith(c, ExpandSecret(c, secret, name, handshakeHash).value, secret, name, handshakeHash)
  {
  }

  /** `expand` does not collide on these secrets and infos. */
  ghost predicate ApartOn(c: Crypto, secrets: set<seq<byte>>, infos: set<seq<byte>>, length: nat) {
    forall s, s', i, i' | s in secrets && s' in secrets && i in infos && i' in infos ::
      c.expand(s, i, length) == c.expand(s', i', length) ==> s == s' && i == i'
  }

  /** From one secret, the two directions never get the same key, unless `expand` collides on one of the
      four calls that make them. */
  lemma DirectionsNeverMeet(c: Crypto, secret: seq<byte>, client: KeyIv, server: KeyIv)
    requires DerivedFrom(c, client, secret, CLIENT_LABEL) && DerivedFrom(c, server, secret, SERVER_LABEL)
    requires ApartOn(c, {secret}, {InfoFor(64, CLIENT_LABEL, []), InfoFor(64, SERVER_LABEL, [])}, 64)
    requires
      var s := c.expand(secret, InfoFor(64, CLIENT_LABEL, []), 64);
      var s' := c.expand(secret, InfoFor(64, SERVER_LABEL, []), 64);
      ApartOn(c, {s, s'}, {InfoFor(32, KEY_LABEL, [])}, 32)
    ensures client.key != server.key
  {
    InfoIsAsked(64, CLIENT_LABEL, [], InfoFor(64, CLIENT_LABEL, []));
    InfoIsAsked(64, SERVER_LABEL, [], InfoFor(64, SERVER_LABEL, []));
    assert CLIENT_LABEL[0] != SERVER_LABEL[0];
  }
}
