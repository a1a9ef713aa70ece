/** From the secrets of the protocol to the keys of the record layer. */
module TrafficKeys {
  import opened Bytes
  import opened KeyLabels
  import opened AeadCodec
  import opened MlsGroups
  import opened Endpoints

  /** The bytes of a secret, as the MLS group or the pre-handshake exports them. */
  type SecretBytes = Secret -> seq<byte>

  predicate IsClientSecret(k: Secret) {
    k.ClientSecret? || k.PreHandshakeClientSecret?
  }

  /** The key and IV of the direction the secret is for. */
  function KeysOf(c: Crypto, bytesOf: SecretBytes, k: Secret): (r: KeyIv)
    ensures Sensible(c) ==> |r.key| == KEY_SIZE && |r.iv| == TLS13_IV_SIZE
  {
    if IsClientSecret(k) then ClientKeys(c, bytesOf(k)) else ServerKeys(c, bytesOf(k))
  }

  function PairOf(c: Crypto, bytesOf: SecretBytes, cipher: Cipher): KeyPair {
    KeyPair(KeysOf(c, bytesOf, cipher.sendKey), KeysOf(c, bytesOf, cipher.recvKey))
  }

  function UpdateOf(bytesOf: SecretBytes, u: SecretUpdate): KeyUpdate {
    match u
    case OnlyClient(k) => NewClientSecret(bytesOf(k))
    case OnlyServer(k) => NewServerSecret(bytesOf(k))
    case Both(t) => NewSecrets(bytesOf(t.client), bytesOf(t.server))
  }

  /** Each secret is given for its own direction. */
  predicate Directed(u: SecretUpdate) {
    match u
    case OnlyClient(k) => IsClientSecret(k)
    case OnlyServer(k) => !IsClientSecret(k)
    case Both(t) => IsClientSecret(t.client) && !IsClientSecret(t.server)
  }

  /** Installing secrets in a cipher of the protocol is installing their bytes in the codec. */
  lemma InstallAgrees(c: Crypto, bytesOf: SecretBytes, cipher: Cipher, u: SecretUpdate, isServer: bool)
    requires Directed(u)
    ensures PairOf(c, bytesOf, Install(cipher, u, isServer))
         == Installed(c, PairOf(c, bytesOf, cipher), UpdateOf(bytesOf, u), isServer)
  {
  }
}
