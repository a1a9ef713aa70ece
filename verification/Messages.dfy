/** The messages of src/mls_handshake/messages.rs, without their byte encoding. */
module Messages {
  import opened MlsGroups

  datatype Signal =
    | ConnectionUpdate(requested: bool, commit: Commit)
    | ConnectionConfirmation(epoch: nat)
    | EpochKeyUpdate(epoch: nat)
    | KeyUpdate

  type Data = seq<bv8>

  /** The two kinds of plaintext a protected connection carries. */
  datatype Plaintext = Application(data: Data) | Signaling(signal: Signal)
}
