/**
 One end of an established connection: the handshake dispatch of src/mls_handshake/mod.rs and the
 driver of src/encryption_provider/mod.rs, which sends every signaling message under the old key
 and only then installs the new one.

 A record carries the key and sequence number it was sealed with; it opens exactly when both match
 the receiver's.
 */
module Endpoints {
  import opened Wrappers
  import opened MlsGroups
  import opened Messages
  import opened Persistence
  import ClientMachine
  import ServerMachine

  // ----- handshake dispatch -----

  datatype Handshake =
    | NoHandshake
    | ClientSide(client: Client)
    | ServerSide(server: ServerMachine.Server)

  datatype Dispatched<+T> = Dispatched(hs: Handshake, db: Database, result: Result<T, HandshakeError>)

  function UpdateHandshake(hs: Handshake, db: Database, requested: bool, id: CommitId)
    : Dispatched<(Option<SecretUpdate>, Signal)>
  {
    match hs
    case NoHandshake => Dispatched(hs, db, Err(Uninitialized))
    case ClientSide(c) =>
      var o := ClientMachine.UpdateClient(c, db, requested, id);
      var result := match o.result
        case Err(e) => Err(e)
        case Ok((secret, m)) => Ok((Some(OnlyClient(secret)), m));
      Dispatched(ClientSide(o.client), o.db, result)
    case ServerSide(s) =>
      var o := ServerMachine.UpdateServer(s, db.groups, requested, id);
      var result := match o.result
        case Err(e) => Err(e)
        case Ok(m) => Ok((None, m));
      Dispatched(ServerSide(o.server), db.(groups := o.groups), result)
  }

  function ProcessSignalingMessage(hs: Handshake, db: Database, m: Signal, id: CommitId)
    : Dispatched<(Option<SecretUpdate>, Option<Signal>)>
  {
    match hs
    case NoHandshake => Dispatched(hs, db, Err(Uninitialized))
    case ClientSide(c) =>
      var o := ClientMachine.ReceiveClient(c, db, m, id);
      Dispatched(ClientSide(o.client), o.db, o.result)
    case ServerSide(s) =>
      var o := ServerMachine.ReceiveServer(s, db.groups, m, id);
      var result := match o.result
        case Err(e) => Err(e)
        case Ok((secrets, response)) => Ok((Some(Both(secrets)), Some(response)));
      Dispatched(ServerSide(o.server), db.(groups := o.groups), result)
  }

  /** Deletes what a handshake stored: a client's row with its group, a server's group. */
  function DeleteOf(hs: Handshake, db: Database): Stored {
    match hs
    case NoHandshake => Stored(db, None)
    case ClientSide(c) => DeleteRow(db, c.profileId)
    case ServerSide(s) =>
      var d := Delete(s.session, db.groups);
      Stored(db.(groups := d.groups), if d.result.Ok? then None else Some(d.result.error))
  }

  // ----- record protection -----

  datatype Record = Record(key: Secret, seqNo: nat, payload: Plaintext)

  datatype Cipher = Cipher(sendKey: Secret, recvKey: Secret, sendSeq: nat, recvSeq: nat)

  function NewCipher(secrets: TrafficSecrets, isServer: bool): Cipher {
    if isServer then Cipher(secrets.server, secrets.client, 0, 0)
    else Cipher(secrets.client, secrets.server, 0, 0)
  }

  /** Installing secrets leaves both sequence numbers as they are. */
  function Install(c: Cipher, update: SecretUpdate, isServer: bool): Cipher {
    match update
    case OnlyClient(k) => if isServer then c.(recvKey := k) else c.(sendKey := k)
    case OnlyServer(k) => if isServer then c.(sendKey := k) else c.(recvKey := k)
    case Both(t) =>
      if isServer then c.(sendKey := t.server, recvKey := t.client)
      else c.(sendKey := t.client, recvKey := t.server)
  }

  // ----- the driver -----

  datatype Fault = DecryptionFailed | HandshakeFailed(error: HandshakeError) | TransportFailed

  /** `held` is a message that was read and not yet processed; `sent` and `got` are the application
      data sent and returned on this connection; `serial` numbers the commits this side creates. */
  datatype Endpoint = Endpoint(
    isServer: bool, hs: Handshake, db: Database, cipher: Cipher,
    held: Option<Plaintext>, serial: nat, sent: seq<Data>, got: seq<Data>)

  datatype Emission = Emission(end: Endpoint, records: seq<Record>)

  function FreshId(e: Endpoint): CommitId {
    CommitId(if e.isServer then ServerParty else ClientParty, e.serial)
  }

  function Seal(e: Endpoint, p: Plaintext): Emission {
    Emission(e.(cipher := e.cipher.(sendSeq := e.cipher.sendSeq + 1)),
             [Record(e.cipher.sendKey, e.cipher.sendSeq, p)])
  }

  function SendData(e: Endpoint, d: Data): Emission {
    Seal(e.(sent := e.sent + [d]), Application(d))
  }

  /** Send the response, if any, under the current key; then install the update, if any. */
  function Respond(e: Endpoint, update: Option<SecretUpdate>, response: Option<Signal>): Emission {
    var sealed := if response.Some? then Seal(e, Signaling(response.value)) else Emission(e, []);
    if update.None? then sealed
    else sealed.(end := sealed.end.(cipher := Install(sealed.end.cipher, update.value, e.isServer)))
  }

  /** The update attempt of `send_bytes`; being asked to wait is not an error. */
  function StartUpdate(e: Endpoint, requested: bool): Result<Emission, Fault> {
    var u := UpdateHandshake(e.hs, e.db, requested, FreshId(e));
    match u.result
    case Err(WaitingForResponse) => Ok(Emission(e, []))
    case Err(error) => Err(HandshakeFailed(error))
    case Ok((update, m)) => Ok(Respond(e.(hs := u.hs, db := u.db, serial := e.serial + 1), update, Some(m)))
  }

  function Read(e: Endpoint, r: Record): Result<Endpoint, Fault> {
    if r.key == e.cipher.recvKey && r.seqNo == e.cipher.recvSeq then
      Ok(e.(cipher := e.cipher.(recvSeq := e.cipher.recvSeq + 1), held := Some(r.payload)))
    else Err(DecryptionFailed)
  }

  function ProcessHeld(e: Endpoint): Result<Emission, Fault> {
    match e.held
    case None => Ok(Emission(e, []))
    case Some(Application(d)) => Ok(Emission(e.(held := None, got := e.got + [d]), []))
    case Some(Signaling(m)) =>
      var p := ProcessSignalingMessage(e.hs, e.db, m, FreshId(e));
      match p.result
      case Err(error) => Err(HandshakeFailed(error))
      case Ok((update, response)) =>
        Ok(Respond(e.(hs := p.hs, db := p.db, held := None, serial := e.serial + 1), update, response))
  }
}
