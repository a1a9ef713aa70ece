/**
 The driver of src/encryption_provider/mod.rs as a class: `send_bytes`, the read loop, and the
 separate processing of a message read earlier. The inbox and the outbox are the two channels.
 */
module Driver {
  import opened Wrappers
  import opened MlsGroups
  import opened Messages
  import opened Endpoints
  import opened UpdatePolicies
  import opened MlsHandshakes

  // ----- specification -----

  /** What becomes of one send: the record leaves; the transport refuses before anything is sealed; or the
      record is sealed, which uses up its number, and then lost. */
  datatype Delivery = Delivered | Refused | Lost

  /** A send that fails. */
  function Unsent(e: Endpoint, p: Plaintext, d: Delivery): Endpoint {
    if d.Lost? then Seal(e, p).end else e
  }

  /** The endpoint is given in every case: an error keeps what had already been changed. */
  datatype Processing = Processing(end: Endpoint, records: seq<Record>, result: Result<Option<Data>, Fault>)

  /** Processing the held message, errors included. If an answer does not leave, the handshake has moved on
      but the keys have not changed. */
  function Process(e: Endpoint, d: Delivery): Processing {
    match e.held
    case None => Processing(e, [], Ok(None))
    case Some(Application(d)) => Processing(e.(held := None, got := e.got + [d]), [], Ok(Some(d)))
    case Some(Signaling(m)) =>
      var p := ProcessSignalingMessage(e.hs, e.db, m, FreshId(e));
      var e' := e.(hs := p.hs, db := p.db, held := None, serial := e.serial + 1);
      match p.result
      case Err(error) => Processing(e', [], Err(HandshakeFailed(error)))
      case Ok((update, response)) =>
        if response.Some? && !d.Delivered? then
          Processing(Unsent(e', Signaling(response.value), d), [], Err(TransportFailed))
        else
          var sent := Respond(e', update, response);
          Processing(sent.end, sent.records, Ok(None))
  }

  datatype Reading = Reading(
    end: Endpoint, inbox: seq<Record>, outbox: seq<Record>, result: Result<Option<Data>, Fault>)

  /** Read and process until a message carries application data or the inbox ends; answers are added
      to the outbox. `fate(n)` is what becomes of the answer to the message with `n` records behind it. */
  function ReadLoopOver(e: Endpoint, inbox: seq<Record>, outbox: seq<Record>, fate: nat -> Delivery): Reading
    decreases |inbox|
  {
    if inbox == [] then Reading(e, [], outbox, Ok(None))
    else
      match Read(e, inbox[0])
      case Err(f) => Reading(e, inbox[1..], outbox, Err(f))
      case Ok(e1) =>
        var p := Process(e1, fate(|inbox| - 1));
        if p.result != Ok(None) then Reading(p.end, inbox[1..], outbox + p.records, p.result)
        else ReadLoopOver(p.end, inbox[1..], outbox + p.records, fate)
  }

  /** The same over a transport that works. */
  function ReadLoop(e: Endpoint, inbox: seq<Record>, outbox: seq<Record>): Reading {
    ReadLoopOver(e, inbox, outbox, AlwaysDelivered)
  }

  function AlwaysDelivered(n: nat): Delivery {
    Delivered
  }

  datatype Sending = Sending(end: Endpoint, policy: Policy, records: seq<Record>, result: Option<Fault>)

  /** The update that precedes a message: refusing because one waits for a response is not an error. If its
      message does not leave, the handshake has moved on but neither keys nor policy have. */
  function UpdateOver(e: Endpoint, p: Policy, now: int, d: Delivery): Sending {
    if !Due(p, now) then Sending(e, p, [], None)
    else
      var u := UpdateHandshake(e.hs, e.db, false, FreshId(e));
      match u.result
      case Err(error) =>
        Sending(e.(hs := u.hs, db := u.db), p, [],
                if error == WaitingForResponse then None else Some(HandshakeFailed(error)))
      case Ok((update, m)) =>
        var e' := e.(hs := u.hs, db := u.db, serial := e.serial + 1);
        if !d.Delivered? then Sending(Unsent(e', Signaling(m), d), p, [], Some(TransportFailed))
        else
          var r := Respond(e', update, Some(m));
          Sending(r.end, AfterReset(p, now), r.records, None)
  }

  /** The message is counted even if it does not leave. */
  function SendOver(e: Endpoint, p: Policy, data: Data, now: int, first: Delivery, second: Delivery): Sending {
    var u := UpdateOver(e, p, now, first);
    if u.result.Some? then u
    else if !second.Delivered? then
      Sending(Unsent(u.end, Application(data), second), AfterCount(u.policy, |data|), u.records, Some(TransportFailed))
    else
      var sent := SendData(u.end, data);
      Sending(sent.end, AfterCount(u.policy, |data|), u.records + sent.records, None)
  }

  /** The same over a transport that works. */
  function UpdateIfDue(e: Endpoint, p: Policy, now: int): Sending {
    UpdateOver(e, p, now, Delivered)
  }

  function SendWithUpdate(e: Endpoint, p: Policy, data: Data, now: int): Sending {
    SendOver(e, p, data, now, Delivered, Delivered)
  }

  // ----- the class -----

  /** The driver owns the handshake object, whose machine and connection it changes through their own
      methods, the update policy and the cipher. */
  class EncryptionProvider {
    const isServer: bool
    const handshake: MlsHandshake
    const policy: UpdatePolicy
    var cipher: Cipher
    var serial: nat
    var held: Option<Plaintext>
    var inbox: seq<Record>
    var outbox: seq<Record>
    ghost var sent: seq<Data>
    ghost var got: seq<Data>

    ghost function View(): Endpoint
      reads this, handshake, handshake.Machines(), handshake.connection
    {
      Endpoint(isServer, handshake.View(), handshake.connection.View(), cipher, held, serial, sent, got)
    }

    constructor (isServer: bool, handshake: MlsHandshake, policy: UpdatePolicy, cipher: Cipher)
      ensures this.isServer == isServer && this.handshake == handshake && this.policy == policy
      ensures View() == Endpoint(isServer, handshake.View(), handshake.connection.View(), cipher, None, 0, [], [])
      ensures inbox == [] && outbox == []
    {
      this.isServer, this.handshake, this.policy := isServer, handshake, policy;
      this.cipher, serial, held := cipher, 0, None;
      inbox, outbox := [], [];
      sent, got := [], [];
    }

    function NextId(): (id: CommitId)
      reads this
    {
      CommitId(if isServer then ServerParty else ClientParty, serial)
    }

    method Send(p: Plaintext)
      modifies this
      ensures View() == Seal(old(View()), p).end
      ensures outbox == old(outbox) + Seal(old(View()), p).records && inbox == old(inbox)
    {
      outbox := outbox + [Record(cipher.sendKey, cipher.sendSeq, p)];
      cipher := cipher.(sendSeq := cipher.sendSeq + 1);
    }

    method UpdateCipher(update: SecretUpdate)
      modifies this
      ensures View() == old(View()).(cipher := Install(old(cipher), update, isServer))
      ensures outbox == old(outbox) && inbox == old(inbox)
    {
      // The writer and the reader share one cipher, which is updated through each of them.
      cipher := Install(cipher, update, isServer);
      cipher := Install(cipher, update, isServer);
    }

    /** Sends the response, if any, under the old key, and then installs the update, if any; if the response
        does not leave, the keys stay. */
    method Answer(update: Option<SecretUpdate>, response: Option<Signal>, d: Delivery) returns (error: Option<Fault>)
      modifies this
      ensures inbox == old(inbox)
      ensures
        if response.Some? && !d.Delivered? then
          && error == Some(TransportFailed)
          && View() == Unsent(old(View()), Signaling(response.value), d) && outbox == old(outbox)
        else
          var m := Respond(old(View()), update, response);
          error == None && View() == m.end && outbox == old(outbox) + m.records
    {
      if response.Some? {
        if !d.Delivered? {
          error := SendFails(Signaling(response.value), d);
          return;
        }
        Send(Signaling(response.value));
      }
      if update.Some? {
        UpdateCipher(update.value);
      }
      return None;
    }

    /** The next message of the stream, decrypted; none when the stream has ended. */
    method ReadMessage() returns (r: Result<Option<Plaintext>, Fault>)
      modifies this
      ensures outbox == old(outbox)
      ensures old(inbox) == [] ==> r == Ok(None) && View() == old(View()) && inbox == []
      ensures
        old(inbox) != [] ==>
          && inbox == old(inbox)[1..]
          && match Read(old(View()), old(inbox)[0])
             case Err(f) => r == Err(f) && View() == old(View())
             case Ok(e) => r == Ok(Some(old(inbox)[0].payload)) && View() == e
    {
      if inbox == [] {
        return Ok(None);
      }
      var record := inbox[0];
      inbox := inbox[1..];
      if record.key != cipher.recvKey || record.seqNo != cipher.recvSeq {
        return Err(DecryptionFailed);
      }
      cipher := cipher.(recvSeq := cipher.recvSeq + 1);
      held := Some(record.payload);
      return Ok(Some(record.payload));
    }

    /** Processes the message read last: data is returned; a signaling message goes to the handshake and
        may be answered, under the old key, before the keys change. */
    method ProcessReadMessage(d: Delivery) returns (r: Result<Option<Data>, Fault>)
      requires held.Some?
      modifies this, handshake.Machines(), handshake.connection
      ensures
        var spec := Process(old(View()), d);
        && r == spec.result && View() == spec.end
        && outbox == old(outbox) + spec.records && inbox == old(inbox)
    {
      match held.value {
        case Application(data) =>
          held := None;
          got := got + [data];
          return Ok(Some(data));
        case Signaling(m) =>
          var p := handshake.ProcessSignalingMessage(m, NextId());
          serial, held := serial + 1, None;
          if p.Err? {
            return Err(HandshakeFailed(p.error));
          }
          var error := Answer(p.value.0, p.value.1, d);
          return if error.Some? then Err(error.value) else Ok(None);
      }
    }

    method ReadBytesInner(fate: nat -> Delivery) returns (r: Result<Option<Data>, Fault>)
      modifies this, handshake.Machines(), handshake.connection
      ensures
        var spec := ReadLoopOver(old(View()), old(inbox), old(outbox), fate);
        r == spec.result && View() == spec.end && inbox == spec.inbox && outbox == spec.outbox
    {
      ghost var whole := ReadLoopOver(View(), inbox, outbox, fate);
      while true
        invariant ReadLoopOver(View(), inbox, outbox, fate) == whole
        decreases |inbox|
      {
        var message := ReadMessage();
        if message.Err? {
          return Err(message.error);
        }
        if message.value.None? {
          return Ok(None);
        }
        var data := ProcessReadMessage(fate(|inbox|));
        if data.Err? {
          return Err(data.error);
        }
        if data.value.Some? {
          return Ok(data.value);
        }
      }
    }

    method AskForUpdate() returns (r: Result<(Option<SecretUpdate>, Signal), HandshakeError>)
      modifies this, handshake.Machines(), handshake.connection
      ensures
        var e := old(View());
        var u := UpdateHandshake(e.hs, e.db, false, FreshId(e));
        && r == u.result
        && View() == e.(hs := u.hs, db := u.db, serial := if r.Ok? then e.serial + 1 else e.serial)
      ensures outbox == old(outbox) && inbox == old(inbox)
    {
      r := handshake.UpdateHandshake(NextId());
      if r.Ok? {
        serial := serial + 1;
      }
    }

    /** A send that the transport fails. */
    method SendFails(p: Plaintext, d: Delivery) returns (error: Option<Fault>)
      requires !d.Delivered?
      modifies this
      ensures error == Some(TransportFailed)
      ensures View() == Unsent(old(View()), p, d) && outbox == old(outbox) && inbox == old(inbox)
    {
      if d.Lost? {
        cipher := cipher.(sendSeq := cipher.sendSeq + 1);
      }
      return Some(TransportFailed);
    }

    /** The update attempt of a send that found an update due. */
    method StartUpdate(now: int, d: Delivery) returns (error: Option<Fault>)
      requires Due(policy.View(), now)
      modifies this, policy, handshake.Machines(), handshake.connection
      ensures
        var spec := UpdateOver(old(View()), old(policy.View()), now, d);
        && error == spec.result && policy.View() == spec.policy
        && View() == spec.end && outbox == old(outbox) + spec.records && inbox == old(inbox)
    {
      var u := AskForUpdate();
      if u.Err? {
        return if u.error == WaitingForResponse then None else Some(HandshakeFailed(u.error));
      }
      error := Answer(u.value.0, Some(u.value.1), d);
      if error.None? {
        policy.Reset(now);
      }
    }

    method StartUpdateIfDue(now: int, d: Delivery) returns (error: Option<Fault>)
      modifies this, policy, handshake.Machines(), handshake.connection
      ensures
        var spec := UpdateOver(old(View()), old(policy.View()), now, d);
        && error == spec.result && policy.View() == spec.policy
        && View() == spec.end && outbox == old(outbox) + spec.records && inbox == old(inbox)
    {
      if Due(policy.View(), now) {
        error := StartUpdate(now, d);
      } else {
        error := None;
      }
    }

    /** `first` is what becomes of the update's message, if there is one, `second` of the data. */
    method SendBytes(data: Data, now: int, first: Delivery, second: Delivery) returns (error: Option<Fault>)
      modifies this, policy, handshake.Machines(), handshake.connection
      ensures
        var spec := SendOver(old(View()), old(policy.View()), data, now, first, second);
        && error == spec.result && policy.View() == spec.policy
        && View() == spec.end && outbox == old(outbox) + spec.records && inbox == old(inbox)
    {
      error := StartUpdateIfDue(now, first);
      if error.Some? {
        return;
      }
      error := SendCounted(data, second);
    }

    /** Sends the data and counts its bytes, whether it leaves or not. */
    method SendCounted(data: Data, d: Delivery) returns (error: Option<Fault>)
      modifies this, policy
      ensures
        if d.Delivered? then
          var m := SendData(old(View()), data);
          && error == None && View() == m.end && outbox == old(outbox) + m.records
        else
          && error == Some(TransportFailed)
          && View() == Unsent(old(View()), Application(data), d) && outbox == old(outbox)
      ensures inbox == old(inbox) && policy.View() == AfterCount(old(policy.View()), |data|)
    {
      if d.Delivered? {
        sent := sent + [data];
        Send(Application(data));
        error := None;
      } else {
        error := SendFails(Application(data), d);
      }
      policy.IncrementBytesTransferred(|data|);
    }
  }
}
