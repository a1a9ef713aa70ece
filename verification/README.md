# A verified model of the MLS-TLS protocol

The repository secures a connection by running MLS between a client and a server and using the
secrets exported from the MLS group as TLS-style traffic secrets. While the connection is up, either
side may rekey it. This project models that protocol and the record layer under it, and proves what
holds over every interleaving of the two sides.

`dafny verify dfyconfig.toml` checks everything.

## What is modelled

**The protocol.** `MlsGroups` holds the MLS group as a history of merged commits with an optional
pending commit; `Persistence` the storage of one side; `ClientMachine` and `ServerMachine` the two
handshake state machines; `Endpoints` the handshake dispatch and the driver rule "answer under the old
key, then install the new one"; `Network` client, server, two FIFO channels and the loss and
resumption of the connection, as a function `Next` from a state and an action to a state or a fault.
The server acts as soon as it has answered a resumption. An action that is not enabled changes nothing and
an action whose code path reports an error is a fault, so a statement about `Run(s, actions)` for all
`actions` is a statement about all interleavings.

**The objects.** Where the source changes objects in place, so does the model: `Driver.EncryptionProvider`
owns the cipher, the update policy and an `MlsHandshakes.MlsHandshake`, which owns a
`Persistence.Connection` and the machine object of its role. Every method is proved equal, errors
included, to the functions above, so what is proved about those holds of the objects. What the functions
themselves do in every case, which errors they report and what those leave behind, is stated in `Outcomes` in
terms of stored histories and rows alone; `HandshakeTheorems` ties the handshake object to the network.

**The proof.** `Rekeying` is the ideal protocol: two histories, a pending commit and the signaling
messages in flight, with no storage, keys, epoch test or error branch. Its five phases are the heart
of the invariant. `Refinement` shows that the machines take exactly the ideal steps, `Channels` that
every record on a channel is sealed under the key its receiver will have by then, `Safety`,
`Resumption` and `Simulation` put this together for every action. `Theorems`, `Runs`, `Convergence`,
`Recovery`, `RowRecovery` (resuming from the stored row), `KeyUse` (keys and sequence numbers over whole
runs), `Repetition` (exactly when they repeat; nonces) and `Restarts` (runs with restarts from the row) state
the results; `HelloWindow` adds what the server does before the client has read its hello, and
`DriverTheorems` carries the results over to `send_bytes` and `read_bytes`.

**The record layer.** `Frames` (streaming frame codec), `KeyLabels` (HKDF labels and key derivation),
`Nonces`, `AeadCodec`, `StreamSink` and `Pipeline` (all of it end to end). `TrafficKeys` and
`Wire` join it to the protocol: its secrets as keys, and the records in flight in any reachable state as bytes.

## What is assumed

- The MLS library: `self_update` is refused while a commit is pending; a commit is accepted on exactly
  the history it was built on and clears a pending commit; merging and clearing a pending commit do
  what they say, and merging nothing is accepted. A traffic secret is determined by the group and its
  history. In the protocol model a key is represented by that secret itself.
- AEAD and HKDF: `KeyLabels.Sensible` (sealing adds 16 bytes, opening undoes sealing, expansion yields
  the requested length), shown to be satisfiable by `KeyLabels.SensibleCryptoExists`.
- In the protocol model a record opens exactly if its key and sequence number are the receiver's;
  `Wire.ReadAgrees` says what this takes of the AEAD. Some results assume `AeadCodec.Authentic` (only what was
  sealed opens), which `AeadCodec.AuthenticCryptoExists` shows to be satisfiable.
- Commit identifiers are fresh: each side numbers its own.
- Each plaintext message fits one record (at most 32768 bytes serialized); `AeadCodec.OneRecordIff` and
  `Pipeline` treat the byte level.

## Results that are not what one might expect

- **A client update with `update_requested = true` never completes.** The server answers it with a
  commit instead of a confirmation, and a waiting client ignores commits. `Recovery.ClientUpdateCompletesIff`
  proves that a client update can complete if and only if it does not request one in return;
  `Recovery.RequestBreaksDecryption` gives the failing run, after which the server's data does not open.
  The only production caller passes `false` (src/mls_handshake/mod.rs:175), so the safety theorems
  (`Network.Honest`) are about that case. The server may request updates.
- **Resumption fails for good if the server has already merged the offered commit.** The comment in
  src/mls_handshake/state_machine/client.rs:173-175 has the client reuse its unconfirmed update;
  if only the confirmation was lost, the server refuses the commit as outdated, and every repetition
  offers the same commit. `Recovery.ResumptionSucceedsIff` gives the exact condition. What remains is a
  fresh handshake, which always works (`Recovery.FreshHandshakeWorks`).
- **A resumed connection can go on under a key it has used, with numbers from the start.** A client that waits
  for its own update already sends under the updated key. If it resumes then, `resume` hands out the
  same secret again (src/mls_handshake/state_machine/client.rs:190-193) and the new codec counts from the start.
  `KeyUse.ResumedKeyIff` says exactly when the key stays, `Repetition.RepetitionIff` exactly when that can
  make a key and number repeat: if the client waits for a commit of its own that its row knows, and has sent
  under its key. `KeyUse.RepeatedAfterReoffer` is such a run. Without such a resumption nothing ever repeats
  (`KeyUse.ClientNeverRepeats`, and as nonces `Repetition.NoncesNeverRepeat`); at the server nothing ever does
  (`KeyUse.ServerNeverRepeats`). `Restarts.JourneysNeverRepeat` has the same with restarts.
- **Reading ahead is safe only behind some messages.** With a message read and not yet processed, the next
  record opens at the client unless that message is a key confirmation (`Theorems.ClientReadAheadIff`), and
  at the server unless it is a signaling message (`Theorems.ServerReadAheadIff`).
- **`resume` does not rewrite the stored row.** The row differs from memory exactly while a resumption is
  outstanding (`Theorems.StorageAgrees`); its epoch lags exactly if that resumption made a commit of its
  own, also after repeated attempts (`Theorems.RowEpochIff`, `Recovery.ResumeLagsIff`). A client that
  restarts from a lagging row succeeds exactly when one that kept its memory would fail
  (`RowRecovery.ResumptionFromRowIff`). Where it fails it has failed for good
  (`RowRecovery.FailedFromRowIsFinal`), and the refused commit can even make the server merge its own pending
  commit and leave the client's history (`RowRecovery.RefusalDivergesIff`).
- **A refused confirmation costs the client its waiting state.** The state is taken out before it is checked
  (src/mls_handshake/state_machine/client.rs:279-320), so after any error the client runs in memory while its
  row still waits (`Outcomes.ClientConfirmationOutcome`). A server that refuses a confirmation has already
  merged its pending commit (`Outcomes.ServerConfirmationOutcome`). Neither happens in honest runs.
- **Bytes that never left are counted.** `send_bytes` counts a message after its sending failed too
  (src/encryption_provider/mod.rs:478-484); `DriverTheorems.CounterOverAttempts` states what the counter is.
- The record size constant is `2 << 14`, 32768, twice the limit in section 5.1 of RFC 8446, and sequence
  numbers are not reset when keys change, unlike section 5.3 of RFC 8446. The model follows the code.

## Model

| member | source | states |
|---|---|---|
| Simulation.HonestRunsNeverFault | src/encryption_provider/mod.rs:391-485 | after either handshake mode, every honest interleaving of sends, reads, processing, client and server updates, connection losses and resumptions, in which the server may act before the client has its confirmation, runs without any error: no decryption failure, unexpected message, epoch mismatch, stale commit, update over a pending commit or `todo!()` |
| Simulation.EstablishWorks | src/encryption_provider/mod.rs:142-217 | both handshake modes succeed on any consistent client database, in the protected mode with both hellos sealed and opened under the shared secrets, and leave mirrored keys and sequence numbers and the invariant; at the server exactly the new group is added |
| HelloWindow.HelloWindowIsCovered | src/mls_handshake/mod.rs:81-155 | whatever the server sends and updates before the client has read its hello, nothing faults, and reading the hello then leads to a state reachable from the established connection, by the same actions |
| HelloWindow.WindowCommutes | src/mls_handshake/mod.rs:81-155 | a step of the server and the reading of its hello commute, errors included |
| Simulation.NextSimulates | src/mls_handshake/mod.rs:169-207 | every action of the system, with storage, epoch tests and error branches, succeeds and is one step of the ideal protocol or none |
| Simulation.RunKeepsInv | src/encryption_provider/mod.rs:391-485 | the invariant holds at the end of every honest run |
| Theorems.EveryRecordOpens | src/tls_aead/mod.rs:164-231 | in every reachable state the next record on each channel was sealed under exactly the receiver's current key and sequence number |
| Theorems.ClientReadAheadIff | src/encryption_provider/mod.rs:422-452 | in every reachable state in which the client holds an unprocessed message, the record behind it opens if and only if that message is not a key confirmation |
| Theorems.ServerReadAheadIff | src/encryption_provider/mod.rs:422-452 | the same at the server, if and only if the held message is not a signaling message |
| Theorems.Agreement | src/mls_handshake/state_machine/client.rs:222-375 | in every reachable state the server's history is a prefix of the client's, at most two commits shorter; while the client runs, histories are equal and the keys of both directions mirror each other |
| Runs.OneAheadWithoutRequests | src/mls_handshake/state_machine/client.rs:342-372 | without update requests and resumptions the client is at most one epoch ahead, over every run |
| Theorems.BothOrNeither | src/mls_handshake/state_machine/mls_group.rs:136-148 | in every reachable state a server commit that is not pending was merged by both sides or by neither |
| Theorems.EpochTestIsRight | src/mls_handshake/state_machine/mls_group.rs:136-148 | whenever the server is about to process a client commit with its own commit pending, the next-epoch branch is taken if and only if the client merged that commit |
| Runs.FatesAreFinal | src/mls_handshake/state_machine/server.rs:200-234 | over every run both histories only grow, and a discarded server commit is never merged by either side afterwards |
| Runs.MergedOnce | src/mls_handshake/state_machine/client.rs:222-251 | in every reachable state no commit stands twice in either history |
| Theorems.FifoDelivery | src/encryption_provider/mod.rs:391-485 | in each direction, data returned followed by data in flight equals data sent, across any number of rekeyings |
| Theorems.StorageAgrees | src/mls_handshake/persistence.rs:66-118 | in every reachable state cached epochs equal stored epochs, the client's row equals its memory if and only if no resumption is outstanding, every row's group exists, and deletion of any profile succeeds |
| Theorems.RowEpochIff | src/mls_handshake/state_machine/client.rs:176-210 | in every reachable state, also after repeated resumptions, the row's epoch is the stored group's if and only if no resumption with a commit of its own is outstanding, and otherwise it is one behind |
| Theorems.DeletionWorks | src/mls_handshake/mod.rs:209-221 | in every reachable state deletion removes exactly the client's row and group, and exactly the group of an established server; deleting again changes nothing, which only the server reports |
| Convergence.DeliveryLowers | src/mls_handshake/state_machine/client.rs:264-320 | every delivery strictly lowers a weight over the messages in flight |
| Convergence.DeliveriesConverge | src/encryption_provider/mod.rs:395-419 | every sequence of deliveries, in any order, is no longer than the initial weight, and one that cannot continue ends with both sides running, nothing pending, equal histories and mirrored keys, and all data delivered |
| Convergence.ConvergenceIsPossible | src/mls_handshake/state_machine/server.rs:170-234 | from every connected state some sequence of deliveries reaches that end |
| Convergence.EmptyMeansConverged | src/mls_handshake/state_machine/client.rs:264-320 | with nothing left to deliver, no side is waiting |
| Recovery.ResumptionSucceedsIff | src/mls_handshake/state_machine/client.rs:168-211 | from every reachable state, losing everything in flight and resuming never faults and ends in a fresh connection on one history if and only if the client does not wait for a commit of its own at the server's epoch |
| Recovery.CannotResumeEver | src/mls_handshake/state_machine/server.rs:78-106 | in the failing case no continuation by resumption brings the connection up again |
| Recovery.FreshHandshakeWorks | src/mls_handshake/mod.rs:112-155 | on the databases of every reachable state a fresh handshake with a new group succeeds in either mode and leads to a connected reachable state |
| Recovery.ResumeLagsIff | src/mls_handshake/state_machine/client.rs:176-210 | resuming leaves the row alone; afterwards the row lags if and only if a fresh commit was made, now or by an earlier resumption still outstanding |
| RowRecovery.ResumptionFromRowIff | src/mls_handshake/mod.rs:127-129 | from every reachable state, losing the connection and resuming from the stored row never faults; it succeeds, with a row in step, exactly when resuming from memory does, and with a lagging row exactly when the server has merged the commit the row does not know; success is a fresh connection on one history in which the invariant holds again |
| RowRecovery.FailedFromRowIsFinal | src/mls_handshake/mod.rs:127-129 | if it fails, no sequence of actions and further restarts from the row brings the connection up again |
| RowRecovery.RefusalDivergesIff | src/mls_handshake/state_machine/mls_group.rs:136-152 | a refusal of a commit made from a lagging row leaves the server off the client's history if and only if the server had a pending commit and was one epoch behind; it has then merged that commit |
| KeyUse.OneConnectionCounts | src/tls_aead/mod.rs:292-320 | over every run on one connection, honest or not, record i of a side has number i counted from its start, the server's as soon as it has answered, so no number repeats under any keys |
| KeyUse.ClientNeverRepeats | src/tls_aead/mod.rs:119-162 | over every honest run with any losses and resumptions, the client never sends two records under one key and number unless a resumption offers a commit under whose key it has sent |
| KeyUse.ServerNeverRepeats | src/tls_aead/mod.rs:119-162 | over every such run the server never does |
| KeyUse.ResumedKeyIff | src/mls_handshake/state_machine/client.rs:190-211 | from every reachable state, connected or not, from which a resumption succeeds, it starts the client at the first number, zero or behind a pre-handshake one, under the key it sent with last if and only if it waits for a commit of its own that its row knows, and otherwise under a later one |
| Repetition.RepetitionIff | src/mls_handshake/state_machine/client.rs:190-211 | after any honest run without a repetition from which a resumption succeeds, later sends can repeat a key and number if and only if the client waits for a commit of its own that its row knows and has sent under its key |
| Repetition.NoncesNeverRepeat | src/tls_aead/mod.rs:234-244 | over every honest run that never makes such an offer, under the key derivation of the codec, with fewer than 2^64 records per connection and key bytes that differ for the different secrets of the run: of all records of both sides, over all connections, no two share key bytes and nonce |
| Restarts.JourneysNeverRepeat | src/mls_handshake/mod.rs:127-129 | over every run in which the client may also restart and resume from its row, nothing faults and the invariant holds at the end; the server repeats no key and number, and neither does the client unless it offers a commit under whose key it has sent |
| Restarts.JourneyNoncesNeverRepeat | src/tls_aead/mod.rs:234-244 | the same for these runs as key bytes and nonces, of both sides together |
| TrafficKeys.InstallAgrees | src/tls_aead/mod.rs:164-231 | installing secrets in a cipher of the protocol is installing their bytes in the codec |
| KeyUse.RepeatedAfterReoffer | src/mls_handshake/state_machine/client.rs:190-193 | a concrete honest run, from every start, in which two messages of the client leave under one key and number |
| KeyUse.OutIsAppended | src/encryption_provider/mod.rs:555-560 | the records these results are about are exactly those that each action appends to the channels |
| Recovery.ClientUpdateCompletesIff | src/mls_handshake/state_machine/server.rs:217-231 | a client update can complete on its connection if and only if it does not request an update in return |
| Recovery.StalledForGood | src/mls_handshake/state_machine/client.rs:264-270 | once stalled, the client waits over every continuation without a connection loss |
| Recovery.RequestBreaksDecryption | src/mls_handshake/state_machine/server.rs:217-231 | from every quiet state, a requesting client update leads to empty channels with both sides waiting, and what the server then sends does not open |
| Resumption.ResumeRefines | src/mls_handshake/state_machine/client.rs:168-211 | resuming succeeds in all four client states and offers a commit that leads from the server's history, with or without its pending commit, to the client's |
| Resumption.RefuseOld | src/mls_handshake/state_machine/mls_group.rs:136-152 | a commit the server already merged is refused and costs the server only its own pending commit |
| Resumption.AcceptedConnects | src/mls_handshake/state_machine/client.rs:279-294 | right after an accepted offer, in either mode and whatever the row says, the confirmation leads to a connection: the client runs on the secrets the server has and its row equals its memory again |
| Simulation.AnsweredNext | src/mls_handshake/state_machine/server.rs:78-120 | every step of the server before the client has its confirmation succeeds and keeps that so |
| Resumption.ServerStepCommutes | src/mls_handshake/state_machine/server.rs:78-120 | a step of the server and the arrival of the confirmation commute, errors included |
| Refinement.ClientUpdateRefines | src/mls_handshake/state_machine/client.rs:222-251 | a running client's update succeeds, equals the ideal update, and keeps row, cached epoch and the other rows and groups |
| Refinement.ClientTakeRefines | src/mls_handshake/state_machine/client.rs:253-375 | in every phase the client processes the next message without error, answers and rekeys as the ideal client, and keeps its row |
| Refinement.ServerUpdateRefines | src/mls_handshake/state_machine/server.rs:136-157 | a server without a pending commit can update, and only its group changes |
| Refinement.ServerTakeRefines | src/mls_handshake/state_machine/server.rs:159-234 | in every phase the server processes the next message without error, ends on the client's history and confirms its epoch |
| Refinement.ProcessOnServer | src/mls_handshake/state_machine/mls_group.rs:116-211 | a commit built on the server's history, or on it with the pending commit merged, leaves the server exactly on that commit's history |
| Rekeying.ClientTakeKeepsPhase | src/mls_handshake/state_machine/client.rs:264-320 | the ideal client's step leads from phase to phase |
| Rekeying.ServerTakeKeepsPhase | src/mls_handshake/state_machine/server.rs:182-234 | the ideal server's step leads from phase to phase and onto the client's history |
| Rekeying.ServerUpdateKeepsPhase | src/mls_handshake/state_machine/server.rs:136-157 | a server update may start in any phase without a pending commit |
| Rekeying.ClientUpdateKeepsPhase | src/mls_handshake/state_machine/client.rs:222-251 | a client update may start whenever the client runs |
| Rekeying.PhaseAgreement | src/mls_handshake/state_machine/client.rs:264-320 | what every phase says about histories, waiting and what survives a loss of the channels |
| Channels.SendKeepsSound | src/encryption_provider/mod.rs:406-412 | sending keeps every record on the channel openable in turn, also when the sender's key changes behind a message that makes the receiver change its own |
| Channels.ReadKeepsSound | src/tls_aead/stream_sink.rs:153-170 | the next record opens, and reading keeps the channel sound |
| Channels.ProcessKeepsSound | src/encryption_provider/mod.rs:430-452 | processing a message, with its key change, keeps the channel sound |
| Persistence.DeleteRowSucceeds | src/mls_handshake/persistence.rs:104-118 | on every consistent database deletion succeeds, removes exactly the profile's row and group, and leaves a consistent database |
| Outcomes.StoreRowOutcome | src/mls_handshake/persistence.rs:66-73 | an insert adds exactly its row, or is refused and changes nothing if the profile has one |
| Outcomes.UpdateRowOutcome | src/mls_handshake/persistence.rs:96-102 | an update replaces exactly an existing row and creates none |
| Outcomes.DeleteRowOutcome | src/mls_handshake/persistence.rs:104-118 | on any table, in order or not, deletion removes row and group, or reports a missing group and removes nothing |
| Outcomes.CommitOutcome | src/mls_handshake/state_machine/mls_group.rs:74-96 | committing is refused without group or over a pending commit and then changes nothing; else exactly this group has the commit pending |
| Outcomes.MergeOutcome | src/mls_handshake/state_machine/mls_group.rs:98-114 | merging appends the pending commit, if any, and gives epoch and secrets of the new history |
| Outcomes.ProcessOutcome | src/mls_handshake/state_machine/mls_group.rs:116-211 | a commit is accepted if and only if it was built on the history, with the own pending commit merged if it is one epoch ahead; what a refusal leaves stored |
| Outcomes.JoinGroupFailsIff | src/mls_handshake/mod.rs:112-155 | joining fails if and only if the profile has a row whose group is gone, and reports that |
| Outcomes.ClientUpdateOutcome | src/mls_handshake/state_machine/client.rs:222-251 | result, state and storage of a client update in every case; none of its errors changes anything |
| Outcomes.ClientConfirmationOutcome | src/mls_handshake/state_machine/client.rs:279-320 | a confirmation is accepted only of the kind waited for, with its group, at its epoch; any error costs the waiting state in memory and leaves storage alone |
| Outcomes.ClientCommitOutcome | src/mls_handshake/state_machine/client.rs:264-278 | a server commit is ignored while the client waits, refused with state and row kept if it does not fit, and otherwise merged and confirmed or answered by a commit on top |
| Outcomes.ResumeOutcome | src/mls_handshake/state_machine/client.rs:168-211 | what is offered in each state, and that a failure costs the waiting state and nothing else |
| Outcomes.ServerUpdateOutcome | src/mls_handshake/state_machine/server.rs:136-157 | result, state and groups of a server update in every case |
| Outcomes.ServerCommitOutcome | src/mls_handshake/state_machine/server.rs:200-234 | the same for a client commit, whatever the server waits for |
| Outcomes.ServerConfirmationOutcome | src/mls_handshake/state_machine/server.rs:159-198 | any other message: unexpected ones change nothing, while a confirmation that names another epoch is refused with the pending commit already merged |
| Outcomes.DispatchOutcome | src/mls_handshake/mod.rs:169-207 | the dispatch passes results, errors and what the machine left behind through unchanged |
| Outcomes.ReadIff | src/tls_aead/stream_sink.rs:153-170 | a record opens if and only if key and number are the receiver's, and then uses up exactly one number |
| Persistence.Connection.Store | src/mls_handshake/persistence.rs:66-73 | inserts a row, or fails and changes nothing if the profile has one |
| Persistence.Connection.Load | src/mls_handshake/persistence.rs:75-94 | the profile's row, if any |
| Persistence.Connection.StoreUpdate | src/mls_handshake/persistence.rs:96-102 | replaces an existing row and never creates one |
| Persistence.Connection.DeleteState | src/mls_handshake/persistence.rs:104-118 | deletes group and row, or neither |
| Persistence.Connection.SessionDelete | src/mls_handshake/state_machine/mls_group.rs:250-262 | deletes the stored group, or fails if there is none |
| Persistence.Connection.SessionUpdate | src/mls_handshake/state_machine/mls_group.rs:74-96 | stores a pending commit on the stored group, with its error cases |
| Persistence.Connection.SessionMergeUpdate | src/mls_handshake/state_machine/mls_group.rs:98-114 | merges the stored pending commit and refreshes the cached epoch |
| Persistence.Connection.SessionProcessMlsUpdate | src/mls_handshake/state_machine/mls_group.rs:116-211 | the epoch test and the processing of a commit in place, including what a failure leaves stored |
| ClientMachine.JoinGroupSucceeds | src/mls_handshake/mod.rs:112-155 | from any consistent database, dropping an old row and joining a new group succeeds, keeps the database consistent and leaves all other rows and groups as they were |
| ClientMachine.FailedAttemptIsForgotten | src/mls_handshake/mod.rs:125-146 | a handshake that failed after the old row was deleted leaves a consistent table without the row and makes no difference to the next attempt |
| ClientMachine.ClientHandshakeState.Update | src/mls_handshake/state_machine/client.rs:222-251 | the in-place update equals its specification, in state, storage and result |
| ClientMachine.ClientHandshakeState.ProcessUpdate | src/mls_handshake/state_machine/client.rs:329-375 | likewise, accepting a server commit with or without an own commit on top |
| ClientMachine.ClientHandshakeState.ReceiveSignalingMessage | src/mls_handshake/state_machine/client.rs:253-327 | likewise for every message in every state, errors included |
| ClientMachine.ClientHandshakeState.Resume | src/mls_handshake/state_machine/client.rs:168-211 | likewise for resumption |
| ServerMachine.ServerHandshakeState.Update | src/mls_handshake/state_machine/server.rs:136-157 | the in-place update equals its specification and leaves the table alone |
| ServerMachine.ServerHandshakeState.ProcessUpdate | src/mls_handshake/state_machine/server.rs:200-234 | likewise for a client commit |
| ServerMachine.ServerHandshakeState.ReceiveSignalingMessage | src/mls_handshake/state_machine/server.rs:159-198 | likewise for every message in every state, errors included |
| MlsHandshakes.MlsHandshake.ClientHandshake | src/mls_handshake/mod.rs:112-155 | deletes an old row with its group; if then the exchange of hellos fails, reports that with the row gone and no machine; otherwise joins the group, stores the row and sets up the client machine, equal to `ClientMachine.JoinGroup` |
| MlsHandshakes.MlsHandshake.ServerHandshake | src/mls_handshake/mod.rs:81-109 | whatever is read first, nothing readable, a hello or a resumption: group, machine, result and the untouched table, errors included; the machine stays set if the answer cannot be sent |
| HandshakeTheorems.OfferIsServerHandshake | src/mls_handshake/state_machine/server.rs:78-106 | for every reachable offer, the object's handshake leaves the server, storage and secrets of the network; accepted, it answers with the confirmation of the server's epoch, and the client that processes it runs on the server's history under the same secrets; refused, there is no connection |
| HandshakeTheorems.HelloIsServerHandshake | src/mls_handshake/state_machine/server.rs:42-76 | for a hello it leaves the server and storage of a fresh connection, with the secrets the client takes up and every other group kept |
| HandshakeTheorems.ServerHandshakeFailures | src/mls_handshake/mod.rs:86-109 | nothing readable changes nothing, a refusal leaves the handshake as it was, and an answer that cannot be sent changes only the result |
| MlsHandshakes.MlsHandshake.UpdateHandshake | src/mls_handshake/mod.rs:169-187 | an update through the machine of either role, in place: machine, storage and result, errors and a missing handshake included |
| MlsHandshakes.MlsHandshake.ProcessSignalingMessage | src/mls_handshake/mod.rs:189-207 | likewise for a received message |
| MlsHandshakes.MlsHandshake.DeleteHandshake | src/mls_handshake/mod.rs:209-221 | deletes a client's row and group or a server's group |
| Driver.EncryptionProvider.Send | src/encryption_provider/mod.rs:555-560 | a message leaves under the current key and number |
| Driver.EncryptionProvider.UpdateCipher | src/encryption_provider/mod.rs:374-387 | updating the shared cipher through writer and reader installs the secrets once and leaves the sequence numbers |
| Driver.EncryptionProvider.Answer | src/encryption_provider/mod.rs:406-412 | a response leaves under the old key and number, and then the keys change; if it does not leave they stay |
| Driver.EncryptionProvider.ReadMessage | src/encryption_provider/mod.rs:422-427 | the next message, a decryption error that consumes no number, or the end of the stream |
| Driver.EncryptionProvider.ProcessReadMessage | src/encryption_provider/mod.rs:430-452 | data is returned; a signaling message is answered under the old key before the keys change; on an error of handshake or transport, what the handshake had already changed stays |
| Driver.EncryptionProvider.ReadBytesInner | src/encryption_provider/mod.rs:391-420 | the loop equals reading and processing until data, an error of handshake or transport, or the end of the stream, with the endpoint given in every case |
| DriverTheorems.ProcessOutcome | src/encryption_provider/mod.rs:430-452 | in every case of processing: an error of handshake or transport leaves all keys as they were, and an answer leaves under the key and number from before |
| DriverTheorems.ReadLoopStops | src/encryption_provider/mod.rs:391-420 | a record that does not open ends the read with nothing else changed |
| Driver.EncryptionProvider.StartUpdate | src/encryption_provider/mod.rs:460-475 | a due update through the handshake object: sent, refused because one waits, failed in the handshake, or failed in the transport, which leaves handshake moved on and keys and policy as they were |
| Driver.EncryptionProvider.StartUpdateIfDue | src/encryption_provider/mod.rs:459-476 | the update attempt before a send, with all its outcomes |
| Driver.EncryptionProvider.SendBytes | src/encryption_provider/mod.rs:454-485 | endpoint, policy and records after a send, for every error of the handshake and every failure of the transport on either message; the data is counted also if it does not leave |
| DriverTheorems.ClientReadBytes | src/encryption_provider/mod.rs:391-420 | the client's read succeeds, is a number of read-and-process rounds of the network, and returns the oldest data in flight |
| DriverTheorems.ServerReadBytes | src/encryption_provider/mod.rs:391-420 | the same at the server |
| DriverTheorems.ClientSendBytes | src/encryption_provider/mod.rs:454-485 | the client's send succeeds under every policy and is an update, if due, followed by a send of the network |
| DriverTheorems.ServerSendBytes | src/encryption_provider/mod.rs:454-485 | the same at the server, also before the client has its confirmation |
| DriverTheorems.SendWhenReached | src/encryption_provider/mod.rs:459-484 | a send that finds the time or traffic limit reached only sends if the handshake waits for a response, fails without sending if there is no handshake, no group or a pending commit, fails with a commit made and keys and limits as they were if the update does not leave, and otherwise updates, starts both limits afresh and sends; the message is counted whether it leaves or not |
| DriverTheorems.SendWhenNotReached | src/encryption_provider/mod.rs:459-484 | below both limits a send leaves the handshake alone, sends if the transport lets it, and counts its bytes in any case |
| DriverTheorems.CounterOverAttempts | src/encryption_provider/update_policy.rs:108-132 | over any run of sends, over a transport that may fail, the traffic counter equals, modulo 2^64, the bytes of the messages that calls got as far as sending since the last completed update, or, as long as there was none, what it started with plus all such bytes |
| UpdatePolicies.CounterSinceLastUpdate | src/encryption_provider/update_policy.rs:43-70 | the same for the policy alone |
| UpdatePolicies.UpdatePolicy.Reset | src/encryption_provider/update_policy.rs:56-63 | time set, counter zero |
| UpdatePolicies.UpdatePolicy.IncrementBytesTransferred | src/encryption_provider/update_policy.rs:65-69 | counter advanced with 64-bit wrap-around |
| Frames.Decode | src/tls_aead/codec.rs:34-52 | consumes nothing without a complete frame, otherwise splits off exactly header and payload |
| Frames.Encode | src/tls_aead/codec.rs:58-66 | appends one frame |
| Frames.HeaderBytes | src/tls_aead/codec.rs:58-66 | the header is content type 23, version 3.3 and the length in two bytes |
| Frames.DecodesIff | src/tls_aead/codec.rs:34-52 | whatever the other header bytes say, there is a frame if and only if the bytes it announces are there, and nothing is lost |
| Frames.RoundTripIff | src/tls_aead/codec.rs:34-66 | a payload survives encoding and decoding if and only if its length fits 16 bits |
| Frames.ArrivalDoesNotMatter | src/tls_aead/codec.rs:34-52 | any way of cutting a byte stream into reads yields the packets and the remainder of the stream as a whole |
| Frames.StreamRoundTrip | src/tls_aead/codec.rs:34-66 | the frames of any short payloads, in any reads, decode to exactly those payloads in order with nothing left |
| Frames.StreamPrefix | src/tls_aead/codec.rs:34-66 | after any part of the stream, in any reads, a prefix of the payloads is out and a strict prefix of the next frame waits |
| KeyLabels.ParseUndoesLabel | src/tls_aead/key_generation.rs:22-57 | a parser recovers length, label and context from the info bytes of every accepted call |
| KeyLabels.LabelInjective | src/tls_aead/key_generation.rs:22-57 | distinct triples have distinct info bytes |
| KeyLabels.ExpandSecretWorks | src/tls_aead/key_generation.rs:67-133 | expansion fails exactly for a handshake hash over 255 bytes and otherwise yields a 12-byte IV |
| KeyLabels.DerivationsAreSeparated | src/tls_aead/key_generation.rs:67-133 | the info bytes of the two directions, and of key and IV, differ |
| KeyLabels.LabelAcceptedIff | src/tls_aead/key_generation.rs:22-57 | a call is accepted if and only if its three lengths fit their fields |
| KeyLabels.LabelUndoesParse | src/tls_aead/key_generation.rs:22-57 | info bytes that parse are those of an accepted call, so label and info determine each other |
| KeyLabels.LabelTexts | src/tls_aead/key_generation.rs:67-133 | what the five labels read as ASCII text |
| KeyLabels.ExpandSecretDerives | src/tls_aead/key_generation.rs:67-133 | key and IV are expansions of 32 and 12 bytes, under "key" and "iv", of the 64-byte expansion of the secret under the given name and handshake hash |
| KeyLabels.DirectionsNeverMeet | src/tls_aead/key_generation.rs:67-133 | from one secret the two directions never get the same key unless one of the four expansions collides |
| AeadCodec.InstalledIsGiven | src/tls_aead/mod.rs:164-231 | every update gives each direction it names the keys derived from its secret under that direction's label, at either role, and leaves the other direction alone |
| Nonces.MakeIv | src/tls_aead/mod.rs:234-244 | the loop computes the nonce of section 5.3 of RFC 8446 for every IV and sequence number and refuses other IV lengths |
| Nonces.NonceInjective | src/tls_aead/mod.rs:234-244 | for one IV, different sequence numbers give different nonces |
| Nonces.NonceBytes | src/tls_aead/mod.rs:234-244 | the nonce byte by byte: four bytes of the IV, then eight masked with the digits of the sequence number, most significant first |
| Nonces.NoncesMeetIff | src/tls_aead/mod.rs:292-320 | over the life of a codec, two records under the same IV share a nonce if and only if a multiple of 2^64 records lies between them |
| Nonces.NoncesUnique | src/tls_aead/mod.rs:292-320 | within 2^64 records of a codec no key and nonce repeat, even if the same keys are installed again; `Repetition.NoncesNeverRepeat` has the runs with several codecs |
| AeadCodec.ChunksPartition | src/tls_aead/mod.rs:297-298 | chunks are non-empty, together the data, and all but the last have exactly 32768 bytes |
| AeadCodec.OneRecordIff | src/tls_aead/mod.rs:292-320 | a message is one record if and only if it has 1 to 32768 bytes |
| AeadCodec.SealedHeader | src/tls_aead/mod.rs:297-318 | the associated data is the header the frame codec writes, the 16-bit length does not truncate, the frame is longer than 22 bytes, and the record opens to its chunk |
| AeadCodec.SealedBytes | src/tls_aead/mod.rs:297-318 | the plaintext and associated data of a record byte by byte |
| AeadCodec.OpenRecordMeans | src/tls_aead/mod.rs:342-363 | a message comes out if and only if it was authenticated with one more byte behind it; a wrong tag is reported exactly for what does not open |
| AeadCodec.DataRoundTrip | src/tls_aead/mod.rs:292-363 | for data of any length, the records open in order and together are the data |
| AeadCodec.KeysByLastSecret | src/tls_aead/mod.rs:164-231 | after any list of updates each key of either role is that of the last secret given for its direction, or unchanged if there was none |
| AeadCodec.MirroredByLastSecret | src/tls_aead/mod.rs:164-231 | client and server mirror each other if, over two lists of updates that may divide the secrets differently, they were last given the same secret for each direction |
| AeadCodec.TlsAeadCodec.constructor | src/tls_aead/mod.rs:119-162 | keys derived for the role from the two secrets, sequence numbers zero |
| AeadCodec.TlsAeadCodec.UpdateTrafficSecrets | src/tls_aead/mod.rs:164-231 | each direction named gets the keys derived from its secret under its label, the other keeps its own; unchanged sequence numbers |
| AeadCodec.TlsAeadCodec.Encrypt | src/tls_aead/mod.rs:292-320 | queues one record per chunk under consecutive numbers and keeps every nonce of the codec's life counted |
| AeadCodec.TlsAeadCodec.EncryptWithHeader | src/tls_aead/mod.rs:251-285 | yields the frames of exactly the records that `Encrypt` queues from the same state |
| AeadCodec.TlsAeadCodec.Decrypt | src/tls_aead/mod.rs:342-363 | a ciphertext that does not authenticate under receive key, nonce and associated data is rejected and uses up no number; one that does yields its plaintext without the last byte and uses up one |
| AeadCodec.TlsAeadCodec.DecryptWithHeader | src/tls_aead/mod.rs:327-334 | its two special lengths; all longer data is opened with its first five bytes as associated data, whatever its length field says, and rejected without using up a number if it does not authenticate |
| StreamSink.TlsAeadSink.TryEmptyBuffer | src/tls_aead/stream_sink.rs:64-79 | exactly the records go that the transport lets through, in order: ready if and only if it answers ready once, or once per record, and refuses none; it stops early only at an answer that is not ready, which it passes on, or at a refusal, which loses the record refused |
| StreamSink.TlsAeadSink.PollReady | src/tls_aead/stream_sink.rs:88-93 | ready if and only if the buffer goes through and the transport is ready once more; any other result is one the transport gave |
| StreamSink.TlsAeadSink.StartSend | src/tls_aead/stream_sink.rs:95-107 | the item's records are queued behind everything on its way |
| StreamSink.TlsAeadSink.PollFlush | src/tls_aead/stream_sink.rs:109-114 | likewise, and then every record encrypted so far has been handed over |
| StreamSink.TlsAeadSink.PollClose | src/tls_aead/stream_sink.rs:116-121 | likewise |
| StreamSink.PollNext | src/tls_aead/stream_sink.rs:153-175 | a packet that does not authenticate with its own header under the next number is rejected and uses up no number; one that does is delivered with that header, and, if only sealed records open, was sealed under exactly that key, number and header |
| Pipeline.EndToEnd | src/tls_aead/stream_sink.rs:95-170 | messages of one record each, sealed under changing keys, framed and cut into arbitrary reads, come out unchanged and in order; `Wire` derives the keys from the protocol |
| Pipeline.EndToEndPrefix | src/tls_aead/stream_sink.rs:95-170 | a part of the stream delivers a prefix of the messages |
| Wire.ClientWire | src/tls_aead/stream_sink.rs:95-170 | in every reachable state the bytes in flight to the client, in any reads, decode to one packet per record and open in order, under the keys the client's own history gives it by then, to the plaintexts sent |
| Wire.ServerWire | src/tls_aead/stream_sink.rs:95-170 | the same for the bytes in flight to the server |
| Wire.ReadAgrees | src/tls_aead/stream_sink.rs:153-170 | the bytes of a record open under the receiver's key and number if and only if these are the record's own, to what was sent, and otherwise the tag is wrong, for secrets with different key bytes and an AEAD that does not open it otherwise |
| Pipeline.OneRecordEach | src/tls_aead/mod.rs:292-320 | the codec makes one record of each such message, under the number the pipeline gives it |
| Pipeline.FramesAreTheStream | src/tls_aead/mod.rs:251-285 | the frames of the header-carrying path are the byte stream of the other path |
| Pipeline.ProducedFrames | src/tls_aead/mod.rs:327-334 | every produced frame is longer than the smallest record, decodes completely, and opens to its chunk |

## Left out

- The internals of MLS, AEAD, HKDF and X25519, and the validation of credentials and key packages.
- The byte encoding of messages (src/mls_handshake/messages.rs, derived by macros); messages are datatypes.
- The pre-handshake (src/pre_handshake); the protected handshake mode starts from its two shared secrets.
- Overflow of the 64-bit epoch and, in the protocol model, of the 64-bit sequence numbers, which are unbounded there; `AeadCodec` and `UpdatePolicies` wrap at 2^64 as a release build does.
- Sockets, wakers, mutex poisoning, logging, SQL text, table versions and `delete_old_versions`.
- Runs with a misbehaving peer, and runs continued after an error.
- Failures of the transport other than the loss of the connection, in runs of the protocol; the methods of `Driver` have them.
- Connections of one client that differ in whether a pre-handshake is used: all connections of a run are of one mode.
- AeadCodec.TlsAeadCodec.Decrypt: a peer's authenticated but empty plaintext, on which the code panics, is an error value.
