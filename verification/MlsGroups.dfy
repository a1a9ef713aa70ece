/**
 The MLS group behind a connection, as src/mls_handshake/state_machine/mls_group.rs uses it.

 What the MLS library does is not part of this model. It enters through four functions on `Group`
 (`SelfUpdate`, `MergePending`, `ClearPending`, `ProcessCommit`) and through `Export`, which makes a
 traffic secret a function of the group and its history of merged commits.
 */
module MlsGroups {
  import opened Wrappers

  datatype Party = ClientParty | ServerParty

  /** One self-update commit; the serial stands for the randomness that makes commits distinct. */
  datatype CommitId = CommitId(origin: Party, serial: nat)

  type History = seq<CommitId>

  type GroupId = nat

  type ProfileId = nat

  /** A commit in transit: the history it was built on and the commit itself. */
  datatype Commit = Commit(groupId: GroupId, base: History, id: CommitId) {
    function Epoch(): nat { |base| }

    function Applied(): History { base + [id] }
  }

  /** The epoch of a group is the length of its history: creation is epoch 0, each merge adds one. */
  datatype Group = Group(history: History, pending: Option<CommitId>)

  type Groups = map<GroupId, Group>

  datatype Secret =
    | ClientSecret(groupId: GroupId, history: History)
    | ServerSecret(groupId: GroupId, history: History)
    | PreHandshakeClientSecret
    | PreHandshakeServerSecret

  datatype TrafficSecrets = TrafficSecrets(client: Secret, server: Secret)

  datatype SecretUpdate = OnlyClient(client: Secret) | OnlyServer(server: Secret) | Both(secrets: TrafficSecrets)

  datatype HandshakeError =
    | InvalidSessionId
    | ResumptionError
    | ConnectionUpdateError
    | UnexpectedMessage
    | ValidationError
    | WaitingForResponse
    | PersistenceError
    | Uninitialized
    | DecodingError  // a hello that cannot be read
    | TransportError  // a hello that cannot be sent
    | Todo  // the two `todo!()` branches for KeyUpdate

  datatype MlsSession = MlsSession(groupId: GroupId, epoch: nat)

  // ----- the MLS library -----

  function Export(groupId: GroupId, history: History): TrafficSecrets {
    TrafficSecrets(ClientSecret(groupId, history), ServerSecret(groupId, history))
  }

  function SelfUpdate(g: Group, id: CommitId): Option<Group> {
    if g.pending.Some? then None else Some(g.(pending := Some(id)))
  }

  /** Merging without a pending commit is accepted and changes nothing. */
  function MergePending(g: Group): Group {
    if g.pending.Some? then Group(g.history + [g.pending.value], None) else g
  }

  function ClearPending(g: Group): Group {
    g.(pending := None)
  }

  /** A commit is accepted on exactly the history it was built on. */
  function ProcessCommit(g: Group, commit: Commit): Option<Group> {
    if commit.base == g.history then Some(Group(commit.Applied(), None)) else None
  }

  // ----- MlsSession -----

  /** Every session operation may change the stored groups even when it reports an error. */
  datatype Stepped<+T> = Stepped(groups: Groups, result: Result<T, HandshakeError>)

  function Update(s: MlsSession, groups: Groups, id: CommitId): Stepped<Commit> {
    if s.groupId !in groups then Stepped(groups, Err(InvalidSessionId))
    else
      var g := groups[s.groupId];
      match SelfUpdate(g, id)
      case None => Stepped(groups, Err(ResumptionError))
      case Some(g') => Stepped(groups[s.groupId := g'], Ok(Commit(s.groupId, g.history, id)))
  }

  function MergeUpdate(s: MlsSession, groups: Groups): Stepped<(MlsSession, TrafficSecrets)> {
    if s.groupId !in groups then Stepped(groups, Err(InvalidSessionId))
    else
      var g := MergePending(groups[s.groupId]);
      Stepped(groups[s.groupId := g],
              Ok((s.(epoch := |g.history|), Export(s.groupId, g.history))))
  }

  /** The three-way epoch test: merge the own pending commit, drop it, or leave it. */
  function Resolve(g: Group, commit: Commit, dropPending: bool): Group {
    if commit.Epoch() == |g.history| + 1 && g.pending.Some? then MergePending(g)
    else if dropPending then ClearPending(g)
    else g
  }

  function ProcessMlsUpdate(groups: Groups, commit: Commit, dropPending: bool)
    : Stepped<(TrafficSecrets, MlsSession)>
  {
    if commit.groupId !in groups then Stepped(groups, Err(InvalidSessionId))
    else
      var g := Resolve(groups[commit.groupId], commit, dropPending);
      match ProcessCommit(g, commit)
      case None => Stepped(groups[commit.groupId := g], Err(ConnectionUpdateError))
      case Some(g') =>
        Stepped(groups[commit.groupId := g'],
                Ok((Export(commit.groupId, g'.history), MlsSession(commit.groupId, |g'.history|))))
  }

  function ProcessEpochKeyUpdate(s: MlsSession, groups: Groups, epoch: nat): Option<HandshakeError> {
    if s.groupId !in groups then Some(InvalidSessionId)
    else if |groups[s.groupId].history| != epoch then Some(ValidationError)
    else None
  }

  function CreateEpochKeyUpdate(s: MlsSession, groups: Groups): Result<nat, HandshakeError> {
    if s.groupId !in groups then Err(InvalidSessionId) else Ok(|groups[s.groupId].history|)
  }

  function Delete(s: MlsSession, groups: Groups): Stepped<()> {
    if s.groupId !in groups then Stepped(groups, Err(InvalidSessionId))
    else Stepped(groups - {s.groupId}, Ok(()))
  }
}
