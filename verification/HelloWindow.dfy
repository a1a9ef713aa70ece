/**
 The time between the server's hello and the moment the client has read it. The server is established
 and may act; what it sends arrives behind the hello. Every such run is a run from the established
 connection, so all that is proved about those covers it.
 */
module HelloWindow {
  import opened Wrappers
  import opened MlsGroups
  import opened Persistence
  import opened Endpoints
  import opened Network
  import opened Simulation

  /** The client has deleted its old row and waits for the hello; the server has sent it. */
  datatype Window = Window(clientDb: Database, server: Endpoint, serverSecrets: TrafficSecrets, toClient: seq<Record>)

  const FOUNDING := CommitId(ServerParty, 0)

  function Greeted(start: Start): Result<Window, HandshakeError> {
    var d := DeleteRow(start.clientDb, start.profileId);
    var (server, groups, secrets) :=
      ServerMachine.CreateServerSession(start.serverDb.groups, start.groupId, FOUNDING);
    if d.error.Some? then Err(d.error.value)
    else
      match HandshakeCiphers(start.mode, secrets, secrets)
      case None => Err(DecodingError)
      case Some((_, cipher)) =>
        Ok(Window(d.db,
                  Endpoint(true, ServerSide(server), start.serverDb.(groups := groups), cipher, None, 1, [], []),
                  secrets, []))
  }

  function WindowNext(w: Window, a: Action): Result<Window, Fault> {
    match a
    case ServerSends(d) => Ok(Emitted(w, SendData(w.server, d)))
    case ServerUpdates(requested) =>
      (match StartUpdate(w.server, requested) case Err(f) => Err(f) case Ok(e) => Ok(Emitted(w, e)))
    case _ => Ok(w)
  }

  function Emitted(w: Window, e: Emission): Window {
    w.(server := e.end, toClient := w.toClient + e.records)
  }

  function WindowRun(w: Window, actions: seq<Action>): Result<Window, Fault>
    decreases |actions|
  {
    if actions == [] then Ok(w)
    else
      match WindowNext(w, actions[0])
      case Err(f) => Err(f)
      case Ok(w') => WindowRun(w', actions[1..])
  }

  /** The client reads the hello: it joins the group, stores its row and takes up the ciphers. */
  function HelloRead(start: Start, w: Window): Result<System, HandshakeError> {
    match ClientMachine.JoinGroup(w.clientDb, start.profileId, start.groupId, [FOUNDING])
    case Err(e) => Err(e)
    case Ok((client, db, secrets)) =>
      match HandshakeCiphers(start.mode, secrets, w.serverSecrets)
      case None => Err(DecodingError)
      case Some((cipher, _)) =>
        Ok(System(start.mode, start.groupId,
                  Endpoint(false, ClientSide(client), db, cipher, None, 0, [], []),
                  w.server, [], w.toClient, Up))
  }

  /** If the server does nothing in between, this is `Establish`. */
  lemma GreetedThenRead(start: Start)
    requires Fair(start)
    ensures
      var w := Greeted(start);
      && w.Ok? && Consistent(w.value.clientDb) && start.profileId !in w.value.clientDb.rows
      && HelloRead(start, w.value)
         == Establish(start.mode, start.clientDb, start.serverDb, start.profileId, start.groupId)
  {
    DeleteRowSucceeds(start.clientDb, start.profileId);
    ClientMachine.FailedAttemptIsForgotten(start.clientDb, start.profileId, start.groupId, [FOUNDING]);
    var secrets := Export(start.groupId, [FOUNDING]);
    HellosArrive(start.mode, secrets, secrets);
  }

  /** A step of the server and the reading of the hello commute. */
  lemma WindowCommutes(start: Start, w: Window, a: Action)
    requires AtServer(a) && HelloRead(start, w).Ok? && w.server.held.None?
    ensures
      match Next(HelloRead(start, w).value, a)
      case Err(f) => WindowNext(w, a) == Err(f)
      case Ok(s) =>
        WindowNext(w, a).Ok? && HelloRead(start, WindowNext(w, a).value) == Ok(s)
        && WindowNext(w, a).value.server.held.None?
  {
    assert w.toClient + [] == w.toClient;
  }

  predicate AllAtServer(actions: seq<Action>) {
    forall i :: 0 <= i < |actions| ==> AtServer(actions[i])
  }

  lemma {:induction false} WindowRunCommutes(start: Start, w: Window, actions: seq<Action>)
    requires AllAtServer(actions) && HelloRead(start, w).Ok? && w.server.held.None?
    requires Run(HelloRead(start, w).value, actions).Ok?
    ensures WindowRun(w, actions).Ok?
    ensures HelloRead(start, WindowRun(w, actions).value) == Ok(Run(HelloRead(start, w).value, actions).value)
    decreases |actions|
  {
    if actions != [] {
      WindowCommutes(start, w, actions[0]);
      WindowRunCommutes(start, WindowNext(w, actions[0]).value, actions[1..]);
    }
  }

  /** Whatever the server does before the client has read its hello, nothing faults, and the client reading
      the hello then leads to a state that is reachable from the established connection. */
  lemma HelloWindowIsCovered(start: Start, actions: seq<Action>)
    requires Fair(start) && AllAtServer(actions)
    ensures Greeted(start).Ok? && WindowRun(Greeted(start).value, actions).Ok?
    ensures
      var r := HelloRead(start, WindowRun(Greeted(start).value, actions).value);
      r.Ok? && RunFrom(start, actions) == Some(r.value) && Reachable(r.value)
  {
    GreetedThenRead(start);
    HonestRunsNeverFault(start, actions);
    WindowRunCommutes(start, Greeted(start).value, actions);
  }
}
