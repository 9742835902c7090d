/**
 Server connections and the snapshots broadcast to them (packages/server/src/server.ts, snapshots.ts), with what the
 client makes of those snapshots (packages/client/src/state.ts).

 `Step` is one stretch of code between two `await`s. Bytes arrive, sends fail, timers fire and backends answer when
 they like, so a run is any sequence of events.
 */
module ServerConnections {
  import opened ClientStates
  import opened Options

  type ConnectionId = nat

  datatype Stage = AwaitingHello | Handshaking | Ready | Closing | Closed

  /** `Snapshot` is a server snapshot event: sent by a broadcast, or to catch up after the handshake. */
  datatype Frame = Hello(revision: nat) | HelloError | Snapshot(revision: nat, catchUp: bool) | Other

  /** How far `finishHandshake` has come; the revision is that of the snapshot it holds or is getting. */
  datatype Handshake = NotStarted | Getting(revision: nat) | SendingHello(revision: nat) | CatchingUp(revision: nat) | Finished

  datatype Message = HelloMessage(authenticated: bool, supported: bool) | Request

  /** `lost` means that the transport has closed or failed, or is being closed by the server. */
  datatype Connection = Connection(
    stage: Stage,
    disconnected: bool,
    lost: bool,
    accepted: bool,
    handshake: Handshake,
    deferred: nat,
    commands: nat,
    outbox: seq<Frame>)

  const FRESH := Connection(AwaitingHello, false, false, false, NotStarted, 0, 0, [])

  datatype Broadcast = Broadcast(revision: nat, recipients: seq<ConnectionId>)

  datatype Server = Server(
    connections: map<ConnectionId, Connection>,
    order: seq<ConnectionId>,
    revision: nat,
    queued: nat,
    active: Option<Broadcast>,
    closing: bool)

  const INITIAL := Server(map[], [], 0, 0, None, false)

  datatype Event =
    | Accept(id: ConnectionId)
    | Receive(id: ConnectionId, message: Message)
    | BadChunk(id: ConnectionId)
    | Timeout(id: ConnectionId)
    | SnapshotReady(id: ConnectionId)
    | SnapshotFails(id: ConnectionId)
    | HelloSent(id: ConnectionId)
    | DeferredRuns(id: ConnectionId)
    | Respond(id: ConnectionId)
    | HelloSendFails(id: ConnectionId)
    | Lose(id: ConnectionId)
    | Disconnect(id: ConnectionId)
    | RequestBroadcast
    | StartBroadcast
    | SendNext
    | BroadcastFails
    | Close
    | CloseConnections

  // ----- one connection -----

  predicate IsTerminal(c: Connection) {
    c.disconnected || c.stage.Closing? || c.stage.Closed?
  }

  /** Nothing is sent on a connection that is gone. */
  function Send(c: Connection, frame: Frame): Connection {
    if c.disconnected || c.lost then c else c.(outbox := c.outbox + [frame])
  }

  /** Closes the connection with a final error frame; `Disconnect` follows. */
  function FailProtocol(c: Connection): Connection {
    if IsTerminal(c) then c else Send(c, HelloError).(stage := Closing, lost := true)
  }

  function OnReceive(c: Connection, message: Message, revision: nat): Connection {
    if IsTerminal(c) then c
    else if c.stage.AwaitingHello? then
      if !message.HelloMessage? then FailProtocol(c)
      else if !message.authenticated || !message.supported then FailProtocol(c.(stage := Handshaking, handshake := Finished))
      else c.(stage := Handshaking, accepted := true, handshake := Getting(revision))
    else if message.HelloMessage? then FailProtocol(c)
    else if c.stage.Ready? then c.(commands := c.commands + 1)
    else c.(deferred := c.deferred + 1)
  }

  /** The snapshot that the handshake waits for is there. */
  function OnSnapshot(c: Connection, closing: bool): Connection {
    match c.handshake
    case Getting(revision) =>
      if closing || c.disconnected || !c.stage.Handshaking? || c.lost then c.(handshake := Finished)
      else Send(c, Hello(revision)).(handshake := SendingHello(revision))
    case CatchingUp(revision) => Send(c, Snapshot(revision, true)).(handshake := Finished)
    case _ => c
  }

  function OnSnapshotFailure(c: Connection): Connection {
    if c.handshake.Getting? || c.handshake.CatchingUp? then FailProtocol(c.(handshake := Finished)) else c
  }

  /** The hello has been sent, while the server has come to `current`. */
  function OnHelloSent(c: Connection, current: nat): Connection {
    if !c.handshake.SendingHello? then c
    else if c.disconnected || !c.stage.Handshaking? then c.(handshake := Finished)
    else
      c.(stage := Ready, handshake := if c.handshake.revision != current then CatchingUp(current) else Finished)
  }

  function OnDeferred(c: Connection): Connection {
    if c.deferred == 0 || !c.handshake.Finished? then c
    else if c.stage.Ready? && !c.disconnected then c.(deferred := c.deferred - 1, commands := c.commands + 1)
    else c.(deferred := c.deferred - 1)
  }

  function OnRespond(c: Connection): Connection {
    if c.commands == 0 then c else Send(c, Other)
  }

  /** A hello that could not be sent ends the handshake, and the server closes the transport. */
  function OnHelloSendFailure(c: Connection): Connection {
    if c.handshake.SendingHello? then c.(lost := true, handshake := Finished) else c
  }

  function OnDisconnect(c: Connection): Connection {
    if c.disconnected then c else c.(disconnected := true, stage := Closed)
  }

  function OnServerClose(c: Connection): Connection {
    if c.disconnected then c else c.(stage := Closing, lost := true)
  }

  // ----- the server -----

  predicate IsReady(c: Connection) {
    c.stage.Ready? && !c.disconnected
  }

  /** The ready ones among `ids`, in the same order. */
  function ReadyAmong(ids: seq<ConnectionId>, connections: map<ConnectionId, Connection>): (r: seq<ConnectionId>)
    ensures forall id :: id in r <==> id in ids && id in connections && IsReady(connections[id])
    ensures Distinct(ids) ==> Distinct(r)
  {
    if ids == [] then []
    else
      var last := ids[|ids| - 1];
      ReadyAmong(ids[..|ids| - 1], connections)
      + if last in connections && IsReady(connections[last]) then [last] else []
  }

  predicate Distinct(ids: seq<ConnectionId>) {
    forall i, j | 0 <= i < j < |ids| :: ids[i] != ids[j]
  }

  function Update(s: Server, id: ConnectionId, c: Connection): Server {
    s.(connections := s.connections[id := c])
  }

  function DoStartBroadcast(s: Server): Server {
    if s.active.Some? || s.queued == 0 then s
    else
      var started := s.(queued := s.queued - 1);
      var ready := ReadyAmong(s.order, s.connections);
      if ready == [] || s.closing then started
      else started.(revision := s.revision + 1, active := Some(Broadcast(s.revision + 1, ready)))
  }

  function DoSendNext(s: Server): Server {
    if s.active.None? then s
    else
      var b := s.active.value;
      if b.recipients == [] then s.(active := None)
      else
        var id := b.recipients[0];
        var sent := if id in s.connections then Update(s, id, Send(s.connections[id], Snapshot(b.revision, false))) else s;
        sent.(active := Some(b.(recipients := b.recipients[1..])))
  }

  function OnConnection(s: Server, e: Event, c: Connection): Connection {
    match e
    case Receive(_, message) => OnReceive(c, message, s.revision)
    case BadChunk(_) => FailProtocol(c)
    case Timeout(_) => if c.stage.AwaitingHello? || c.stage.Handshaking? then FailProtocol(c) else c
    case SnapshotReady(_) => OnSnapshot(c, s.closing)
    case SnapshotFails(_) => OnSnapshotFailure(c)
    case HelloSent(_) => OnHelloSent(c, s.revision)
    case DeferredRuns(_) => OnDeferred(c)
    case Respond(_) => OnRespond(c)
    case HelloSendFails(_) => OnHelloSendFailure(c)
    case Lose(_) => c.(lost := true)
    case Disconnect(_) => OnDisconnect(c)
    case _ => c
  }

  function Step(s: Server, e: Event): Server {
    match e
    case Accept(id) => if id in s.connections || s.closing then s
                        else Update(s, id, FRESH).(order := s.order + [id])
    case RequestBroadcast => s.(queued := s.queued + 1)
    case StartBroadcast => DoStartBroadcast(s)
    case SendNext => DoSendNext(s)
    case BroadcastFails => s.(active := None)
    case Close => s.(closing := true)
    case CloseConnections =>
      if s.closing then s.(connections := map id | id in s.connections :: OnServerClose(s.connections[id])) else s
    case _ => if e.id in s.connections then Update(s, e.id, OnConnection(s, e, s.connections[e.id])) else s
  }

  function Run(s: Server, events: seq<Event>): Server
    decreases |events|
  {
    if events == [] then s else Run(Step(s, events[0]), events[1..])
  }

  // ----- what the client makes of it -----

  /** The connection begins with the snapshot in the hello. */
  function Apply(stored: Option<nat>, frame: Frame): Option<nat> {
    match frame
    case Hello(revision) => Stored(stored, revision)
    case Snapshot(revision, _) => Stored(stored, revision)
    case _ => stored
  }

  function Stored(stored: Option<nat>, revision: nat): Option<nat> {
    if IsStale(stored, revision) then stored else Some(revision)
  }

  function ClientRevision(frames: seq<Frame>): Option<nat> {
    if frames == [] then None else Apply(ClientRevision(frames[..|frames| - 1]), frames[|frames| - 1])
  }

  /** The revisions that broadcasts have sent on a connection, in order. */
  function Broadcasts(frames: seq<Frame>): seq<nat> {
    if frames == [] then []
    else
      var last := frames[|frames| - 1];
      Broadcasts(frames[..|frames| - 1]) + if last.Snapshot? && !last.catchUp then [last.revision] else []
  }

  lemma SendEffect(c: Connection, frame: Frame)
    ensures c.disconnected || c.lost ==> Send(c, frame) == c
    ensures !c.disconnected && !c.lost ==>
              && ClientRevision(Send(c, frame).outbox) == Apply(ClientRevision(c.outbox), frame)
              && Broadcasts(Send(c, frame).outbox)
                 == Broadcasts(c.outbox) + if frame.Snapshot? && !frame.catchUp then [frame.revision] else []
  {
    assert (c.outbox + [frame])[..|c.outbox|] == c.outbox;
  }

  // ----- the invariant -----

  predicate HelloFirst(c: Connection) {
    c.outbox != [] && c.outbox[0].Hello?
  }

  /** What the stage of a connection says about it. */
  predicate StageOk(c: Connection) {
    && (c.stage.Closed? <==> c.disconnected)
    && (c.stage.Closing? ==> c.lost)
    && (c.stage.AwaitingHello? ==> c.handshake.NotStarted?)
    && (c.stage.Handshaking? ==> c.accepted && !c.handshake.NotStarted? && !c.handshake.CatchingUp?)
    && (c.stage.Ready? ==> c.accepted && HelloFirst(c) && (c.handshake.CatchingUp? || c.handshake.Finished?))
    && (c.handshake.Getting? ==> c.accepted)
    && (c.handshake.SendingHello? || c.handshake.CatchingUp? || c.commands > 0 ==> c.accepted && HelloFirst(c))
    && (c.outbox != [] ==> c.outbox[0].Hello? || c.outbox[0].HelloError?)
    && (!HelloFirst(c) && c.outbox != [] ==> c.lost)
    && (HelloFirst(c) ==> !c.handshake.NotStarted? && !c.handshake.Getting?)
  }

  predicate AllUpTo(revisions: seq<nat>, bound: nat) {
    forall i | 0 <= i < |revisions| :: revisions[i] <= bound
  }

  predicate Increasing(revisions: seq<nat>) {
    forall i, j | 0 <= i < j < |revisions| :: revisions[i] < revisions[j]
  }

  /** The revisions on their way to a client are those of this server, and its broadcasts come in order. */
  predicate RevisionsOk(c: Connection, revision: nat) {
    && (ClientRevision(c.outbox).Some? <==> HelloFirst(c))
    && (ClientRevision(c.outbox).Some? ==> ClientRevision(c.outbox).value <= revision)
    && AllUpTo(Broadcasts(c.outbox), revision) && Increasing(Broadcasts(c.outbox))
    && (c.handshake.Getting? || c.handshake.SendingHello? || c.handshake.CatchingUp? ==> c.handshake.revision <= revision)
    && (c.handshake.SendingHello? ==> ClientRevision(c.outbox) == Some(c.handshake.revision))
  }

  /** A recipient that the broadcast under way has not reached: nothing sent or promised to it is this new. */
  predicate Owed(c: Connection, revision: nat) {
    && !c.stage.AwaitingHello? && !c.stage.Handshaking? && HelloFirst(c)
    && ClientRevision(c.outbox).Some? && ClientRevision(c.outbox).value < revision
    && (forall i | 0 <= i < |Broadcasts(c.outbox)| :: Broadcasts(c.outbox)[i] < revision)
    && (c.handshake.CatchingUp? ==> c.handshake.revision < revision)
    && (IsReady(c) ==> c.handshake.CatchingUp? || c.handshake.Finished?)
  }

  /** A connection that can be served. */
  predicate IsLive(c: Connection) {
    IsReady(c) && !c.lost
  }

  predicate IsRecipient(id: ConnectionId, active: Option<Broadcast>) {
    active.Some? && id in active.value.recipients
  }

  /** A live connection has the current revision, is getting it, or is still to be reached by its broadcast. */
  predicate KeptUp(id: ConnectionId, c: Connection, revision: nat, active: Option<Broadcast>) {
    IsLive(c) ==>
      || ClientRevision(c.outbox) == Some(revision)
      || c.handshake == CatchingUp(revision)
      || IsRecipient(id, active)
  }

  /** `strict` asks for `KeptUp` too, which a failing broadcast may break; the rest always holds. */
  predicate ConnectionOk(id: ConnectionId, c: Connection, revision: nat, active: Option<Broadcast>, strict: bool) {
    && StageOk(c) && RevisionsOk(c, revision)
    && (strict ==> KeptUp(id, c, revision, active))
    && (IsRecipient(id, active) ==> Owed(c, revision))
  }

  ghost predicate Inv(s: Server, strict: bool) {
    && Distinct(s.order)
    && (forall id :: id in s.order <==> id in s.connections)
    && (s.active.Some? ==> s.active.value.revision == s.revision && Distinct(s.active.value.recipients))
    && (forall id | IsRecipient(id, s.active) :: id in s.connections)
    && (forall id | id in s.connections :: ConnectionOk(id, s.connections[id], s.revision, s.active, strict))
  }

  // ----- events of one connection -----

  lemma StageKeptByFail(c: Connection, handshake: Handshake)
    requires StageOk(c) && (handshake == c.handshake || (handshake.Finished? && !c.stage.AwaitingHello?))
    ensures StageOk(FailProtocol(c.(handshake := handshake)))
  {}

  lemma StageKept(s: Server, e: Event, c: Connection)
    requires StageOk(c)
    ensures StageOk(OnConnection(s, e, c))
  {
    match e
    case Receive(_, message) =>
      StageKeptByFail(c, c.handshake);
      if !IsTerminal(c) && c.stage.AwaitingHello? && message.HelloMessage? && (!message.authenticated || !message.supported) {
        assert c.outbox == [] || c.lost;
      }
    case BadChunk(_) => StageKeptByFail(c, c.handshake);
    case Timeout(_) => StageKeptByFail(c, c.handshake);
    case SnapshotFails(_) =>
      hide FailProtocol;
      if c.handshake.Getting? || c.handshake.CatchingUp? {
        StageKeptByFail(c, Finished);
      }
    case _ =>
  }

  /** A frame that carries no revision. */
  lemma RevisionsKeptByPlainFrame(c: Connection, frame: Frame, revision: nat)
    requires RevisionsOk(c, revision) && (frame.HelloError? || frame.Other?)
    ensures RevisionsOk(Send(c, frame), revision)
    ensures ClientRevision(Send(c, frame).outbox) == ClientRevision(c.outbox)
    ensures Broadcasts(Send(c, frame).outbox) == Broadcasts(c.outbox)
    ensures HelloFirst(Send(c, frame)) == HelloFirst(c)
  {
    hide ClientRevision, Broadcasts, AllUpTo, Increasing;
    SendEffect(c, frame);
    assert Broadcasts(c.outbox) + [] == Broadcasts(c.outbox);
  }

  /** Only the outbox and the handshake matter, and a handshake may end at any time. */
  lemma RevisionsOfOutbox(c: Connection, d: Connection, revision: nat)
    requires RevisionsOk(c, revision) && d.outbox == c.outbox && (d.handshake == c.handshake || d.handshake.Finished?)
    ensures RevisionsOk(d, revision)
  {
    hide ClientRevision, Broadcasts, AllUpTo, Increasing;
  }

  lemma RevisionsKeptByFail(c: Connection, handshake: Handshake, revision: nat)
    requires RevisionsOk(c, revision) && (handshake == c.handshake || handshake.Finished?)
    ensures RevisionsOk(FailProtocol(c.(handshake := handshake)), revision)
  {
    hide RevisionsOk, ClientRevision, Broadcasts;
    var d := c.(handshake := handshake);
    RevisionsOfOutbox(c, d, revision);
    if !IsTerminal(d) {
      RevisionsKeptByPlainFrame(d, HelloError, revision);
      RevisionsOfOutbox(Send(d, HelloError), FailProtocol(d), revision);
    }
  }

  lemma RevisionsKeptBySnapshot(c: Connection, closing: bool, revision: nat)
    requires StageOk(c) && RevisionsOk(c, revision)
    ensures RevisionsOk(OnSnapshot(c, closing), revision)
  {
    hide ClientRevision, Broadcasts, AllUpTo, Increasing;
    match c.handshake
    case Getting(r) =>
      SendEffect(c, Hello(r));
      assert Broadcasts(c.outbox) + [] == Broadcasts(c.outbox);
    case CatchingUp(r) =>
      SendEffect(c, Snapshot(r, true));
      assert Broadcasts(c.outbox) + [] == Broadcasts(c.outbox);
    case _ =>
  }

  lemma RevisionsKept(s: Server, e: Event, c: Connection)
    requires StageOk(c) && RevisionsOk(c, s.revision)
    ensures RevisionsOk(OnConnection(s, e, c), s.revision)
  {
    hide RevisionsOk, FailProtocol, Send, OnSnapshot;
    match e
    case Receive(_, message) => RevisionsKeptByReceive(c, message, s.revision);
    case BadChunk(_) => RevisionsKeptByFail(c, c.handshake, s.revision);
    case Timeout(_) => RevisionsKeptByFail(c, c.handshake, s.revision);
    case SnapshotFails(_) => RevisionsKeptByFail(c, Finished, s.revision);
    case SnapshotReady(_) => RevisionsKeptBySnapshot(c, s.closing, s.revision);
    case HelloSent(_) => RevisionsKeptByHelloSent(c, s.revision);
    case Respond(_) => RevisionsKeptByPlainFrame(c, Other, s.revision);
    case _ => RevisionsOfOutbox(c, OnConnection(s, e, c), s.revision);
  }

  lemma RevisionsKeptByReceive(c: Connection, message: Message, revision: nat)
    requires StageOk(c) && RevisionsOk(c, revision)
    ensures RevisionsOk(OnReceive(c, message, revision), revision)
  {
    hide FailProtocol, ClientRevision, Broadcasts, AllUpTo, Increasing;
    RevisionsKeptByFail(c, c.handshake, revision);
    RevisionsKeptByFail(c.(stage := Handshaking), Finished, revision);
  }

  lemma RevisionsKeptByHelloSent(c: Connection, revision: nat)
    requires StageOk(c) && RevisionsOk(c, revision)
    ensures RevisionsOk(OnHelloSent(c, revision), revision)
  {
    hide ClientRevision, Broadcasts, AllUpTo, Increasing;
  }

  // a live connection stays kept up, and one still owed a broadcast stays owed

  lemma KeptUpStays(s: Server, e: Event, id: ConnectionId, c: Connection)
    requires StageOk(c) && RevisionsOk(c, s.revision) && KeptUp(id, c, s.revision, s.active)
    ensures KeptUp(id, OnConnection(s, e, c), s.revision, s.active)
  {
    hide ClientRevision, Broadcasts, AllUpTo, Increasing, IsRecipient;
    match e
    case SnapshotReady(_) =>
      if c.handshake.CatchingUp? {
        SendEffect(c, Snapshot(c.handshake.revision, true));
      }
    case Respond(_) => SendEffect(c, Other);
    case _ =>
  }

  lemma OwedStays(s: Server, e: Event, c: Connection)
    requires StageOk(c) && RevisionsOk(c, s.revision) && Owed(c, s.revision)
    ensures Owed(OnConnection(s, e, c), s.revision)
  {
    hide ClientRevision, Broadcasts, AllUpTo, Increasing;
    SendEffect(c, HelloError);
    SendEffect(c, Other);
    if c.handshake.CatchingUp? {
      SendEffect(c, Snapshot(c.handshake.revision, true));
    }
  }

  // ----- events of the whole server -----

  predicate OfConnection(e: Event) {
    match e
    case Accept(_) => false
    case RequestBroadcast => false
    case StartBroadcast => false
    case SendNext => false
    case BroadcastFails => false
    case Close => false
    case CloseConnections => false
    case _ => true
  }

  lemma ConnectionStepKeeps(s: Server, e: Event, strict: bool)
    requires Inv(s, strict) && OfConnection(e) && e.id in s.connections
    ensures Inv(Update(s, e.id, OnConnection(s, e, s.connections[e.id])), strict)
  {
    hide StageOk, RevisionsOk, KeptUp, Owed, OnConnection;
    var c := s.connections[e.id];
    assert ConnectionOk(e.id, c, s.revision, s.active, strict);
    StageKept(s, e, c);
    RevisionsKept(s, e, c);
    if strict {
      KeptUpStays(s, e, e.id, c);
    }
    if IsRecipient(e.id, s.active) {
      OwedStays(s, e, c);
    }
  }

  lemma FreshOk(id: ConnectionId, revision: nat, active: Option<Broadcast>, strict: bool)
    requires !IsRecipient(id, active)
    ensures ConnectionOk(id, FRESH, revision, active, strict)
  {}

  lemma AcceptKeeps(s: Server, id: ConnectionId, strict: bool)
    requires Inv(s, strict)
    ensures Inv(Step(s, Accept(id)), strict)
  {
    hide ConnectionOk;
    if id !in s.connections {
      FreshOk(id, s.revision, s.active, strict);
    }
  }

  /** A new broadcast is newer than anything sent or promised, and goes to every ready connection. */
  lemma StartOk(id: ConnectionId, c: Connection, revision: nat, active: Option<Broadcast>, strict: bool)
    requires ConnectionOk(id, c, revision, None, strict) && active.Some?
    requires IsRecipient(id, active) <==> IsReady(c)
    ensures ConnectionOk(id, c, revision + 1, active, strict)
  {
    hide ClientRevision, Broadcasts, Increasing;
  }

  lemma StartKeeps(s: Server, strict: bool)
    requires Inv(s, strict)
    ensures Inv(DoStartBroadcast(s), strict)
  {
    hide ConnectionOk, Distinct;
    var started := DoStartBroadcast(s);
    if started.active != s.active {
      forall id | id in s.connections
        ensures ConnectionOk(id, s.connections[id], started.revision, started.active, strict)
      {
        assert ConnectionOk(id, s.connections[id], s.revision, s.active, strict);
        StartOk(id, s.connections[id], s.revision, started.active, strict);
      }
    }
  }

  /** The recipient that a broadcast reaches. */
  lemma ReachedOk(id: ConnectionId, c: Connection, revision: nat, active: Option<Broadcast>, rest: Option<Broadcast>, strict: bool)
    requires ConnectionOk(id, c, revision, active, strict) && IsRecipient(id, active) && !IsRecipient(id, rest)
    ensures ConnectionOk(id, Send(c, Snapshot(revision, false)), revision, rest, strict)
  {
    hide ClientRevision, Broadcasts;
    SendEffect(c, Snapshot(revision, false));
  }

  lemma OtherOk(id: ConnectionId, c: Connection, revision: nat, active: Option<Broadcast>, rest: Option<Broadcast>, strict: bool)
    requires ConnectionOk(id, c, revision, active, strict) && (IsRecipient(id, active) <==> IsRecipient(id, rest))
    ensures ConnectionOk(id, c, revision, rest, strict)
  {
    hide StageOk, RevisionsOk, Owed;
  }

  lemma SendNextKeeps(s: Server, strict: bool)
    requires Inv(s, strict)
    ensures Inv(DoSendNext(s), strict)
  {
    hide ConnectionOk;
    if s.active.Some? {
      var b := s.active.value;
      var after := DoSendNext(s);
      forall id | id in s.connections
        ensures ConnectionOk(id, after.connections[id], after.revision, after.active, strict)
      {
        var c := s.connections[id];
        assert ConnectionOk(id, c, s.revision, s.active, strict);
        if b.recipients != [] && id == b.recipients[0] {
          ReachedOk(id, c, s.revision, s.active, after.active, strict);
        } else {
          OtherOk(id, c, s.revision, s.active, after.active, strict);
        }
      }
    }
  }

  lemma ServerCloseOk(id: ConnectionId, c: Connection, revision: nat, active: Option<Broadcast>, strict: bool)
    requires ConnectionOk(id, c, revision, active, strict)
    ensures ConnectionOk(id, OnServerClose(c), revision, active, strict)
  {
    hide ClientRevision, Broadcasts, AllUpTo, Increasing, IsRecipient;
  }

  lemma CloseConnectionsKeeps(s: Server, strict: bool)
    requires Inv(s, strict)
    ensures Inv(Step(s, CloseConnections), strict)
  {
    hide ConnectionOk, OnServerClose;
    forall id | id in s.connections
      ensures ConnectionOk(id, OnServerClose(s.connections[id]), s.revision, s.active, strict)
    {
      ServerCloseOk(id, s.connections[id], s.revision, s.active, strict);
    }
  }

  /** A broadcast that fails has no live connection left to reach. */
  predicate Reached(s: Server) {
    forall id | IsRecipient(id, s.active) && id in s.connections :: !IsLive(s.connections[id])
  }

  predicate Admissible(s: Server, e: Event) {
    e.BroadcastFails? ==> Reached(s)
  }

  /** Giving a broadcast up leaves someone behind exactly if someone live has not been reached. */
  lemma AbandonExact(s: Server, strict: bool)
    requires Inv(s, strict)
    ensures Inv(Step(s, BroadcastFails), strict) <==> (strict ==> Reached(s))
  {
    hide StageOk, RevisionsOk, ClientRevision, Broadcasts;
    var after := Step(s, BroadcastFails);
    forall id | id in s.connections
      ensures ConnectionOk(id, s.connections[id], s.revision, None, strict)
              <==> (strict ==> !(IsRecipient(id, s.active) && IsLive(s.connections[id])))
    {
      assert ConnectionOk(id, s.connections[id], s.revision, s.active, strict);
    }
    if Inv(after, strict) && strict {
      forall id | IsRecipient(id, s.active) && id in s.connections
        ensures !IsLive(s.connections[id])
      {
        assert ConnectionOk(id, after.connections[id], s.revision, None, strict);
      }
    }
  }

  lemma StepKeeps(s: Server, e: Event, strict: bool)
    requires Inv(s, strict)
    ensures e.BroadcastFails? || Inv(Step(s, e), strict)
  {
    hide Inv, OnConnection, Update, DoStartBroadcast, DoSendNext;
    match e
    case Accept(id) => AcceptKeeps(s, id, strict);
    case RequestBroadcast => QueueKeeps(s, s.queued + 1, s.closing, strict);
    case StartBroadcast => StartKeeps(s, strict);
    case SendNext => SendNextKeeps(s, strict);
    case Close => QueueKeeps(s, s.queued, true, strict);
    case CloseConnections => CloseConnectionsKeeps(s, strict);
    case BroadcastFails =>
    case _ =>
      if e.id in s.connections {
        ConnectionStepKeeps(s, e, strict);
      }
  }

  /** Every step keeps the invariant, except that a failing broadcast does so exactly if it has reached everyone live. */
  lemma StepExact(s: Server, e: Event)
    requires Inv(s, true)
    ensures Inv(Step(s, e), true) <==> Admissible(s, e)
  {
    hide Inv, Reached, Step;
    if e.BroadcastFails? {
      AbandonExact(s, true);
    } else {
      StepKeeps(s, e, true);
    }
  }

  lemma QueueKeeps(s: Server, queued: nat, closing: bool, strict: bool)
    requires Inv(s, strict)
    ensures Inv(s.(queued := queued), strict) && Inv(s.(closing := closing), strict)
  {
    hide ConnectionOk;
  }

  predicate AdmissibleRun(s: Server, events: seq<Event>)
    decreases |events|
  {
    events == [] || (Admissible(s, events[0]) && AdmissibleRun(Step(s, events[0]), events[1..]))
  }

  lemma {:induction false} RunInv(s: Server, events: seq<Event>)
    requires Inv(s, true) && AdmissibleRun(s, events)
    ensures Inv(Run(s, events), true)
    decreases |events|
  {
    hide Inv, Step, Admissible;
    if events != [] {
      StepExact(s, events[0]);
      RunInv(Step(s, events[0]), events[1..]);
    }
  }

  lemma {:induction false} RunSafe(s: Server, events: seq<Event>)
    requires Inv(s, false)
    ensures Inv(Run(s, events), false)
    decreases |events|
  {
    hide Inv, Step;
    if events != [] {
      if events[0].BroadcastFails? {
        AbandonExact(s, false);
      } else {
        StepKeeps(s, events[0], false);
      }
      RunSafe(Step(s, events[0]), events[1..]);
    }
  }

  lemma InitialInv(strict: bool)
    ensures Inv(INITIAL, strict)
  {}

  /** Two snapshots of a run: the connections of the earlier one are still there, each grown from what it was. */
  predicate Grown(c: Connection, d: Connection) {
    && Rank(c.stage) <= Rank(d.stage)
    && c.outbox <= d.outbox
    && c.commands <= d.commands
    && (c.accepted ==> d.accepted) && (c.disconnected ==> d.disconnected) && (c.lost ==> d.lost)
    && AtLeast(ClientRevision(c.outbox), ClientRevision(d.outbox))
  }

  function Rank(stage: Stage): nat {
    match stage
    case AwaitingHello => 0
    case Handshaking => 1
    case Ready => 2
    case Closing => 3
    case Closed => 4
  }

  predicate AtLeast(before: Option<nat>, after: Option<nat>) {
    before.Some? ==> after.Some? && before.value <= after.value
  }

  lemma {:induction false} ClientNeverGoesBack(earlier: seq<Frame>, later: seq<Frame>)
    requires earlier <= later
    ensures AtLeast(ClientRevision(earlier), ClientRevision(later))
    decreases |later|
  {
    if earlier != later {
      ClientNeverGoesBack(earlier, later[..|later| - 1]);
    }
  }

  predicate AllGrown(s: Server, t: Server) {
    s.revision <= t.revision && forall id | id in s.connections :: id in t.connections && Grown(s.connections[id], t.connections[id])
  }

  lemma ConnectionGrows(s: Server, e: Event, c: Connection)
    requires StageOk(c)
    ensures Grown(c, OnConnection(s, e, c))
  {
    hide ClientRevision;
    assert c.outbox <= OnConnection(s, e, c).outbox;
    ClientNeverGoesBack(c.outbox, OnConnection(s, e, c).outbox);
  }

  lemma PlainGrows(c: Connection, frame: Frame)
    requires StageOk(c)
    ensures Grown(c, c) && Grown(c, Send(c, frame)) && Grown(c, OnServerClose(c))
  {
    hide ClientRevision;
    ClientNeverGoesBack(c.outbox, Send(c, frame).outbox);
  }

  lemma StepGrowsAt(s: Server, e: Event, id: ConnectionId)
    requires id in s.connections && StageOk(s.connections[id])
    ensures id in Step(s, e).connections && Grown(s.connections[id], Step(s, e).connections[id])
  {
    hide Grown, OnConnection, ReadyAmong, Send, OnServerClose, StageOk;
    var c := s.connections[id];
    ConnectionGrows(s, e, c);
    PlainGrows(c, Snapshot(if s.active.Some? then s.active.value.revision else 0, false));
  }

  lemma StepGrows(s: Server, e: Event)
    requires Inv(s, false)
    ensures AllGrown(s, Step(s, e))
  {
    hide Grown, OnConnection, ReadyAmong, Send, OnServerClose, StageOk, RevisionsOk, Owed;
    forall id | id in s.connections
      ensures id in Step(s, e).connections && Grown(s.connections[id], Step(s, e).connections[id])
    {
      assert ConnectionOk(id, s.connections[id], s.revision, s.active, false);
      StepGrowsAt(s, e, id);
    }
    RevisionGrows(s, e);
  }

  lemma RevisionGrows(s: Server, e: Event)
    ensures s.revision <= Step(s, e).revision
  {
    hide OnConnection, ReadyAmong, Send, OnServerClose;
  }

  // ----- main results -----

  /**
   Stages only move forward, nothing sent is taken back, and the revision that a client has stored never decreases,
   whatever fails.
   */
  lemma {:induction false} RunGrows(s: Server, events: seq<Event>)
    requires Inv(s, false)
    ensures AllGrown(s, Run(s, events))
    decreases |events|
  {
    hide Inv, Step, Rank, ClientRevision;
    if events != [] {
      StepGrows(s, events[0]);
      RunSafe(s, events[..1]);
      assert Run(s, events[..1]) == Step(s, events[0]);
      RunGrows(Step(s, events[0]), events[1..]);
    }
  }

  /**
   Whatever fails: a command starts only after an authenticated hello of the supported version and after the server's
   hello, the first frame on a connection is a hello or a hello error, and broadcasts carry strictly increasing
   revisions that are not ahead of the server.
   */
  lemma ConnectionsAreOrderly(events: seq<Event>, id: ConnectionId)
    requires id in Run(INITIAL, events).connections
    ensures var s := Run(INITIAL, events); var c := s.connections[id];
            && (c.commands > 0 ==> c.accepted && HelloFirst(c))
            && (c.stage.Ready? ==> c.accepted && HelloFirst(c))
            && (c.outbox != [] ==> c.outbox[0].Hello? || c.outbox[0].HelloError?)
            && Increasing(Broadcasts(c.outbox)) && AllUpTo(Broadcasts(c.outbox), s.revision)
  {
    InitialInv(false);
    RunSafe(INITIAL, events);
    hide Owed, KeptUp, Increasing, AllUpTo;
    var s := Run(INITIAL, events);
    assert ConnectionOk(id, s.connections[id], s.revision, s.active, false);
  }

  /** Without a failed broadcast, a live connection is up to date once nothing more is on its way to it. */
  lemma NobodyLeftBehind(events: seq<Event>, id: ConnectionId)
    requires AdmissibleRun(INITIAL, events)
    requires var s := Run(INITIAL, events);
             id in s.connections && IsLive(s.connections[id]) && !IsRecipient(id, s.active)
             && !s.connections[id].handshake.CatchingUp?
    ensures var s := Run(INITIAL, events);
            ClientRevision(s.connections[id].outbox) == Some(s.revision)
  {
    InitialInv(true);
    RunInv(INITIAL, events);
    hide StageOk, RevisionsOk, Owed;
    var s := Run(INITIAL, events);
    assert ConnectionOk(id, s.connections[id], s.revision, s.active, true);
  }

  const HANDSHAKE := [Accept(0), Receive(0, HelloMessage(true, true)), SnapshotReady(0), HelloSent(0)]

  /** A broadcast that is given up when the backend fails. */
  const FAILED_BROADCAST := [RequestBroadcast, StartBroadcast, BroadcastFails]

  const AFTER_HANDSHAKE :=
    Server(map[0 := Connection(Ready, false, false, true, Finished, 0, 0, [Hello(0)])], [0], 0, 0, None, false)

  lemma HandshakeRuns()
    ensures Run(INITIAL, HANDSHAKE) == AFTER_HANDSHAKE
  {
    var c := FRESH.(stage := Handshaking, accepted := true);
    var s1 := Server(map[0 := FRESH], [0], 0, 0, None, false);
    var s2 := s1.(connections := map[0 := c.(handshake := Getting(0))]);
    var s3 := s1.(connections := map[0 := c.(handshake := SendingHello(0), outbox := [Hello(0)])]);
    hide Run, ReadyAmong;
    assert [] + [Hello(0)] == [Hello(0)];
    assert OnSnapshot(s2.connections[0], false) == s3.connections[0];
    assert Step(INITIAL, Accept(0)) == s1;
    assert Step(s1, Receive(0, HelloMessage(true, true))) == s2;
    assert Step(s2, SnapshotReady(0)) == s3;
    assert Step(s3, HelloSent(0)) == AFTER_HANDSHAKE;
    hide Step;
    FollowsSteps([INITIAL, s1, s2, s3, AFTER_HANDSHAKE], HANDSHAKE, 0);
  }

  lemma {:induction false} FollowsSteps(states: seq<Server>, events: seq<Event>, i: nat)
    requires |states| == |events| + 1 && i <= |events|
    requires forall k | 0 <= k < |events| :: Step(states[k], events[k]) == states[k + 1]
    ensures Run(states[i], events[i..]) == states[|events|]
    decreases |events| - i
  {
    hide Step;
    if i < |events| {
      FollowsSteps(states, events, i + 1);
      assert events[i..][1..] == events[i + 1..];
    }
  }

  /** With a backend failure a live connection may stay behind, with nothing on its way to it. */
  lemma FailureLeavesBehind()
    ensures var s := Run(Run(INITIAL, HANDSHAKE), FAILED_BROADCAST);
            0 in s.connections && IsLive(s.connections[0]) && s.active.None? && s.connections[0].handshake.Finished?
            && s.revision == 1 && ClientRevision(s.connections[0].outbox) == Some(0)
  {
    HandshakeRuns();
    FailedBroadcastRuns();
    hide Run;
    assert [Hello(0)][..0] == [];
  }

  lemma OnlyReady(id: ConnectionId, connections: map<ConnectionId, Connection>)
    requires id in connections && IsReady(connections[id])
    ensures ReadyAmong([id], connections) == [id]
  {
    assert [id][..0] == [];
  }

  lemma FailedBroadcastRuns()
    ensures Run(AFTER_HANDSHAKE, FAILED_BROADCAST) == AFTER_HANDSHAKE.(revision := 1)
  {
    hide Run, ReadyAmong, OnConnection;
    var s0 := AFTER_HANDSHAKE;
    OnlyReady(0, s0.connections);
    var s1 := s0.(queued := 1);
    var s2 := s0.(revision := 1, active := Some(Broadcast(1, [0])));
    assert Step(s0, RequestBroadcast) == s1;
    assert Step(s1, StartBroadcast) == s2;
    assert Step(s2, BroadcastFails) == s0.(revision := 1);
    hide Step;
    FollowsSteps([s0, s1, s2, s0.(revision := 1)], FAILED_BROADCAST, 0);
  }
}
