/**
 What a server connection may do and when, said of what it receives (packages/server/src/server.ts). Which first
 message opens it, which events end it, which start a command, and what is sent on it: equivalences about single events,
 and laws over whole runs that mention nothing but the events and what is observed of the connection.
 */
module ServerHandshake {
  import opened ServerConnections

  // ----- what changes exactly when -----

  /** The message that opens a connection. */
  const GREETING := HelloMessage(true, true)

  predicate Concerns(e: Event, id: ConnectionId) {
    match e
    case Receive(i, _) => i == id
    case BadChunk(i) => i == id
    case Timeout(i) => i == id
    case SnapshotReady(i) => i == id
    case SnapshotFails(i) => i == id
    case HelloSent(i) => i == id
    case DeferredRuns(i) => i == id
    case Respond(i) => i == id
    case HelloSendFails(i) => i == id
    case Lose(i) => i == id
    case Disconnect(i) => i == id
    case _ => false
  }

  /** The message is not what may come now. */
  predicate Unexpected(c: Connection, message: Message) {
    if c.stage.AwaitingHello? then message != GREETING else message.HelloMessage?
  }

  /** The peer or a timer breaks the protocol, or a snapshot for it cannot be had. */
  predicate Breaks(e: Event, c: Connection) {
    match e
    case Receive(_, message) => Unexpected(c, message)
    case BadChunk(_) => true
    case Timeout(_) => c.stage.AwaitingHello? || c.stage.Handshaking?
    case SnapshotFails(_) => c.handshake.Getting? || c.handshake.CatchingUp?
    case _ => false
  }

  predicate Ends(s: Server, e: Event, id: ConnectionId, c: Connection) {
    (Concerns(e, id) && (Breaks(e, c) || e.Disconnect?)) || (e.CloseConnections? && s.closing)
  }

  /** The hello has gone out while the connection was still shaking hands. */
  predicate Completes(e: Event, id: ConnectionId, c: Connection) {
    e == HelloSent(id) && c.handshake.SendingHello? && c.stage.Handshaking? && !c.disconnected
  }

  predicate EndsExactly(s: Server, e: Event, id: ConnectionId, c: Connection, after: Connection) {
    && (IsTerminal(after) <==> IsTerminal(c) || Ends(s, e, id, c))
    && (IsReady(after) <==> Completes(e, id, c) || (IsReady(c) && !Ends(s, e, id, c)))
    && (after.stage.AwaitingHello? <==> c.stage.AwaitingHello? && !Ends(s, e, id, c) && e != Receive(id, GREETING))
  }

  /** The snapshot for the hello is there, and the connection still wants it. */
  predicate Greets(s: Server, e: Event, id: ConnectionId, c: Connection) {
    e == SnapshotReady(id) && c.handshake.Getting? && c.stage.Handshaking? && !s.closing && !c.disconnected && !c.lost
  }

  predicate HandshakeExactly(s: Server, e: Event, id: ConnectionId, c: Connection, after: Connection) {
    && (after.handshake.Getting? <==>
          (e == Receive(id, GREETING) && c.stage.AwaitingHello? && !c.disconnected)
          || (c.handshake.Getting? && e != SnapshotReady(id) && e != SnapshotFails(id)))
    && (after.handshake.Getting? && !c.handshake.Getting? ==> after.handshake.revision == s.revision)
    && (after.handshake.SendingHello? <==> (
          || Greets(s, e, id, c)
          || (c.handshake.SendingHello? && e != HelloSent(id) && e != HelloSendFails(id))))
    && (after.handshake.SendingHello? ==>
          (c.handshake.Getting? || c.handshake.SendingHello?) && after.handshake.revision == c.handshake.revision)
    && (after.handshake.CatchingUp? <==> (
          || (Completes(e, id, c) && c.handshake.revision != s.revision)
          || (c.handshake.CatchingUp? && e != SnapshotReady(id) && e != SnapshotFails(id))))
    && (after.handshake.CatchingUp? && !c.handshake.CatchingUp? ==> after.handshake.revision == s.revision)
    && (after.handshake.CatchingUp? && c.handshake.CatchingUp? ==> after.handshake == c.handshake)
  }

  /** The transport is gone by itself, or closed with an error or with the server. */
  predicate LostExactly(s: Server, e: Event, id: ConnectionId, c: Connection, after: Connection) {
    after.lost <==> (
      || c.lost || e == Lose(id) || (e == HelloSendFails(id) && c.handshake.SendingHello?)
      || (Concerns(e, id) && Breaks(e, c) && !IsTerminal(c)) || (e.CloseConnections? && s.closing && !c.disconnected))
  }

  /** A request that may be carried out at once, or one that has waited for the handshake. */
  predicate Commands(e: Event, id: ConnectionId, c: Connection) {
    IsReady(c) && (e == Receive(id, Request) || (e == DeferredRuns(id) && c.deferred > 0 && c.handshake.Finished?))
  }

  predicate Defers(e: Event, id: ConnectionId, c: Connection) {
    e == Receive(id, Request) && c.stage.Handshaking? && !c.disconnected
  }

  predicate CommandsExactly(e: Event, id: ConnectionId, c: Connection, after: Connection) {
    && after.commands == c.commands + (if Commands(e, id, c) then 1 else 0)
    && after.deferred == (if Defers(e, id, c) then c.deferred + 1
                          else if e == DeferredRuns(id) && c.handshake.Finished? && c.deferred > 0 then c.deferred - 1
                          else c.deferred)
  }

  /** The frames that an event puts on a connection whose transport is there. */
  function Told(s: Server, e: Event, id: ConnectionId, c: Connection): seq<Frame> {
    if c.disconnected || c.lost then []
    else if Concerns(e, id) && Breaks(e, c) && !IsTerminal(c) then [HelloError]
    else if Greets(s, e, id, c) then [Hello(c.handshake.revision)]
    else if e == SnapshotReady(id) && c.handshake.CatchingUp? then [Snapshot(c.handshake.revision, true)]
    else if e == Respond(id) && c.commands > 0 then [Other]
    else if e.SendNext? && s.active.Some? && s.active.value.recipients != [] && s.active.value.recipients[0] == id
    then [Snapshot(s.active.value.revision, false)]
    else []
  }

  predicate Exactly(s: Server, e: Event, id: ConnectionId, c: Connection, after: Connection) {
    && EndsExactly(s, e, id, c, after) && HandshakeExactly(s, e, id, c, after) && CommandsExactly(e, id, c, after)
    && after.outbox == c.outbox + Told(s, e, id, c) && LostExactly(s, e, id, c, after)
  }

  lemma ReceiveExactly(s: Server, e: Event, id: ConnectionId, c: Connection)
    requires e.Receive? && Concerns(e, id) && StageOk(c)
    ensures Exactly(s, e, id, c, OnConnection(s, e, c))
  {
    hide HelloFirst;
    assert c.outbox + [] == c.outbox;
  }

  lemma BreakExactly(s: Server, e: Event, id: ConnectionId, c: Connection)
    requires (e.BadChunk? || e.Timeout? || e.SnapshotFails?) && Concerns(e, id) && StageOk(c)
    ensures Exactly(s, e, id, c, OnConnection(s, e, c))
  {
    hide HelloFirst;
    assert c.outbox + [] == c.outbox;
  }

  lemma SnapshotExactly(s: Server, e: Event, id: ConnectionId, c: Connection)
    requires (e.SnapshotReady? || e.HelloSendFails?) && Concerns(e, id) && StageOk(c)
    ensures Exactly(s, e, id, c, OnConnection(s, e, c))
  {
    hide HelloFirst;
    assert c.outbox + [] == c.outbox;
  }

  lemma HelloSentExactly(s: Server, e: Event, id: ConnectionId, c: Connection)
    requires (e.HelloSent? || e.DeferredRuns?) && Concerns(e, id) && StageOk(c)
    ensures Exactly(s, e, id, c, OnConnection(s, e, c))
  {
    hide HelloFirst;
    assert c.outbox + [] == c.outbox;
  }

  lemma RestExactly(s: Server, e: Event, id: ConnectionId, c: Connection)
    requires (e.Respond? || e.Lose? || e.Disconnect?) && Concerns(e, id) && StageOk(c)
    ensures Exactly(s, e, id, c, OnConnection(s, e, c))
  {
    hide HelloFirst;
    assert c.outbox + [] == c.outbox;
  }

  /** What a connection does with an event of its own. */
  lemma OwnEventExactly(s: Server, e: Event, id: ConnectionId, c: Connection)
    requires Concerns(e, id) && StageOk(c)
    ensures Exactly(s, e, id, c, OnConnection(s, e, c))
  {
    hide Exactly, OnConnection, StageOk;
    if e.Receive? {
      ReceiveExactly(s, e, id, c);
    } else if e.BadChunk? || e.Timeout? || e.SnapshotFails? {
      BreakExactly(s, e, id, c);
    } else if e.SnapshotReady? || e.HelloSendFails? {
      SnapshotExactly(s, e, id, c);
    } else if e.HelloSent? || e.DeferredRuns? {
      HelloSentExactly(s, e, id, c);
    } else {
      RestExactly(s, e, id, c);
    }
  }

  lemma SendNextExactly(s: Server, e: Event, id: ConnectionId)
    requires id in s.connections && e.SendNext?
    ensures id in Step(s, e).connections && Exactly(s, e, id, s.connections[id], Step(s, e).connections[id])
  {
    assert s.connections[id].outbox + [] == s.connections[id].outbox;
  }

  lemma CloseConnectionsExactly(s: Server, e: Event, id: ConnectionId)
    requires id in s.connections && StageOk(s.connections[id]) && e.CloseConnections?
    ensures id in Step(s, e).connections && Exactly(s, e, id, s.connections[id], Step(s, e).connections[id])
  {
    hide HelloFirst;
    assert s.connections[id].outbox + [] == s.connections[id].outbox;
  }

  /** Whatever the server does besides leaves a connection alone. */
  lemma ConnectionStays(s: Server, e: Event, id: ConnectionId)
    requires id in s.connections && !Concerns(e, id) && !e.SendNext? && !e.CloseConnections?
    ensures id in Step(s, e).connections && Step(s, e).connections[id] == s.connections[id]
  {
    hide ReadyAmong, OnConnection;
  }

  /** What concerns another connection. */
  lemma OthersUntouched(s: Server, e: Event, id: ConnectionId, c: Connection)
    requires !Concerns(e, id) && !e.SendNext? && !e.CloseConnections?
    ensures Exactly(s, e, id, c, c)
  {
    assert c.outbox + [] == c.outbox;
  }

  /** No connection is forgotten, and each event does to each connection exactly what is said here. */
  lemma StepExactly(s: Server, e: Event, id: ConnectionId)
    requires id in s.connections && StageOk(s.connections[id])
    ensures id in Step(s, e).connections && Exactly(s, e, id, s.connections[id], Step(s, e).connections[id])
  {
    hide Exactly, OnConnection, StageOk, ReadyAmong, DoStartBroadcast, DoSendNext;
    var c := s.connections[id];
    match e
    case SendNext => SendNextExactly(s, e, id);
    case CloseConnections => CloseConnectionsExactly(s, e, id);
    case _ =>
      if Concerns(e, id) {
        OwnEventExactly(s, e, id, c);
      } else {
        ConnectionStays(s, e, id);
        OthersUntouched(s, e, id, c);
      }
  }

  // ----- over whole runs -----

  /** What has come in on a connection: it is not there yet, nothing, or this first. */
  datatype Heard = Nobody | Silence | First(message: Message)

  function HeardFrom(events: seq<Event>, id: ConnectionId): Heard {
    if events == [] then Nobody
    else
      var before, last := HeardFrom(events[..|events| - 1], id), events[|events| - 1];
      match before
      case Nobody => if last == Accept(id) then Silence else Nobody
      case Silence => if last.Receive? && last.id == id then First(last.message) else Silence
      case First(_) => before
  }

  predicate HasHello(frames: seq<Frame>) {
    exists i :: 0 <= i < |frames| && frames[i].Hello?
  }

  /** Nothing has been granted to the connection. */
  predicate Unserved(c: Connection) {
    && !c.stage.Ready? && !c.handshake.Getting? && !c.handshake.SendingHello? && !c.handshake.CatchingUp?
    && c.commands == 0 && c.deferred == 0 && !HasHello(c.outbox)
  }

  /** What the first message decides. */
  predicate Decided(heard: Heard, c: Connection) {
    match heard
    case Nobody => false
    case Silence => Unserved(c) && (c.stage.AwaitingHello? || IsTerminal(c))
    case First(message) => message != GREETING ==> Unserved(c) && IsTerminal(c)
  }

  lemma NoHelloTold(s: Server, e: Event, id: ConnectionId, c: Connection)
    requires !HasHello(c.outbox) && !Greets(s, e, id, c)
    ensures !HasHello(c.outbox + Told(s, e, id, c))
  {}

  /** A connection that has nothing gets something only by the greeting. */
  lemma UnservedStays(s: Server, e: Event, id: ConnectionId, c: Connection, after: Connection)
    requires Exactly(s, e, id, c, after) && StageOk(after)
    requires Unserved(c) && (c.stage.AwaitingHello? || IsTerminal(c))
    requires e == Receive(id, GREETING) ==> IsTerminal(c) && !c.stage.AwaitingHello?
    ensures Unserved(after)
    ensures IsTerminal(c) ==> IsTerminal(after)
    ensures e.Receive? && e.id == id ==> IsTerminal(after)
    ensures after.stage.AwaitingHello? || IsTerminal(after)
  {
    hide HasHello, Told, HelloFirst;
    NoHelloTold(s, e, id, c);
  }

  lemma {:induction false} RunLast(s: Server, events: seq<Event>)
    requires events != []
    ensures Run(s, events) == Step(Run(s, events[..|events| - 1]), events[|events| - 1])
    decreases |events|
  {
    hide Step;
    if |events| > 1 {
      RunLast(Step(s, events[0]), events[1..]);
      assert events[1..][..|events| - 2] == events[..|events| - 1][1..];
    } else {
      assert events[1..] == [] && events[..0] == [];
    }
  }

  lemma AlwaysStaged(events: seq<Event>, id: ConnectionId)
    requires id in Run(INITIAL, events).connections
    ensures StageOk(Run(INITIAL, events).connections[id])
  {
    InitialInv(false);
    RunSafe(INITIAL, events);
    hide StageOk, RevisionsOk, KeptUp, Owed;
    var s := Run(INITIAL, events);
    assert ConnectionOk(id, s.connections[id], s.revision, s.active, false);
  }

  /** A connection comes with its acceptance. */
  lemma AcceptedExactly(s: Server, e: Event, id: ConnectionId)
    requires id !in s.connections
    ensures id in Step(s, e).connections <==> e == Accept(id) && !s.closing
    ensures id in Step(s, e).connections ==> Step(s, e).connections[id] == FRESH
    ensures s.closing ==> Step(s, e).closing
  {
    hide ReadyAmong, OnConnection;
  }

  lemma DecidedStep(s: Server, events: seq<Event>, id: ConnectionId, c: Connection, after: Connection)
    requires events != [] && Decided(HeardFrom(events[..|events| - 1], id), c) && StageOk(c) && StageOk(after)
    requires Exactly(s, events[|events| - 1], id, c, after)
    ensures Decided(HeardFrom(events, id), after)
  {
    var e, heard := events[|events| - 1], HeardFrom(events[..|events| - 1], id);
    if heard != First(GREETING) && (heard.First? || e != Receive(id, GREETING)) {
      hide Exactly, Unserved;
      UnservedStays(s, e, id, c, after);
    }
  }

  lemma {:induction false} DecidedAlways(events: seq<Event>, id: ConnectionId)
    ensures var s := Run(INITIAL, events);
            if id in s.connections then Decided(HeardFrom(events, id), s.connections[id])
            else s.closing || HeardFrom(events, id).Nobody?
    decreases |events|
  {
    hide Decided, Exactly, Step, StageOk;
    if events != [] {
      var before, e := events[..|events| - 1], events[|events| - 1];
      var s := Run(INITIAL, before);
      RunLast(INITIAL, events);
      DecidedAlways(before, id);
      if id in s.connections {
        AlwaysStaged(before, id);
        StepExactly(s, e, id);
        AlwaysStaged(events, id);
        DecidedStep(s, events, id, s.connections[id], Run(INITIAL, events).connections[id]);
      } else {
        AcceptedExactly(s, e, id);
        FreshIsDecided();
      }
    }
  }

  lemma FreshIsDecided()
    ensures Decided(Silence, FRESH)
  {}

  /**
   Whatever else happens, a connection becomes ready, runs or defers a request, or is sent a hello only if the first
   message on it was a hello with the right token and a supported version; any other first message ends it.
   */
  lemma OnlyTheGreetingOpens(events: seq<Event>, id: ConnectionId)
    requires id in Run(INITIAL, events).connections
    ensures var c := Run(INITIAL, events).connections[id]; var heard := HeardFrom(events, id);
            && !heard.Nobody?
            && (c.stage.Ready? || c.commands > 0 || c.deferred > 0 || HasHello(c.outbox) ==> heard == First(GREETING))
            && (heard.First? && heard.message != GREETING ==> IsTerminal(c) && !HasHello(c.outbox))
  {
    hide HasHello, Run;
    DecidedAlways(events, id);
  }

  /** How many requests have come in on a connection. */
  function Requests(events: seq<Event>, id: ConnectionId): nat {
    if events == [] then 0
    else Requests(events[..|events| - 1], id) + if events[|events| - 1] == Receive(id, Request) then 1 else 0
  }

  lemma CountStep(s: Server, e: Event, id: ConnectionId, c: Connection, after: Connection)
    requires Exactly(s, e, id, c, after)
    ensures after.commands + after.deferred <= c.commands + c.deferred + if e == Receive(id, Request) then 1 else 0
    ensures c.commands <= after.commands
  {
    hide EndsExactly, HandshakeExactly, Told;
  }

  /** No command is run that was not requested, and none twice. */
  lemma {:induction false} RequestsRunOnce(events: seq<Event>, id: ConnectionId)
    requires id in Run(INITIAL, events).connections
    ensures var c := Run(INITIAL, events).connections[id]; c.commands + c.deferred <= Requests(events, id)
    decreases |events|
  {
    hide Exactly, Step, StageOk;
    if events != [] {
      var before, e := events[..|events| - 1], events[|events| - 1];
      var s := Run(INITIAL, before);
      RunLast(INITIAL, events);
      if id in s.connections {
        RequestsRunOnce(before, id);
        AlwaysStaged(before, id);
        StepExactly(s, e, id);
        CountStep(s, e, id, s.connections[id], Run(INITIAL, events).connections[id]);
      } else {
        AcceptedExactly(s, e, id);
      }
    }
  }

  // ----- broadcasts -----

  /** There is a broadcast to be made, none is being made, and somebody is there to hear it. */
  predicate Broadcasting(s: Server, e: Event) {
    && e.StartBroadcast? && s.active.None? && s.queued > 0 && !s.closing
    && exists id :: id in s.connections && IsReady(s.connections[id])
  }

  /** A broadcast makes a new revision and goes to exactly the ready connections; nothing else makes one. */
  lemma BroadcastsExactly(s: Server, e: Event)
    requires forall id :: id in s.order <==> id in s.connections
    ensures var r := Step(s, e);
            && r.revision == s.revision + (if Broadcasting(s, e) then 1 else 0)
            && (Broadcasting(s, e) ==>
                  r.active.Some? && r.active.value.revision == r.revision
                  && forall id :: id in r.active.value.recipients <==> id in s.connections && IsReady(s.connections[id]))
            && (r.active.Some? && s.active.None? ==> Broadcasting(s, e))
            && r.queued == (if e.RequestBroadcast? then s.queued + 1
                            else if e.StartBroadcast? && s.active.None? && s.queued > 0 then s.queued - 1 else s.queued)
            && (r.closing <==> s.closing || e.Close?)
  {
    hide OnConnection;
    if e.StartBroadcast? {
      var ready := ReadyAmong(s.order, s.connections);
      if ready != [] {
        assert ready[0] in ready;
      }
      if id :| id in s.connections && IsReady(s.connections[id]) {
        assert id in ready;
      }
    }
  }
}
