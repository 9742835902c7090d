/**
 The server of packages/server/src/server.ts over its connection objects, whose fields the handlers update in place,
 with the snapshot publisher's revision and queue. Each method is one stretch of code between two `await`s.
 */
module AthenaServers {
  import opened Options
  import opened ServerConnections

  class ConnectionState {
    var stage: Stage
    var disconnected: bool
    var lost: bool
    var accepted: bool
    var handshake: Handshake
    var deferred: nat
    var commands: nat
    var outbox: seq<Frame>

    function View(): Connection
      reads this
    {
      Connection(stage, disconnected, lost, accepted, handshake, deferred, commands, outbox)
    }

    constructor ()
      ensures View() == FRESH
    {
      stage, disconnected, lost, accepted := AwaitingHello, false, false, false;
      handshake, deferred, commands, outbox := NotStarted, 0, 0, [];
    }

    method SendMessage(frame: Frame)
      modifies this`outbox
      ensures View() == Send(old(View()), frame)
    {
      if disconnected || lost {
        return;
      }
      outbox := outbox + [frame];
    }

    method Fail()
      modifies this
      ensures View() == FailProtocol(old(View()))
    {
      if disconnected || stage == Closing || stage == Closed {
        return;
      }
      SendMessage(HelloError);
      stage := Closing;
      lost := true;
    }

    method DispatchMessage(message: Message, revision: nat)
      modifies this
      ensures View() == OnReceive(old(View()), message, revision)
    {
      if disconnected || stage == Closing || stage == Closed {
        return;
      }
      if stage == AwaitingHello {
        if !message.HelloMessage? {
          Fail();
          return;
        }
        stage := Handshaking;
        if !message.authenticated || !message.supported {
          handshake := Finished;
          Fail();
          return;
        }
        accepted := true;
        handshake := Getting(revision);
        return;
      }
      if message.HelloMessage? {
        Fail();
        return;
      }
      if stage == Ready {
        commands := commands + 1;
      } else {
        deferred := deferred + 1;
      }
    }

    method HandshakeTimeout()
      modifies this
      ensures View() == if old(stage).AwaitingHello? || old(stage).Handshaking? then FailProtocol(old(View())) else old(View())
    {
      if stage == AwaitingHello || stage == Handshaking {
        Fail();
      }
    }

    method ContinueWithSnapshot(closing: bool)
      modifies this
      ensures View() == OnSnapshot(old(View()), closing)
    {
      match handshake
      case Getting(revision) =>
        if closing || disconnected || stage != Handshaking || lost {
          handshake := Finished;
          return;
        }
        SendMessage(Hello(revision));
        handshake := SendingHello(revision);
      case CatchingUp(revision) =>
        SendMessage(Snapshot(revision, true));
        handshake := Finished;
      case _ =>
    }

    method FailSnapshot()
      modifies this
      ensures View() == OnSnapshotFailure(old(View()))
    {
      if handshake.Getting? || handshake.CatchingUp? {
        handshake := Finished;
        Fail();
      }
    }

    method ContinueAfterHello(currentRevision: nat)
      modifies this
      ensures View() == OnHelloSent(old(View()), currentRevision)
    {
      if !handshake.SendingHello? {
        return;
      }
      var revision := handshake.revision;
      handshake := Finished;
      if !disconnected && stage == Handshaking {
        stage := Ready;
        if revision != currentRevision {
          handshake := CatchingUp(currentRevision);
        }
      }
    }

    method RunDeferred()
      modifies this`deferred, this`commands
      ensures View() == OnDeferred(old(View()))
    {
      if deferred > 0 && handshake == Finished {
        deferred := deferred - 1;
        if stage == Ready && !disconnected {
          commands := commands + 1;
        }
      }
    }

    method SendResponse()
      modifies this`outbox
      ensures View() == OnRespond(old(View()))
    {
      if commands > 0 {
        SendMessage(Other);
      }
    }

    method FailHello()
      modifies this`lost, this`handshake
      ensures View() == OnHelloSendFailure(old(View()))
    {
      if handshake.SendingHello? {
        lost := true;
        handshake := Finished;
      }
    }

    /** The transport has closed or failed; `disconnect` follows. */
    method LoseTransport()
      modifies this`lost
      ensures View() == old(View()).(lost := true)
    {
      lost := true;
    }

    method Disconnect()
      modifies this`disconnected, this`stage
      ensures View() == OnDisconnect(old(View()))
    {
      if disconnected {
        return;
      }
      disconnected := true;
      stage := Closed;
    }

    method CloseByServer()
      modifies this`stage, this`lost
      ensures View() == OnServerClose(old(View()))
    {
      if !disconnected {
        stage := Closing;
        lost := true;
      }
    }
  }

  class AthenaServer {
    var connections: map<ConnectionId, ConnectionState>
    var order: seq<ConnectionId>
    var revision: nat
    var queued: nat
    var active: Option<Broadcast>
    var closing: bool

    /** Every connection has a state object of its own. */
    ghost predicate Valid()
      reads this`connections
    {
      forall a, b | a in connections && b in connections && a != b :: connections[a] != connections[b]
    }

    ghost function Objects(): set<object>
      reads this`connections
    {
      set id | id in connections :: connections[id] as object
    }

    ghost function Views(): map<ConnectionId, Connection>
      reads this`connections, Objects()
    {
      map id | id in connections :: connections[id].View()
    }

    ghost function View(): Server
      reads this, Objects()
    {
      Server(Views(), order, revision, queued, active, closing)
    }

    constructor ()
      ensures Valid() && View() == INITIAL
    {
      connections, order, revision, queued, active, closing := map[], [], 0, 0, None, false;
    }

    method Accept(id: ConnectionId)
      requires Valid()
      modifies this
      ensures Valid() && View() == Step(old(View()), Event.Accept(id)) && fresh(Objects() - old(Objects()))
    {
      if id in connections || closing {
        return;
      }
      var state := new ConnectionState();
      connections := connections[id := state];
      order := order + [id];
    }

    method HandleConnectionEvent(e: Event)
      requires Valid() && OfConnection(e)
      modifies Objects()
      ensures Valid() && View() == Step(old(View()), e)
    {
      hide OnConnection;
      if e.id in connections {
        HandleOn(e);
        assert Views() == old(Views())[e.id := connections[e.id].View()];
      }
    }

    /** Lets one connection handle an event of its own. */
    method HandleOn(e: Event)
      requires Valid() && OfConnection(e) && e.id in connections
      modifies connections[e.id]
      ensures connections[e.id].View() == OnConnection(old(View()), e, old(connections[e.id].View()))
    {
      hide OnReceive, FailProtocol, OnSnapshot, OnSnapshotFailure, OnHelloSent, OnDeferred, OnRespond, OnHelloSendFailure,
           OnDisconnect;
      var c := connections[e.id];
      match e
      case Receive(_, message) => c.DispatchMessage(message, revision);
      case BadChunk(_) => c.Fail();
      case Timeout(_) => c.HandshakeTimeout();
      case SnapshotReady(_) => c.ContinueWithSnapshot(closing);
      case SnapshotFails(_) => c.FailSnapshot();
      case HelloSent(_) => c.ContinueAfterHello(revision);
      case DeferredRuns(_) => c.RunDeferred();
      case Respond(_) => c.SendResponse();
      case HelloSendFails(_) => c.FailHello();
      case Lose(_) => c.LoseTransport();
      case Disconnect(_) => c.Disconnect();
      case _ =>
    }

    /** The connections that a broadcast goes to. */
    method ReadyConnections() returns (ready: seq<ConnectionId>)
      requires Valid()
      ensures ready == ReadyAmong(order, Views())
    {
      ready := [];
      for i := 0 to |order|
        invariant ready == ReadyAmong(order[..i], Views())
      {
        assert order[..i + 1][..i] == order[..i];
        var id := order[i];
        if id in connections && connections[id].stage == Ready && !connections[id].disconnected {
          ready := ready + [id];
        }
      }
      assert order[..|order|] == order;
    }

    method StartBroadcast()
      requires Valid()
      modifies this`queued, this`revision, this`active
      ensures Valid() && View() == DoStartBroadcast(old(View()))
    {
      hide ReadyAmong;
      if active.Some? || queued == 0 {
        return;
      }
      var ready := ReadyConnections();
      assert Views() == old(Views());
      queued := queued - 1;
      if ready != [] && !closing {
        revision := revision + 1;
        active := Some(Broadcast(revision, ready));
      }
      assert Views() == old(Views());
    }

    method SendNext()
      requires Valid()
      modifies this`active, Objects()
      ensures Valid() && View() == DoSendNext(old(View()))
    {
      if active.None? {
        return;
      }
      var b := active.value;
      if b.recipients == [] {
        active := None;
        return;
      }
      var id := b.recipients[0];
      if id in connections {
        connections[id].SendMessage(Snapshot(b.revision, false));
        assert Views() == old(Views())[id := connections[id].View()];
      }
      active := Some(b.(recipients := b.recipients[1..]));
    }

    method CloseConnections()
      requires Valid()
      modifies Objects()
      ensures Valid() && View() == Step(old(View()), Event.CloseConnections)
    {
      hide OnServerClose;
      if closing {
        CloseEach();
        assert Views() == map id | id in connections :: OnServerClose(old(Views())[id]);
      }
    }

    method CloseEach()
      requires Valid()
      modifies Objects()
      ensures Valid() && forall id | id in connections :: connections[id].View() == OnServerClose(old(connections[id].View()))
    {
      hide AthenaServer.View, AthenaServer.Views;
      var todo := connections.Keys;
      while todo != {}
        invariant todo <= connections.Keys
        invariant forall id | id in connections ::
                    connections[id].View() == if id in todo then old(connections[id].View())
                                              else OnServerClose(old(connections[id].View()))
      {
        hide OnServerClose;
        var id :| id in todo;
        connections[id].CloseByServer();
        todo := todo - {id};
      }
    }

    method Dispatch(e: Event)
      requires Valid()
      modifies this, Objects()
      ensures Valid() && View() == Step(old(View()), e) && fresh(Objects() - old(Objects()))
    {
      hide DoStartBroadcast, DoSendNext, OnConnection, Views;
      match e
      case Accept(id) => Accept(id);
      case RequestBroadcast => queued := queued + 1;
      case StartBroadcast => StartBroadcast();
      case SendNext => SendNext();
      case BroadcastFails => active := None;
      case Close => closing := true;
      case CloseConnections => CloseConnections();
      case _ =>
        HandleConnectionEvent(e);
    }

    /** Any sequence of events takes the server through the steps of that run. */
    method Serve(events: seq<Event>)
      requires Valid()
      modifies this, Objects()
      ensures Valid() && View() == Run(old(View()), events) && fresh(Objects() - old(Objects()))
      decreases |events|
    {
      hide Step, Views;
      if events != [] {
        Dispatch(events[0]);
        Serve(events[1..]);
      }
    }
  }
}
