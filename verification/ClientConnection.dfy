/**
 The handlers of packages/client/src/connection.ts and the request table of client.ts, updating their fields in place.
 Each method is one stretch of code between two `await`s.
 */
module ClientConnectionObjects {
  import opened ClientConnections
  import opened Options

  class ClientConnection {
    var lifecycle: Lifecycle
    var attempts: seq<Attempt>
    var transports: seq<Transport>
    var requests: seq<Request>
    var pendingRequests: map<RequestId, string>

    function View(): Client
      reads this
    {
      Client(lifecycle, attempts, transports, requests, pendingRequests.Keys)
    }

    /** The table of pending requests holds the command of each. */
    predicate Valid()
      reads this`requests, this`pendingRequests
    {
      forall r | r in pendingRequests :: r < |requests| && pendingRequests[r] == requests[r].command
    }

    constructor ()
      ensures Valid() && View() == INITIAL
    {
      lifecycle, attempts, transports, requests, pendingRequests := Disconnected, [], [], [], map[];
    }

    method SettleRequestPromise(r: RequestId, outcome: Outcome)
      requires Valid()
      modifies this`requests, this`pendingRequests
      ensures Valid() && View() == SettleRequest(old(View()), r, outcome)
    {
      pendingRequests := pendingRequests - {r};
      if r < |requests| {
        requests := requests[r := Answered(requests[r], outcome)];
      }
    }

    /** Empties the table, then rejects what was in it. */
    method RejectPendingRequests()
      requires Valid()
      modifies this`requests, this`pendingRequests
      ensures Valid() && requests == RejectAll(old(requests), old(pendingRequests).Keys) && pendingRequests == map[]
    {
      var todo := pendingRequests.Keys;
      pendingRequests := map[];
      while todo != {}
        invariant todo <= old(pendingRequests).Keys && pendingRequests == map[]
        invariant requests == RejectAll(old(requests), old(pendingRequests).Keys - todo)
      {
        var r :| r in todo;
        if r < |requests| {
          requests := requests[r := Answered(requests[r], Rejected)];
        }
        todo := todo - {r};
      }
      assert old(pendingRequests).Keys - {} == old(pendingRequests).Keys;
    }

    method CloseTransport(t: Option<TransportId>)
      modifies this`transports
      ensures View() == Close(old(View()), t)
    {
      if t.Some? && t.value < |transports| {
        transports := transports[t.value := transports[t.value].(closed := true)];
      }
    }

    method FailConnection()
      requires Valid()
      modifies this`lifecycle, this`attempts, this`requests, this`pendingRequests
      ensures Valid() && View() == Fail(old(View()))
    {
      if lifecycle == Disconnected {
        return;
      }
      var left := lifecycle;
      lifecycle := Disconnected;
      if Shaking(left, left.id) && left.id < |attempts| {
        attempts := attempts[left.id := attempts[left.id].(handshake := Settle(attempts[left.id].handshake, Rejected))];
      }
      RejectPendingRequests();
    }

    method FailAndCloseConnection()
      requires Valid()
      modifies this
      ensures Valid() && View() == FailAndClose(old(View()))
    {
      hide Fail, Close;
      var transport := TransportOf(lifecycle);
      FailConnection();
      CloseTransport(transport);
    }

    /** Starts an attempt; refused unless disconnected. */
    method ConnectTo() returns (attempt: Option<AttemptId>)
      requires Valid()
      modifies this
      ensures Valid() && View() == DoConnect(old(View()))
      ensures attempt.Some? <==> old(lifecycle).Disconnected?
    {
      if lifecycle != Disconnected {
        return None;
      }
      var id := |attempts|;
      lifecycle := Connecting(id, None);
      attempts := attempts + [Attempt(NEW_PROMISE, true)];
      return Some(id);
    }

    method TransportOpened(id: AttemptId)
      requires Valid()
      modifies this
      ensures Valid() && View() == DoFactoryResolves(old(View()), id)
    {
      if id >= |attempts| || !attempts[id].opening {
        return;
      }
      var t := |transports|;
      attempts := attempts[id := attempts[id].(opening := false)];
      transports := transports + [Transport(id, false, false)];
      if !lifecycle.Connecting? || lifecycle.id != id {
        CloseTransport(Some(t));
        return;
      }
      lifecycle := Connecting(id, Some(t));
    }

    method TransportFailed(id: AttemptId)
      requires Valid()
      modifies this
      ensures Valid() && View() == DoFactoryRejects(old(View()), id)
    {
      hide Fail;
      if id >= |attempts| || !attempts[id].opening {
        return;
      }
      attempts := attempts[id := attempts[id].(opening := false)];
      if IsCurrent(View(), id) {
        FailConnection();
      }
    }

    /** Tells the listeners of a hello, and resolves the promise of `connect` if they let the attempt go on. */
    method CompleteHandshake(id: AttemptId, transport: TransportId, asked: seq<Ask>, interrupted: bool)
      requires Valid()
      modifies this
      ensures Valid()
      ensures View() == EndHandshake(DoRequests(old(View()).(lifecycle := Connected(id, transport, true)), asked), interrupted)
    {
      hide FailAndClose, DoRequest;
      lifecycle := Connected(id, transport, true);
      ghost var told := View();
      for i := 0 to |asked|
        invariant Valid() && DoRequests(View(), asked[i..]) == DoRequests(told, asked)
        invariant lifecycle == Disconnected || lifecycle == Connected(id, transport, true)
      {
        assert asked[i..][1..] == asked[i + 1..];
        RequestStays(View(), asked[i]);
        var _ := RequestCommand(asked[i]);
      }
      if lifecycle == Disconnected {
        return;
      }
      if interrupted {
        FailAndCloseConnection();
        return;
      }
      lifecycle := Connected(id, transport, false);
      if id < |attempts| {
        attempts := attempts[id := attempts[id].(handshake := Settle(attempts[id].handshake, Resolved))];
      }
    }

    method HandleMessage(message: ServerMessage)
      requires Valid()
      modifies this
      ensures Valid() && View() == OnMessage(old(View()), message)
    {
      hide FailAndClose, EndHandshake, DoRequests;
      match lifecycle
      case Disconnected =>
      case Connecting(id, channel) =>
        if !message.Hello? || channel.None? {
          FailAndCloseConnection();
          return;
        }
        CompleteHandshake(id, channel.value, message.asked, message.interrupted);
      case Connected(_, _, _) =>
        match message
        case Hello(_, _) => FailAndCloseConnection();
        case HelloError => FailAndCloseConnection();
        case ServerEvent =>
        case Response(r, ok, command) =>
          if r !in pendingRequests {
            FailAndCloseConnection();
            return;
          }
          var sent := pendingRequests[r];
          if ok && command == sent {
            SettleRequestPromise(r, Resolved);
            return;
          }
          SettleRequestPromise(r, Rejected);
          if ok {
            FailAndCloseConnection();
          }
    }

    method HandleData(id: AttemptId, messages: seq<ServerMessage>, malformed: bool)
      requires Valid()
      modifies this
      ensures Valid() && View() == DoData(old(View()), id, messages, malformed)
    {
      hide FailAndClose, OnMessage;
      if lifecycle == Disconnected || lifecycle.id != id {
        return;
      }
      if lifecycle == Connecting(id, None) || malformed {
        FailAndCloseConnection();
        return;
      }
      for i := 0 to |messages|
        invariant Valid() && OnMessages(View(), messages[i..]) == OnMessages(old(View()), messages)
      {
        if lifecycle == Disconnected {
          return;
        }
        assert messages[i..][1..] == messages[i + 1..];
        HandleMessage(messages[i]);
      }
    }

    method TransportClosed(id: AttemptId)
      requires Valid()
      modifies this
      ensures Valid() && View() == DoClosed(old(View()), id)
    {
      hide Fail;
      transports := Report(transports, id);
      if IsCurrent(View(), id) {
        FailConnection();
      }
    }

    /** Registers a request before it is sent; answers at once if there is no connection or the frame does not fit. */
    method RequestCommand(ask: Ask) returns (r: RequestId)
      requires Valid()
      modifies this
      ensures Valid() && View() == DoRequest(old(View()), ask) && r == |old(requests)|
    {
      hide FailAndClose;
      r := |requests|;
      if !lifecycle.Connected? {
        requests := requests + [Request(ask.command, Promise(Rejected, 1))];
        return;
      }
      requests := requests + [Request(ask.command, NEW_PROMISE)];
      pendingRequests := pendingRequests[r := ask.command];
      assert pendingRequests.Keys == old(pendingRequests).Keys + {r};
      if !ask.encodable {
        SettleRequestPromise(r, Rejected);
        return;
      }
      if ask.sendThrows {
        FailAndCloseConnection();
      }
    }

    method Dispatch(e: Event)
      requires Valid()
      modifies this
      ensures Valid() && View() == Step(old(View()), e)
    {
      hide DoConnect, DoFactoryResolves, DoFactoryRejects, DoData, DoClosed, DoRequest, FailAndClose;
      match e
      case Connect => var _ := ConnectTo();
      case FactoryResolves(id) => TransportOpened(id);
      case FactoryRejects(id) => TransportFailed(id);
      case HelloSendFails(id) => if IsCurrent(View(), id) { FailAndCloseConnection(); }
      case Data(id, messages, malformed) => HandleData(id, messages, malformed);
      case Closed(id) => TransportClosed(id);
      case TransportError(id) => if IsCurrent(View(), id) { FailAndCloseConnection(); }
      case Disconnect => FailAndCloseConnection();
      case Send(ask) => var _ := RequestCommand(ask);
      case SendFails(t) => if TransportOf(lifecycle) == Some(t) { FailAndCloseConnection(); }
    }

    /** Any interleaving of calls and callbacks takes the client through the steps of that run. */
    method Serve(events: seq<Event>)
      requires Valid()
      modifies this
      ensures Valid() && View() == Run(old(View()), events)
      decreases |events|
    {
      hide Step;
      if events != [] {
        Dispatch(events[0]);
        Serve(events[1..]);
      }
    }
  }
}
