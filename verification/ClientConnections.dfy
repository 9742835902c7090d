/**
 The life of a client's connection and of its requests (packages/client/src/connection.ts; `#request`,
 `#handleMessage` and `#rejectPendingRequests` of client.ts).

 `Step` is one stretch of code between two `await`s, with the callbacks into the client run inside it. Transports,
 the network and callers do what they like, in any order; a listener may send requests, and then disconnect or throw,
 inside a handshake callback, but not reconnect there.
 */
module ClientConnections {
  import opened Options

  type AttemptId = nat
  type TransportId = nat
  type RequestId = nat

  /** `settled` counts how often the promise was resolved or rejected. */
  datatype Promise = Promise(outcome: Outcome, settled: nat)
  datatype Outcome = Pending | Resolved | Rejected

  /** `handshake` says that the promise of `connect` is still to be resolved: the listeners are being told. */
  datatype Lifecycle =
    | Disconnected
    | Connecting(id: AttemptId, channel: Option<TransportId>)
    | Connected(id: AttemptId, transport: TransportId, handshake: bool)

  /** Whether the factory still has to answer for an attempt. */
  datatype Attempt = Attempt(handshake: Promise, opening: bool)

  /** A transport that the factory has handed over. */
  datatype Transport = Transport(attempt: AttemptId, closed: bool, reported: bool)

  /** `command` is the kind of request, which its response repeats. */
  datatype Request = Request(command: string, answer: Promise)

  datatype Client = Client(
    lifecycle: Lifecycle,
    attempts: seq<Attempt>,
    transports: seq<Transport>,
    requests: seq<Request>,
    pending: set<RequestId>)

  const INITIAL := Client(Disconnected, [], [], [], {})

  /** A call of `request`: does its frame fit, and does the transport refuse to send it? */
  datatype Ask = Ask(command: string, encodable: bool, sendThrows: bool)

  /** A hello comes with what the listeners do when told of it: what they ask, and whether they then interrupt. */
  datatype ServerMessage =
    | Hello(asked: seq<Ask>, interrupted: bool)
    | HelloError
    | Response(id: RequestId, ok: bool, command: string)
    | ServerEvent

  datatype Event =
    | Connect
    | FactoryResolves(attempt: AttemptId)
    | FactoryRejects(attempt: AttemptId)
    | HelloSendFails(attempt: AttemptId)
    | Data(attempt: AttemptId, messages: seq<ServerMessage>, malformed: bool)
    | Closed(attempt: AttemptId)
    | TransportError(attempt: AttemptId)
    | Disconnect
    | Send(ask: Ask)
    | SendFails(transport: TransportId)

  // ----- the steps -----

  const NEW_PROMISE := Promise(Pending, 0)

  function Settle(p: Promise, outcome: Outcome): Promise {
    Promise(if p.outcome.Pending? then outcome else p.outcome, p.settled + 1)
  }

  predicate IsCurrent(s: Client, id: AttemptId) {
    !s.lifecycle.Disconnected? && s.lifecycle.id == id
  }

  /** The transport of the attempt under way. */
  function TransportOf(lifecycle: Lifecycle): Option<TransportId> {
    match lifecycle
    case Disconnected => None
    case Connecting(_, channel) => channel
    case Connected(_, transport, _) => Some(transport)
  }

  function SettleHandshake(s: Client, id: AttemptId, outcome: Outcome): Client {
    if id < |s.attempts| then
      s.(attempts := s.attempts[id := s.attempts[id].(handshake := Settle(s.attempts[id].handshake, outcome))])
    else s
  }

  function SettleRequest(s: Client, r: RequestId, outcome: Outcome): Client {
    if r < |s.requests| then s.(requests := s.requests[r := Answered(s.requests[r], outcome)], pending := s.pending - {r})
    else s.(pending := s.pending - {r})
  }

  function Answered(request: Request, outcome: Outcome): Request {
    request.(answer := Settle(request.answer, outcome))
  }

  function RejectAll(requests: seq<Request>, pending: set<RequestId>): (r: seq<Request>)
    ensures |r| == |requests|
  {
    seq(|requests|, i requires 0 <= i < |requests| => if i in pending then Answered(requests[i], Rejected) else requests[i])
  }

  /** Does the promise of `connect` still wait for attempt `id`? */
  predicate Shaking(lifecycle: Lifecycle, id: AttemptId) {
    match lifecycle
    case Disconnected => false
    case Connecting(i, _) => i == id
    case Connected(i, _, handshake) => i == id && handshake
  }

  function Close(s: Client, t: Option<TransportId>): Client {
    if t.Some? && t.value < |s.transports| then
      s.(transports := s.transports[t.value := s.transports[t.value].(closed := true)])
    else s
  }

  /** Leaves the attempt; its handshake is rejected if still pending, and so is every pending request. */
  function Fail(s: Client): Client {
    if s.lifecycle.Disconnected? then s
    else
      var left := if Shaking(s.lifecycle, s.lifecycle.id) then SettleHandshake(s, s.lifecycle.id, Rejected) else s;
      left.(lifecycle := Disconnected, requests := RejectAll(s.requests, s.pending), pending := {})
  }

  function FailAndClose(s: Client): Client {
    Close(Fail(s), TransportOf(s.lifecycle))
  }

  function DoConnect(s: Client): Client {
    if !s.lifecycle.Disconnected? then s
    else s.(lifecycle := Connecting(|s.attempts|, None), attempts := s.attempts + [Attempt(NEW_PROMISE, true)])
  }

  function DoFactoryResolves(s: Client, id: AttemptId): Client {
    if id >= |s.attempts| || !s.attempts[id].opening then s
    else
      var t := |s.transports|;
      var taken := s.(attempts := s.attempts[id := s.attempts[id].(opening := false)],
                       transports := s.transports + [Transport(id, false, false)]);
      if s.lifecycle.Connecting? && s.lifecycle.id == id then taken.(lifecycle := Connecting(id, Some(t)))
      else Close(taken, Some(t))
  }

  function DoFactoryRejects(s: Client, id: AttemptId): Client {
    if id >= |s.attempts| || !s.attempts[id].opening then s
    else
      var failed := s.(attempts := s.attempts[id := s.attempts[id].(opening := false)]);
      if IsCurrent(s, id) then Fail(failed) else failed
  }

  function DoRequest(s: Client, ask: Ask): Client {
    if !s.lifecycle.Connected? then s.(requests := s.requests + [Request(ask.command, Promise(Rejected, 1))])
    else
      var r := |s.requests|;
      var asked := s.(requests := s.requests + [Request(ask.command, NEW_PROMISE)], pending := s.pending + {r});
      if !ask.encodable then SettleRequest(asked, r, Rejected)
      else if ask.sendThrows then FailAndClose(asked)
      else asked
  }

  function DoRequests(s: Client, asked: seq<Ask>): Client
    decreases |asked|
  {
    if asked == [] then s else DoRequests(DoRequest(s, asked[0]), asked[1..])
  }

  /** The end of the handshake, unless the listeners have ended the attempt. */
  function EndHandshake(s: Client, interrupted: bool): Client {
    if !s.lifecycle.Connected? then s
    else if interrupted then FailAndClose(s)
    else SettleHandshake(s.(lifecycle := s.lifecycle.(handshake := false)), s.lifecycle.id, Resolved)
  }

  function OnMessage(s: Client, message: ServerMessage): Client {
    match s.lifecycle
    case Disconnected => s
    case Connecting(id, channel) =>
      if !message.Hello? || channel.None? then FailAndClose(s)
      else
        EndHandshake(DoRequests(s.(lifecycle := Connected(id, channel.value, true)), message.asked), message.interrupted)
    case Connected(_, _, _) =>
      match message
      case Hello(_, _) => FailAndClose(s)
      case HelloError => FailAndClose(s)
      case ServerEvent => s
      case Response(r, ok, command) =>
        if r !in s.pending || r >= |s.requests| then FailAndClose(s)
        else if !ok then SettleRequest(s, r, Rejected)
        else if command != s.requests[r].command then FailAndClose(SettleRequest(s, r, Rejected))
        else SettleRequest(s, r, Resolved)
  }

  function OnMessages(s: Client, messages: seq<ServerMessage>): Client
    decreases |messages|
  {
    if messages == [] || s.lifecycle.Disconnected? then s else OnMessages(OnMessage(s, messages[0]), messages[1..])
  }

  function DoData(s: Client, id: AttemptId, messages: seq<ServerMessage>, malformed: bool): Client {
    if !IsCurrent(s, id) then s
    else if s.lifecycle.Connecting? && s.lifecycle.channel.None? then FailAndClose(s)
    else if malformed then FailAndClose(s)
    else OnMessages(s, messages)
  }

  function Report(transports: seq<Transport>, id: AttemptId): (r: seq<Transport>)
    ensures |r| == |transports|
  {
    seq(|transports|, i requires 0 <= i < |transports| =>
      if transports[i].attempt == id then transports[i].(reported := true) else transports[i])
  }

  /** The transport of an attempt says that it has closed; one not handed over yet is closed when it is. */
  function DoClosed(s: Client, id: AttemptId): Client {
    var reported := s.(transports := Report(s.transports, id));
    if IsCurrent(s, id) then Fail(reported) else reported
  }

  function Step(s: Client, e: Event): Client {
    match e
    case Connect => DoConnect(s)
    case FactoryResolves(id) => DoFactoryResolves(s, id)
    case FactoryRejects(id) => DoFactoryRejects(s, id)
    case HelloSendFails(id) => if IsCurrent(s, id) then FailAndClose(s) else s
    case Data(id, messages, malformed) => DoData(s, id, messages, malformed)
    case Closed(id) => DoClosed(s, id)
    case TransportError(id) => if IsCurrent(s, id) then FailAndClose(s) else s
    case Disconnect => FailAndClose(s)
    case Send(ask) => DoRequest(s, ask)
    case SendFails(t) => if TransportOf(s.lifecycle) == Some(t) then FailAndClose(s) else s
  }

  function Run(s: Client, events: seq<Event>): Client
    decreases |events|
  {
    if events == [] then s else Run(Step(s, events[0]), events[1..])
  }

  // ----- the invariant -----

  /** Settled once or not at all. */
  predicate PromiseOk(p: Promise) {
    p.settled == if p.outcome.Pending? then 0 else 1
  }

  /** The handshake pending is that of the attempt being connected, and that attempt is the last one. */
  predicate AttemptsOk(lifecycle: Lifecycle, attempts: seq<Attempt>) {
    && (!lifecycle.Disconnected? ==> lifecycle.id + 1 == |attempts|)
    && (forall i | 0 <= i < |attempts| :: PromiseOk(attempts[i].handshake))
    && (forall i | 0 <= i < |attempts| ::
          attempts[i].handshake.outcome.Pending? <==> Shaking(lifecycle, i))
    && (lifecycle.Connected? && !lifecycle.handshake ==> attempts[lifecycle.id].handshake.outcome.Resolved?)
    && (forall i | 0 <= i < |attempts| && attempts[i].opening :: lifecycle == Connecting(i, None) || IsOver(lifecycle, i))
  }

  /** The lifecycle has left this attempt. */
  predicate IsOver(lifecycle: Lifecycle, id: AttemptId) {
    lifecycle.Disconnected? || lifecycle.id != id
  }

  /** What is pending is what was asked and not answered, and only a connected client has any of it. */
  predicate RequestsOk(lifecycle: Lifecycle, requests: seq<Request>, pending: set<RequestId>) {
    && (forall r | 0 <= r < |requests| ::
          PromiseOk(requests[r].answer) && (requests[r].answer.outcome.Pending? <==> r in pending))
    && (forall r | r in pending :: r < |requests|)
    && (pending != {} ==> lifecycle.Connected?)
  }

  /** A transport is in use, was closed by the client, or has reported its own end. */
  predicate TransportsOk(lifecycle: Lifecycle, transports: seq<Transport>) {
    && (forall t | 0 <= t < |transports| ::
          TransportOf(lifecycle) == Some(t) || transports[t].closed || transports[t].reported)
    && (TransportOf(lifecycle).Some? ==>
          TransportOf(lifecycle).value < |transports| && transports[TransportOf(lifecycle).value].attempt == lifecycle.id)
  }

  predicate Inv(s: Client) {
    && AttemptsOk(s.lifecycle, s.attempts)
    && RequestsOk(s.lifecycle, s.requests, s.pending)
    && TransportsOk(s.lifecycle, s.transports)
  }

  /** Between two steps no listener is being told of a handshake. */
  predicate AtRest(s: Client) {
    s.lifecycle.Connected? ==> !s.lifecycle.handshake
  }

  // ----- every step keeps it -----

  lemma FailKeeps(s: Client)
    requires AttemptsOk(s.lifecycle, s.attempts) && RequestsOk(s.lifecycle, s.requests, s.pending)
    ensures var r := Fail(s);
            AttemptsOk(r.lifecycle, r.attempts) && RequestsOk(r.lifecycle, r.requests, r.pending)
    ensures Fail(s).transports == s.transports && Fail(s).lifecycle == Disconnected
  {}

  lemma FailAndCloseKeeps(s: Client)
    requires Inv(s)
    ensures Inv(FailAndClose(s)) && FailAndClose(s).lifecycle == Disconnected
  {
    hide AttemptsOk, RequestsOk, Fail;
    FailKeeps(s);
  }

  lemma ConnectKeeps(s: Client)
    requires Inv(s)
    ensures Inv(DoConnect(s))
  {}

  lemma FactoryResolvesKeeps(s: Client, id: AttemptId)
    requires Inv(s) && AtRest(s)
    ensures Inv(DoFactoryResolves(s, id)) && AtRest(DoFactoryResolves(s, id))
  {
    hide PromiseOk;
  }

  lemma FactoryRejectsKeeps(s: Client, id: AttemptId)
    requires Inv(s) && AtRest(s)
    ensures Inv(DoFactoryRejects(s, id)) && AtRest(DoFactoryRejects(s, id))
  {
    hide RequestsOk, Fail;
    if id < |s.attempts| && s.attempts[id].opening {
      var failed := s.(attempts := s.attempts[id := s.attempts[id].(opening := false)]);
      assert AttemptsOk(failed.lifecycle, failed.attempts);
      FailKeeps(failed);
    }
  }

  lemma SettleRequestKeeps(s: Client, r: RequestId, outcome: Outcome)
    requires Inv(s) && r in s.pending && !outcome.Pending?
    ensures Inv(SettleRequest(s, r, outcome)) && SettleRequest(s, r, outcome).lifecycle == s.lifecycle
  {
    hide AttemptsOk, TransportsOk;
  }

  lemma RequestKeeps(s: Client, ask: Ask)
    requires Inv(s)
    ensures Inv(DoRequest(s, ask))
    ensures var after := DoRequest(s, ask).lifecycle; after == s.lifecycle || after == Disconnected
  {
    hide AttemptsOk, TransportsOk, FailAndClose;
    if s.lifecycle.Connected? {
      var asked := s.(requests := s.requests + [Request(ask.command, NEW_PROMISE)], pending := s.pending + {|s.requests|});
      assert RequestsOk(asked.lifecycle, asked.requests, asked.pending);
      SettleRequestKeeps(asked, |s.requests|, Rejected);
      FailAndCloseKeeps(asked);
    }
  }

  /** A request leaves the connection as it is, or ends it. */
  lemma RequestStays(s: Client, ask: Ask)
    ensures var after := DoRequest(s, ask).lifecycle; after == s.lifecycle || after == Disconnected
  {}

  lemma {:induction false} RequestsKeep(s: Client, asked: seq<Ask>)
    requires Inv(s)
    ensures Inv(DoRequests(s, asked))
    ensures var after := DoRequests(s, asked).lifecycle; after == s.lifecycle || after == Disconnected
    decreases |asked|
  {
    hide Inv, DoRequest;
    if asked != [] {
      RequestKeeps(s, asked[0]);
      RequestsKeep(DoRequest(s, asked[0]), asked[1..]);
    }
  }

  /** The connection is in use, and the promise of `connect` not yet resolved. */
  lemma TellKeeps(s: Client)
    requires Inv(s) && s.lifecycle.Connecting? && s.lifecycle.channel.Some?
    ensures Inv(s.(lifecycle := Connected(s.lifecycle.id, s.lifecycle.channel.value, true)))
  {
    hide PromiseOk;
  }

  lemma EndHandshakeKeeps(s: Client, interrupted: bool)
    requires Inv(s) && (s.lifecycle.Connected? ==> s.lifecycle.handshake)
    ensures Inv(EndHandshake(s, interrupted))
    ensures AtRest(EndHandshake(s, interrupted))
  {
    hide FailAndClose;
    FailAndCloseKeeps(s);
  }

  lemma HelloKeeps(s: Client, asked: seq<Ask>, interrupted: bool)
    requires Inv(s) && s.lifecycle.Connecting? && s.lifecycle.channel.Some?
    ensures Inv(OnMessage(s, Hello(asked, interrupted))) && AtRest(OnMessage(s, Hello(asked, interrupted)))
  {
    hide Inv, EndHandshake, DoRequests;
    TellKeeps(s);
    var told := s.(lifecycle := Connected(s.lifecycle.id, s.lifecycle.channel.value, true));
    RequestsKeep(told, asked);
    EndHandshakeKeeps(DoRequests(told, asked), interrupted);
  }

  lemma MessageKeeps(s: Client, message: ServerMessage)
    requires Inv(s) && AtRest(s)
    ensures Inv(OnMessage(s, message)) && AtRest(OnMessage(s, message))
  {
    hide FailAndClose, SettleRequest, Inv, EndHandshake, DoRequests;
    FailAndCloseKeeps(s);
    match s.lifecycle
    case Connecting(id, channel) =>
      if message.Hello? && channel.Some? {
        HelloKeeps(s, message.asked, message.interrupted);
      }
    case Connected(_, _, _) =>
      if message.Response? && message.id in s.pending {
        SettleRequestKeeps(s, message.id, Rejected);
        SettleRequestKeeps(s, message.id, Resolved);
        FailAndCloseKeeps(SettleRequest(s, message.id, Rejected));
      }
    case _ =>
  }

  lemma {:induction false} MessagesKeep(s: Client, messages: seq<ServerMessage>)
    requires Inv(s) && AtRest(s)
    ensures Inv(OnMessages(s, messages)) && AtRest(OnMessages(s, messages))
    decreases |messages|
  {
    hide Inv, AtRest, OnMessage;
    if messages != [] && !s.lifecycle.Disconnected? {
      MessageKeeps(s, messages[0]);
      MessagesKeep(OnMessage(s, messages[0]), messages[1..]);
    }
  }

  lemma ClosedKeeps(s: Client, id: AttemptId)
    requires Inv(s) && AtRest(s)
    ensures Inv(DoClosed(s, id)) && AtRest(DoClosed(s, id))
  {
    hide AttemptsOk, RequestsOk, Fail;
    FailKeeps(s.(transports := Report(s.transports, id)));
  }

  lemma StepKeeps(s: Client, e: Event)
    requires Inv(s) && AtRest(s)
    ensures Inv(Step(s, e)) && AtRest(Step(s, e))
  {
    hide Inv, DoFactoryResolves, DoFactoryRejects, DoClosed, DoRequest, FailAndClose, OnMessages;
    FailAndCloseKeeps(s);
    match e
    case Connect => ConnectKeeps(s);
    case FactoryResolves(id) =>
      FactoryResolvesKeeps(s, id);
    case FactoryRejects(id) =>
      FactoryRejectsKeeps(s, id);
    case Data(_, messages, _) => MessagesKeep(s, messages);
    case Closed(id) =>
      ClosedKeeps(s, id);
    case Send(ask) => RequestKeeps(s, ask);
    case _ =>
  }

  lemma {:induction false} RunInv(s: Client, events: seq<Event>)
    requires Inv(s) && AtRest(s)
    ensures Inv(Run(s, events)) && AtRest(Run(s, events))
    decreases |events|
  {
    hide Inv, AtRest, Step;
    if events != [] {
      StepKeeps(s, events[0]);
      RunInv(Step(s, events[0]), events[1..]);
    }
  }

  /** What holds after every run, whatever transports, servers and callers do. */
  lemma ConnectionIsOrderly(events: seq<Event>)
    ensures var s := Run(INITIAL, events);
            && (forall i | 0 <= i < |s.attempts| :: s.attempts[i].handshake.settled <= 1)
            && (forall i | 0 <= i < |s.attempts| ::
                  s.attempts[i].handshake.settled == 0 ==> IsCurrent(s, i) && s.lifecycle.Connecting?)
            && (forall r | 0 <= r < |s.requests| ::
                  s.requests[r].answer.settled <= 1 && (s.requests[r].answer.settled == 0 <==> r in s.pending))
            && (s.pending != {} ==> s.lifecycle.Connected?)
            && (forall t | 0 <= t < |s.transports| ::
                  TransportOf(s.lifecycle) == Some(t) || s.transports[t].closed || s.transports[t].reported)
  {
    assert Inv(INITIAL);
    RunInv(INITIAL, events);
  }

  // ----- what settles a request, and that nothing settled changes -----

  /** Settled promises keep their outcome, and nothing is forgotten. */
  predicate Grown(s: Client, t: Client) {
    && |s.attempts| <= |t.attempts| && |s.requests| <= |t.requests| && |s.transports| <= |t.transports|
    && (forall i | 0 <= i < |s.attempts| && !s.attempts[i].handshake.outcome.Pending? ::
          t.attempts[i].handshake.outcome == s.attempts[i].handshake.outcome)
    && (forall r | 0 <= r < |s.requests| :: t.requests[r].command == s.requests[r].command)
    && (forall r | 0 <= r < |s.requests| && !s.requests[r].answer.outcome.Pending? ::
          t.requests[r].answer.outcome == s.requests[r].answer.outcome)
    && (forall i | 0 <= i < |s.transports| :: s.transports[i].closed ==> t.transports[i].closed)
  }

  lemma GrownTwice(s: Client, t: Client, u: Client)
    requires Grown(s, t) && Grown(t, u)
    ensures Grown(s, u)
  {}

  lemma SettleGrows(s: Client, r: RequestId, outcome: Outcome)
    ensures Grown(s, SettleRequest(s, r, outcome))
  {}

  lemma RequestGrows(s: Client, ask: Ask)
    ensures Grown(s, DoRequest(s, ask))
  {
    hide Grown, SettleRequest, FailAndClose;
    var asked := s.(requests := s.requests + [Request(ask.command, NEW_PROMISE)], pending := s.pending + {|s.requests|});
    AskGrows(s, ask);
    SettleGrows(asked, |s.requests|, Rejected);
    FailAndCloseGrows(asked);
    GrownTwice(s, asked, FailAndClose(asked));
    GrownTwice(s, asked, SettleRequest(asked, |s.requests|, Rejected));
  }

  lemma AskGrows(s: Client, ask: Ask)
    ensures Grown(s, s.(requests := s.requests + [Request(ask.command, NEW_PROMISE)], pending := s.pending + {|s.requests|}))
    ensures Grown(s, s.(requests := s.requests + [Request(ask.command, Promise(Rejected, 1))]))
  {}

  lemma FailAndCloseGrows(s: Client)
    ensures Grown(s, FailAndClose(s)) && Grown(s, s)
  {}

  lemma {:induction false} RequestsGrow(s: Client, asked: seq<Ask>)
    ensures Grown(s, DoRequests(s, asked))
    decreases |asked|
  {
    hide DoRequest;
    if asked != [] {
      RequestGrows(s, asked[0]);
      RequestsGrow(DoRequest(s, asked[0]), asked[1..]);
    }
  }

  lemma TellGrows(s: Client, lifecycle: Lifecycle)
    ensures Grown(s, s.(lifecycle := lifecycle))
  {}

  lemma EndHandshakeGrows(s: Client, interrupted: bool)
    ensures Grown(s, EndHandshake(s, interrupted))
  {
    hide FailAndClose;
    FailAndCloseGrows(s);
  }

  lemma HelloGrows(s: Client, asked: seq<Ask>, interrupted: bool, lifecycle: Lifecycle)
    ensures Grown(s, EndHandshake(DoRequests(s.(lifecycle := lifecycle), asked), interrupted))
  {
    hide Grown, DoRequests, EndHandshake;
    var told := s.(lifecycle := lifecycle);
    var called := DoRequests(told, asked);
    TellGrows(s, lifecycle);
    RequestsGrow(told, asked);
    EndHandshakeGrows(called, interrupted);
    GrownTwice(s, told, called);
    GrownTwice(s, called, EndHandshake(called, interrupted));
  }

  lemma MessageGrows(s: Client, message: ServerMessage)
    ensures Grown(s, OnMessage(s, message))
  {
    hide FailAndClose, SettleRequest, Grown, EndHandshake, DoRequests;
    FailAndCloseGrows(s);
    match message
    case Response(id, _, _) =>
      var r := SettleRequest(s, id, Rejected);
      SettleGrows(s, id, Rejected);
      SettleGrows(s, id, Resolved);
      FailAndCloseGrows(r);
      GrownTwice(s, r, FailAndClose(r));
    case Hello(asked, interrupted) =>
      if s.lifecycle.Connecting? && s.lifecycle.channel.Some? {
        HelloGrows(s, asked, interrupted, Connected(s.lifecycle.id, s.lifecycle.channel.value, true));
      }
    case _ =>
  }

  lemma {:induction false} MessagesGrow(s: Client, messages: seq<ServerMessage>)
    ensures Grown(s, OnMessages(s, messages))
    decreases |messages|
  {
    hide OnMessage;
    if messages != [] && !s.lifecycle.Disconnected? {
      MessageGrows(s, messages[0]);
      MessagesGrow(OnMessage(s, messages[0]), messages[1..]);
    }
  }

  lemma StepGrows(s: Client, e: Event)
    ensures Grown(s, Step(s, e))
  {
    if e.Data? {
      hide Grown, OnMessages, FailAndClose;
      MessagesGrow(s, e.messages);
      FailAndCloseGrows(s);
    } else {
      hide DoData, FailAndClose, DoRequest;
      FailAndCloseGrows(s);
      if e.Send? { RequestGrows(s, e.ask); }
    }
  }

  lemma {:induction false} RunGrows(s: Client, events: seq<Event>)
    ensures Grown(s, Run(s, events))
    decreases |events|
  {
    hide Step;
    if events != [] {
      StepGrows(s, events[0]);
      RunGrows(Step(s, events[0]), events[1..]);
    }
  }

  predicate IsResolved(s: Client, r: RequestId) {
    r < |s.requests| && s.requests[r].answer.outcome.Resolved?
  }

  lemma FailResolvesNothing(s: Client, r: RequestId)
    ensures IsResolved(FailAndClose(s), r) ==> IsResolved(s, r)
  {}

  lemma RequestResolvesNothing(s: Client, ask: Ask, r: RequestId)
    ensures IsResolved(DoRequest(s, ask), r) ==> IsResolved(s, r)
  {
    hide FailAndClose;
    var asked := s.(requests := s.requests + [Request(ask.command, NEW_PROMISE)], pending := s.pending + {|s.requests|});
    FailResolvesNothing(asked, r);
  }

  lemma {:induction false} RequestsResolveNothing(s: Client, asked: seq<Ask>, r: RequestId)
    ensures IsResolved(DoRequests(s, asked), r) ==> IsResolved(s, r)
    decreases |asked|
  {
    hide DoRequest;
    if asked != [] {
      RequestResolvesNothing(s, asked[0], r);
      RequestsResolveNothing(DoRequest(s, asked[0]), asked[1..], r);
    }
  }

  lemma EndHandshakeResolvesNothing(s: Client, interrupted: bool, r: RequestId)
    ensures IsResolved(EndHandshake(s, interrupted), r) ==> IsResolved(s, r)
  {
    hide FailAndClose;
    FailResolvesNothing(s, r);
  }

  /** The response to request `r` as it was sent. */
  predicate Answers(message: ServerMessage, r: RequestId, requests: seq<Request>) {
    r < |requests| && message == Response(r, true, requests[r].command)
  }

  lemma MessageAnswers(s: Client, message: ServerMessage, r: RequestId)
    requires !IsResolved(s, r) && IsResolved(OnMessage(s, message), r)
    ensures Answers(message, r, s.requests)
  {
    hide FailAndClose, EndHandshake, DoRequests;
    FailResolvesNothing(s, r);
    match message
    case Response(id, _, _) =>
      FailResolvesNothing(SettleRequest(s, id, Rejected), r);
    case Hello(asked, interrupted) =>
      if s.lifecycle.Connecting? && s.lifecycle.channel.Some? {
        var told := s.(lifecycle := Connected(s.lifecycle.id, s.lifecycle.channel.value, true));
        RequestsResolveNothing(told, asked, r);
        EndHandshakeResolvesNothing(DoRequests(told, asked), interrupted, r);
      }
    case _ =>
  }

  predicate AnsweredBy(messages: seq<ServerMessage>, r: RequestId, requests: seq<Request>) {
    exists i :: 0 <= i < |messages| && Answers(messages[i], r, requests)
  }

  lemma {:induction false} MessagesAnswer(s: Client, messages: seq<ServerMessage>, r: RequestId)
    requires !IsResolved(s, r) && IsResolved(OnMessages(s, messages), r)
    ensures AnsweredBy(messages, r, OnMessages(s, messages).requests)
    decreases |messages|
  {
    hide OnMessage, IsResolved;
    if messages != [] && !s.lifecycle.Disconnected? {
      var next := OnMessage(s, messages[0]);
      MessageGrows(s, messages[0]);
      MessagesGrow(next, messages[1..]);
      if IsResolved(next, r) {
        MessageAnswers(s, messages[0], r);
        assert Answers(messages[0], r, OnMessages(s, messages).requests);
      } else {
        MessagesAnswer(next, messages[1..], r);
        var i :| 0 <= i < |messages[1..]| && Answers(messages[1..][i], r, OnMessages(next, messages[1..]).requests);
        assert Answers(messages[i + 1], r, OnMessages(s, messages).requests);
      }
    }
  }

  /** A request is resolved only by a response that bears its own id and command, even one sent in the same step. */
  lemma ResolvedByItsOwnResponse(s: Client, e: Event, r: RequestId)
    requires !IsResolved(s, r) && IsResolved(Step(s, e), r)
    ensures e.Data? && AnsweredBy(e.messages, r, Step(s, e).requests)
  {
    hide FailAndClose, OnMessages, DoRequest;
    FailResolvesNothing(s, r);
    if e.Data? {
      MessagesAnswer(s, e.messages, r);
    } else {
      OthersResolveNothing(s, e, r);
    }
  }

  lemma OthersResolveNothing(s: Client, e: Event, r: RequestId)
    requires !e.Data? && !IsResolved(s, r)
    ensures !IsResolved(Step(s, e), r)
  {
    hide FailAndClose, DoRequest;
    FailResolvesNothing(s, r);
    match e
    case Send(ask) => RequestResolvesNothing(s, ask, r);
    case _ =>
  }
}
