/**
 What a connected client makes of what it receives and is asked (packages/client/src/connection.ts, client.ts), said of
 the messages and the request table alone: which data are answers to what was asked, what they settle, and what ends
 the connection. The results are equivalences and mention no handler.
 */
module ClientRequests {
  import opened ClientConnections
  import opened Options

  /** An event, or the response to a pending request that is refused or repeats its command. */
  predicate Fits(message: ServerMessage, requests: seq<Request>, pending: set<RequestId>) {
    match message
    case ServerEvent => true
    case Response(r, ok, command) => r in pending && r < |requests| && (ok ==> command == requests[r].command)
    case _ => false
  }

  function IdsOf(message: ServerMessage): set<RequestId> {
    match message
    case Response(r, _, _) => {r}
    case _ => {}
  }

  /** Events and responses, no two of them to the same request. */
  predicate AllFit(messages: seq<ServerMessage>, requests: seq<Request>, pending: set<RequestId>)
    decreases |messages|
  {
    messages == []
    || (Fits(messages[0], requests, pending) && AllFit(messages[1..], requests, pending - IdsOf(messages[0])))
  }

  /** The request is answered among these messages: was it granted? */
  predicate AnsweredWith(messages: seq<ServerMessage>, r: RequestId, ok: bool) {
    exists i :: 0 <= i < |messages| && messages[i].Response? && messages[i].id == r && messages[i].ok == ok
  }

  /** Every answered request is settled by its answer and no other request changes. */
  ghost predicate SettledBy(messages: seq<ServerMessage>, before: Client, after: Client) {
    && |after.requests| == |before.requests|
    && (forall r | 0 <= r < |before.requests| :: after.requests[r].command == before.requests[r].command)
    && (forall r | 0 <= r < |before.requests| && AnsweredWith(messages, r, true) ::
          after.requests[r].answer == Promise(Resolved, 1))
    && (forall r | 0 <= r < |before.requests| && AnsweredWith(messages, r, false) ::
          after.requests[r].answer == Promise(Rejected, 1))
    && (forall r | 0 <= r < |before.requests| && !AnsweredWith(messages, r, true) && !AnsweredWith(messages, r, false) ::
          after.requests[r] == before.requests[r])
    && (forall r :: r in after.pending <==>
          r in before.pending && !AnsweredWith(messages, r, true) && !AnsweredWith(messages, r, false))
  }

  predicate SameConnection(before: Client, after: Client) {
    after.lifecycle == before.lifecycle && after.attempts == before.attempts && after.transports == before.transports
  }

  /** Connected, and nobody is being told of a handshake. */
  predicate InUse(s: Client) {
    s.lifecycle.Connected? && !s.lifecycle.handshake
  }

  lemma MessageFits(s: Client, message: ServerMessage)
    requires Inv(s) && InUse(s)
    ensures if Fits(message, s.requests, s.pending)
            then SameConnection(s, OnMessage(s, message)) && SettledBy([message], s, OnMessage(s, message))
                 && OnMessage(s, message).pending == s.pending - IdsOf(message)
            else OnMessage(s, message).lifecycle == Disconnected
  {
    hide AttemptsOk, TransportsOk;
    if message.Response? {
      assert [message][0] == message;
      assert AnsweredWith([message], message.id, message.ok);
    }
  }

  lemma Answers(messages: seq<ServerMessage>, r: RequestId, ok: bool)
    requires messages != []
    ensures AnsweredWith(messages, r, ok) <==> AnsweredWith([messages[0]], r, ok) || AnsweredWith(messages[1..], r, ok)
  {
    var one, rest := [messages[0]], messages[1..];
    if AnsweredWith(messages, r, ok) {
      var i :| 0 <= i < |messages| && messages[i].Response? && messages[i].id == r && messages[i].ok == ok;
      if i > 0 { assert rest[i - 1] == messages[i]; } else { assert one[0] == messages[i]; }
    }
    if AnsweredWith(one, r, ok) { assert messages[0] == one[0]; }
    if AnsweredWith(rest, r, ok) {
      var i :| 0 <= i < |rest| && rest[i].Response? && rest[i].id == r && rest[i].ok == ok;
      assert messages[i + 1] == rest[i];
    }
  }

  /** Fitting messages answer only what is pending. */
  lemma {:induction false} OnlyPendingAnswered(messages: seq<ServerMessage>, requests: seq<Request>, pending: set<RequestId>,
                                               r: RequestId, ok: bool)
    requires AllFit(messages, requests, pending) && AnsweredWith(messages, r, ok)
    ensures r in pending
    decreases |messages|
  {
    if messages != [] {
      Answers(messages, r, ok);
      if AnsweredWith(messages[1..], r, ok) {
        OnlyPendingAnswered(messages[1..], requests, pending - IdsOf(messages[0]), r, ok);
      }
    }
  }

  /** Commands of requests do not change. */
  lemma {:induction false} FitsByCommand(messages: seq<ServerMessage>, a: seq<Request>, b: seq<Request>,
                                         pending: set<RequestId>)
    requires |a| == |b| && forall r | 0 <= r < |a| :: a[r].command == b[r].command
    ensures AllFit(messages, a, pending) <==> AllFit(messages, b, pending)
    decreases |messages|
  {
    if messages != [] {
      FitsByCommand(messages[1..], a, b, pending - IdsOf(messages[0]));
    }
  }

  lemma SettledOn(messages: seq<ServerMessage>, s: Client, next: Client, after: Client)
    requires messages != [] && SettledBy([messages[0]], s, next) && SettledBy(messages[1..], next, after)
    requires next.pending == s.pending - IdsOf(messages[0]) && AllFit(messages[1..], next.requests, next.pending)
    ensures SettledBy(messages, s, after)
  {
    forall r
      ensures r !in next.pending ==> !AnsweredWith(messages[1..], r, true) && !AnsweredWith(messages[1..], r, false)
      ensures AnsweredWith(messages, r, true)
              <==> AnsweredWith([messages[0]], r, true) || AnsweredWith(messages[1..], r, true)
      ensures AnsweredWith(messages, r, false)
              <==> AnsweredWith([messages[0]], r, false) || AnsweredWith(messages[1..], r, false)
    {
      Answers(messages, r, true);
      Answers(messages, r, false);
      if AnsweredWith(messages[1..], r, true) { OnlyPendingAnswered(messages[1..], next.requests, next.pending, r, true); }
      if AnsweredWith(messages[1..], r, false) { OnlyPendingAnswered(messages[1..], next.requests, next.pending, r, false); }
    }
    forall r
      ensures (AnsweredWith([messages[0]], r, true) || AnsweredWith([messages[0]], r, false)) ==> r !in next.pending
    {
    }
    hide AnsweredWith, AllFit;
  }

  lemma {:induction false} MessagesFit(s: Client, messages: seq<ServerMessage>)
    requires Inv(s) && InUse(s)
    ensures if AllFit(messages, s.requests, s.pending)
            then SameConnection(s, OnMessages(s, messages)) && SettledBy(messages, s, OnMessages(s, messages))
            else OnMessages(s, messages).lifecycle == Disconnected
    decreases |messages|
  {
    hide Inv, OnMessage, SettledBy, Fits;
    if messages == [] {
      NothingSettled(s);
    } else {
      var next := OnMessage(s, messages[0]);
      MessageFits(s, messages[0]);
      if Fits(messages[0], s.requests, s.pending) {
        MessageKeeps(s, messages[0]);
        MessagesFit(next, messages[1..]);
        SameCommands([messages[0]], s, next);
        FitsByCommand(messages[1..], s.requests, next.requests, next.pending);
        if AllFit(messages[1..], next.requests, next.pending) {
          SettledOn(messages, s, next, OnMessages(next, messages[1..]));
        }
      }
    }
  }

  lemma NothingSettled(s: Client)
    ensures SettledBy([], s, s)
  {}

  lemma SameCommands(messages: seq<ServerMessage>, s: Client, after: Client)
    requires SettledBy(messages, s, after)
    ensures |after.requests| == |s.requests|
    ensures forall r | 0 <= r < |s.requests| :: after.requests[r].command == s.requests[r].command
  {}

  /**
   Data that come in on the connection in use leave it in use if and only if they are events and fitting responses; then
   each response settles its own request, by its own verdict, and nothing else is touched.
   */
  lemma DataSettleExactly(s: Client, messages: seq<ServerMessage>, malformed: bool)
    requires Inv(s) && InUse(s)
    ensures var after := Step(s, Data(s.lifecycle.id, messages, malformed));
            if !malformed && AllFit(messages, s.requests, s.pending)
            then SameConnection(s, after) && SettledBy(messages, s, after)
            else after.lifecycle == Disconnected
  {
    hide Inv, OnMessages, SettledBy, AllFit;
    MessagesFit(s, messages);
  }

  // ----- what ends a connection -----

  /** What ends the connection in use. */
  predicate Ends(s: Client, e: Event)
    requires InUse(s)
  {
    match e
    case Data(id, messages, malformed) =>
      id == s.lifecycle.id && (malformed || !AllFit(messages, s.requests, s.pending))
    case Closed(id) => id == s.lifecycle.id
    case TransportError(id) => id == s.lifecycle.id
    case HelloSendFails(id) => id == s.lifecycle.id
    case Disconnect => true
    case Send(ask) => ask.encodable && ask.sendThrows
    case SendFails(t) => t == s.lifecycle.transport
    case _ => false
  }

  /** The connection in use stays so until something ends it; then nothing is pending and its transport is done with. */
  lemma EndsExactly(s: Client, e: Event)
    requires Inv(s) && InUse(s)
    ensures var after := Step(s, e);
            if Ends(s, e)
            then after.lifecycle == Disconnected && after.pending == {}
                 && (forall r | 0 <= r < |after.requests| :: !after.requests[r].answer.outcome.Pending?)
                 && s.lifecycle.transport < |after.transports|
                 && (after.transports[s.lifecycle.transport].closed || after.transports[s.lifecycle.transport].reported)
            else after.lifecycle == s.lifecycle
  {
    StepKeeps(s, e);
    hide AttemptsOk, OnMessages, AllFit;
    if e.Data? && e.attempt == s.lifecycle.id {
      DataSettleExactly(s, e.messages, e.malformed);
      StepGrows(s, e);
    }
  }

  // ----- what settles a request -----

  /** A request that cannot be sent is rejected at once; any other waits for its answer. */
  lemma SendsExactly(s: Client, ask: Ask)
    requires Inv(s) && AtRest(s)
    ensures var after := Step(s, Send(ask)); var r := |s.requests|;
            && |after.requests| == r + 1 && after.requests[r].command == ask.command
            && (r in after.pending <==> s.lifecycle.Connected? && ask.encodable && !ask.sendThrows)
            && (r !in after.pending ==> after.requests[r].answer == Promise(Rejected, 1))
            && (forall q | 0 <= q < r && !(s.lifecycle.Connected? && ask.encodable && ask.sendThrows) ::
                  after.requests[q] == s.requests[q])
  {
    hide AttemptsOk, TransportsOk;
  }

  /** What else can happen to a request in use: nothing, unless it is answered or the connection ends. */
  lemma RequestsStay(s: Client, e: Event, r: RequestId)
    requires Inv(s) && InUse(s) && r < |s.requests| && !Ends(s, e) && !(e.Data? && e.attempt == s.lifecycle.id)
    ensures Step(s, e).requests[r] == s.requests[r] && (r in Step(s, e).pending <==> r in s.pending)
  {
    hide TransportsOk, OnMessages, AllFit, RejectAll, PromiseOk;
  }

  // ----- the handshake -----

  predicate Throws(ask: Ask) {
    ask.encodable && ask.sendThrows
  }

  /** What asking leaves in the table, if the transport takes it: a rejected or a waiting request. */
  function Entry(ask: Ask): Request {
    Request(ask.command, if ask.encodable then Promise(Pending, 0) else Promise(Rejected, 1))
  }

  function Entries(asked: seq<Ask>): (r: seq<Request>)
    ensures |r| == |asked|
  {
    seq(|asked|, i requires 0 <= i < |asked| => Entry(asked[i]))
  }

  /** The connection has ended, and so has its handshake if that was still under way. */
  predicate GivenUp(before: Client, after: Client)
    requires before.lifecycle.Connected?
  {
    && after.lifecycle == Disconnected
    && (before.lifecycle.handshake ==>
          before.lifecycle.id < |after.attempts| && after.attempts[before.lifecycle.id].handshake == Promise(Rejected, 1))
  }

  lemma AskExactly(s: Client, ask: Ask)
    requires Inv(s) && s.lifecycle.Connected?
    ensures var after := DoRequest(s, ask);
            if Throws(ask) then GivenUp(s, after)
            else SameConnection(s, after) && after.requests == s.requests + [Entry(ask)]
  {
    hide TransportsOk;
  }

  lemma {:induction false} DisconnectedStays(s: Client, asked: seq<Ask>)
    requires s.lifecycle.Disconnected?
    ensures DoRequests(s, asked).lifecycle.Disconnected? && DoRequests(s, asked).attempts == s.attempts
    decreases |asked|
  {
    if asked != [] { DisconnectedStays(DoRequest(s, asked[0]), asked[1..]); }
  }

  predicate AnyThrows(asked: seq<Ask>) {
    exists i :: 0 <= i < |asked| && Throws(asked[i])
  }

  lemma ThrowsFirstOrLater(asked: seq<Ask>)
    requires asked != []
    ensures AnyThrows(asked) <==> Throws(asked[0]) || AnyThrows(asked[1..])
  {
    hide Throws;
    var rest := asked[1..];
    if i :| 0 <= i < |asked| && Throws(asked[i]) { assert i == 0 || Throws(rest[i - 1]); }
    if i :| 0 <= i < |rest| && Throws(rest[i]) { assert Throws(asked[i + 1]); }
  }

  lemma {:induction false} AsksExactly(s: Client, asked: seq<Ask>)
    requires Inv(s) && s.lifecycle.Connected?
    ensures var after := DoRequests(s, asked);
            if AnyThrows(asked) then GivenUp(s, after)
            else SameConnection(s, after) && after.requests == s.requests + Entries(asked)
    decreases |asked|
  {
    hide Inv, DoRequest, Entry, Throws, AnyThrows;
    if asked == [] {
      assert !AnyThrows([]) by { NothingThrows(); }
      assert s.requests + Entries(asked) == s.requests;
    } else {
      var next := DoRequest(s, asked[0]);
      AskExactly(s, asked[0]);
      RequestKeeps(s, asked[0]);
      ThrowsFirstOrLater(asked);
      if Throws(asked[0]) {
        DisconnectedStays(next, asked[1..]);
      } else {
        AsksExactly(next, asked[1..]);
        assert Entries(asked) == [Entry(asked[0])] + Entries(asked[1..]);
      }
    }
  }

  lemma NothingThrows()
    ensures !AnyThrows([])
  {}

  lemma EndsHandshake(s: Client, interrupted: bool)
    requires Inv(s) && s.lifecycle.Connected? && s.lifecycle.handshake
    ensures var id := s.lifecycle.id; var after := EndHandshake(s, interrupted);
            && id < |after.attempts|
            && if interrupted then GivenUp(s, after)
               else after.lifecycle == s.lifecycle.(handshake := false) && after.requests == s.requests
                    && after.attempts[id].handshake == Promise(Resolved, 1) && after.transports == s.transports
  {
    hide TransportsOk;
  }

  lemma OneMessage(s: Client, message: ServerMessage)
    requires !s.lifecycle.Disconnected?
    ensures OnMessages(s, [message]) == OnMessage(s, message)
  {
    hide OnMessage;
    assert [message][0] == message && [message][1..] == [];
  }

  /**
   A hello on the transport of the attempt resolves it, unless a listener interrupts it or asks what the transport
   refuses to send; what the listeners asked is in the table then.
   */
  lemma HelloExactly(s: Client, asked: seq<Ask>, interrupted: bool)
    requires Inv(s) && s.lifecycle.Connecting? && s.lifecycle.channel.Some?
    ensures var id := s.lifecycle.id;
            var after := Step(s, Data(id, [Hello(asked, interrupted)], false));
            && id < |after.attempts|
            && if interrupted || AnyThrows(asked)
               then after.lifecycle == Disconnected && after.attempts[id].handshake == Promise(Rejected, 1)
               else after.lifecycle == Connected(id, s.lifecycle.channel.value, false)
                    && after.attempts[id].handshake == Promise(Resolved, 1)
                    && after.requests == s.requests + Entries(asked) && after.transports == s.transports
  {
    hide Inv, DoRequests, EndHandshake, AnyThrows, OnMessages;
    var told := s.(lifecycle := Connected(s.lifecycle.id, s.lifecycle.channel.value, true));
    OneMessage(s, Hello(asked, interrupted));
    TellKeeps(s);
    AsksExactly(told, asked);
    RequestsKeep(told, asked);
    if !AnyThrows(asked) { EndsHandshake(DoRequests(told, asked), interrupted); }
    Ended(DoRequests(told, asked), interrupted);
  }

  lemma Ended(s: Client, interrupted: bool)
    ensures s.lifecycle.Disconnected? ==> EndHandshake(s, interrupted) == s
  {}

  /** Any other first message, or a hello before the transport is there, ends the attempt. */
  lemma OtherGreetingsEnd(s: Client, message: ServerMessage)
    requires Inv(s) && s.lifecycle.Connecting? && (!message.Hello? || s.lifecycle.channel.None?)
    ensures var after := Step(s, Data(s.lifecycle.id, [message], false));
            && after.lifecycle == Disconnected
            && s.lifecycle.id < |after.attempts| && after.attempts[s.lifecycle.id].handshake == Promise(Rejected, 1)
  {
    hide RequestsOk, TransportsOk, OnMessages;
    OneMessage(s, message);
  }

  /** Data of another attempt are ignored; data that cannot be decoded end the attempt. */
  lemma StrayOrMalformed(s: Client, id: AttemptId, messages: seq<ServerMessage>, malformed: bool)
    requires Inv(s)
    ensures !IsCurrent(s, id) ==> Step(s, Data(id, messages, malformed)) == s
    ensures var after := Step(s, Data(id, messages, true));
            IsCurrent(s, id) ==>
              && after.lifecycle == Disconnected
              && (s.lifecycle.Connecting? ==>
                    id < |after.attempts| && after.attempts[id].handshake == Promise(Rejected, 1))
  {
    hide RequestsOk, TransportsOk, OnMessages;
  }

  lemma {:induction false} MessagesSplit(s: Client, a: seq<ServerMessage>, b: seq<ServerMessage>)
    ensures OnMessages(s, a + b) == OnMessages(OnMessages(s, a), b)
    decreases |a|
  {
    hide OnMessage;
    if a == [] {
      assert a + b == b;
    } else if !s.lifecycle.Disconnected? {
      assert (a + b)[0] == a[0] && (a + b)[1..] == a[1..] + b;
      MessagesSplit(OnMessage(s, a[0]), a[1..], b);
    }
  }

  lemma {:induction false} MessagesStay(s: Client, messages: seq<ServerMessage>)
    requires Inv(s) && AtRest(s) && !s.lifecycle.Disconnected? && (s.lifecycle.Connecting? ==> s.lifecycle.channel.Some?)
    ensures var after := OnMessages(s, messages).lifecycle;
            after.Disconnected? || (after.id == s.lifecycle.id && (after.Connecting? ==> after.channel.Some?))
    decreases |messages|
  {
    hide Inv;
    if messages != [] {
      var next := OnMessage(s, messages[0]);
      MessageKeeps(s, messages[0]);
      MessageStays(s, messages[0]);
      if !next.lifecycle.Disconnected? { MessagesStay(next, messages[1..]); }
    }
  }

  lemma MessageStays(s: Client, message: ServerMessage)
    requires Inv(s) && !s.lifecycle.Disconnected? && (s.lifecycle.Connecting? ==> s.lifecycle.channel.Some?)
    ensures var after := OnMessage(s, message).lifecycle;
            after.Disconnected? || (after.id == s.lifecycle.id && (after.Connecting? ==> after.channel.Some?))
  {
    hide Inv, DoRequests;
    if s.lifecycle.Connecting? && message.Hello? {
      TellKeeps(s);
      RequestsKeep(s.(lifecycle := Connected(s.lifecycle.id, s.lifecycle.channel.value, true)), message.asked);
    }
  }

  lemma NoMessages(s: Client, messages: seq<ServerMessage>)
    ensures s.lifecycle.Disconnected? ==> OnMessages(s, messages) == s
  {}

  /** It does not matter how the messages are spread over chunks. */
  lemma ChunksDoNotMatter(s: Client, id: AttemptId, a: seq<ServerMessage>, b: seq<ServerMessage>)
    requires Inv(s) && AtRest(s)
    ensures Step(s, Data(id, a + b, false)) == Step(Step(s, Data(id, a, false)), Data(id, b, false))
  {
    hide Inv, OnMessages, FailAndClose;
    if IsCurrent(s, id) {
      if s.lifecycle.Connecting? && s.lifecycle.channel.None? {
        FailAndCloseKeeps(s);
      } else {
        MessagesSplit(s, a, b);
        MessagesStay(s, a);
        NoMessages(OnMessages(s, a), b);
      }
    }
  }

  // ----- attempts and transports -----

  /** What becomes of an attempt while no connection is in use; one that is left is rejected. */
  lemma AttemptExactly(s: Client, e: Event)
    requires Inv(s) && !s.lifecycle.Connected? && !e.Data?
    ensures var after := Step(s, e);
            && (after.lifecycle.Connecting? && s.lifecycle.Disconnected? ==>
                  after.attempts == s.attempts + [Attempt(NEW_PROMISE, true)])
            && (after.lifecycle.Disconnected? && s.lifecycle.Connecting? ==>
                  s.lifecycle.id < |after.attempts| && after.attempts[s.lifecycle.id].handshake == Promise(Rejected, 1))
    ensures Step(s, e).lifecycle ==
            match s.lifecycle
            case Disconnected => if e.Connect? then Connecting(|s.attempts|, None) else Disconnected
            case Connecting(id, channel) =>
              if e == FactoryResolves(id) && s.attempts[id].opening then Connecting(id, Some(|s.transports|))
              else if (e == FactoryRejects(id) && s.attempts[id].opening) || e == HelloSendFails(id) || e == Closed(id)
                      || e == TransportError(id) || e == Disconnect || (channel.Some? && e == SendFails(channel.value))
              then Disconnected
              else s.lifecycle
  {
    hide RequestsOk, TransportsOk;
  }

  /** The transport in use is closed when its attempt is left, and no other is touched. */
  ghost predicate ClosesItsOwn(before: Client, after: Client) {
    && (after.lifecycle.Disconnected? || TransportOf(after.lifecycle) == TransportOf(before.lifecycle))
    && |after.transports| == |before.transports|
    && forall t | 0 <= t < |before.transports| ::
         after.transports[t] == if after.lifecycle.Disconnected? && TransportOf(before.lifecycle) == Some(t)
                                then before.transports[t].(closed := true) else before.transports[t]
  }

  lemma StaysOpen(s: Client)
    ensures ClosesItsOwn(s, s)
  {}

  lemma RequestCloses(s: Client, ask: Ask)
    requires Inv(s)
    ensures ClosesItsOwn(s, DoRequest(s, ask))
  {
    hide AttemptsOk, RequestsOk;
  }

  lemma ClosesOnce(s: Client, t: Client, u: Client)
    requires ClosesItsOwn(s, t) && ClosesItsOwn(t, u) && (t.lifecycle.Disconnected? ==> u.lifecycle.Disconnected?)
    ensures ClosesItsOwn(s, u)
  {}

  lemma {:induction false} RequestsClose(s: Client, asked: seq<Ask>)
    requires Inv(s)
    ensures ClosesItsOwn(s, DoRequests(s, asked))
    decreases |asked|
  {
    hide Inv, DoRequest, ClosesItsOwn;
    if asked == [] {
      StaysOpen(s);
    } else {
      var next := DoRequest(s, asked[0]);
      RequestCloses(s, asked[0]);
      RequestKeeps(s, asked[0]);
      RequestsClose(next, asked[1..]);
      if next.lifecycle.Disconnected? { DisconnectedStays(next, asked[1..]); }
      ClosesOnce(s, next, DoRequests(s, asked));
    }
  }

  lemma FailCloses(s: Client)
    requires Inv(s)
    ensures ClosesItsOwn(s, FailAndClose(s))
  {
    hide AttemptsOk, RequestsOk;
  }

  lemma HelloCloses(s: Client, asked: seq<Ask>, interrupted: bool)
    requires Inv(s) && s.lifecycle.Connecting? && s.lifecycle.channel.Some?
    ensures ClosesItsOwn(s, OnMessage(s, Hello(asked, interrupted)))
  {
    hide Inv, DoRequests, FailAndClose, ClosesItsOwn;
    var told := s.(lifecycle := Connected(s.lifecycle.id, s.lifecycle.channel.value, true));
    var called := DoRequests(told, asked);
    TellKeeps(s);
    RequestsKeep(told, asked);
    RequestsClose(told, asked);
    FailCloses(called);
    HandshakeCloses(called, interrupted);
    ClosesOnce(told, called, EndHandshake(called, interrupted));
    SameTransport(s, told, EndHandshake(called, interrupted));
  }

  lemma HandshakeCloses(s: Client, interrupted: bool)
    requires ClosesItsOwn(s, FailAndClose(s))
    ensures ClosesItsOwn(s, EndHandshake(s, interrupted))
    ensures s.lifecycle.Disconnected? ==> EndHandshake(s, interrupted).lifecycle.Disconnected?
  {
    hide FailAndClose;
  }

  lemma SameTransport(s: Client, told: Client, after: Client)
    requires TransportOf(s.lifecycle) == TransportOf(told.lifecycle) && s.transports == told.transports
    requires ClosesItsOwn(told, after)
    ensures ClosesItsOwn(s, after)
  {}

  lemma MessageCloses(s: Client, message: ServerMessage)
    requires Inv(s) && AtRest(s)
    ensures ClosesItsOwn(s, OnMessage(s, message))
  {
    FailCloses(s);
    StaysOpen(s);
    hide Inv, FailAndClose, EndHandshake, DoRequests;
    match s.lifecycle
    case Connecting(id, channel) =>
      if message.Hello? && channel.Some? {
        HelloCloses(s, message.asked, message.interrupted);
      }
    case Connected(_, _, _) =>
      if message.Response? && message.id in s.pending {
        SettleRequestKeeps(s, message.id, Rejected);
        FailCloses(SettleRequest(s, message.id, Rejected));
      }
    case _ =>
  }

  lemma {:induction false} MessagesClose(s: Client, messages: seq<ServerMessage>)
    requires Inv(s) && AtRest(s)
    ensures ClosesItsOwn(s, OnMessages(s, messages))
    decreases |messages|
  {
    hide Inv, AtRest, OnMessage, ClosesItsOwn;
    if messages == [] || s.lifecycle.Disconnected? {
      StaysOpen(s);
    } else {
      var next := OnMessage(s, messages[0]);
      MessageCloses(s, messages[0]);
      MessageKeeps(s, messages[0]);
      MessagesClose(next, messages[1..]);
      NoMessages(next, messages[1..]);
      ClosesOnce(s, next, OnMessages(s, messages));
    }
  }

  /**
   Every transport that is handed over is kept if its attempt waits for it, and closed at once otherwise. The one in
   use is closed when the client leaves it, unless it has closed by itself, and nobody else's is.
   */
  lemma TransportsExactly(s: Client, e: Event)
    requires Inv(s) && AtRest(s)
    ensures var after := Step(s, e);
            var comes := e.FactoryResolves? && e.attempt < |s.attempts| && s.attempts[e.attempt].opening;
            && |after.transports| == |s.transports| + (if comes then 1 else 0)
            && (comes ==> after.transports[|s.transports|] == Transport(e.attempt, !IsCurrent(s, e.attempt), false))
            && (forall t | 0 <= t < |s.transports| ::
                  && after.transports[t].attempt == s.transports[t].attempt
                  && (after.transports[t].closed <==> (
                        s.transports[t].closed
                        || (TransportOf(s.lifecycle) == Some(t) && after.lifecycle.Disconnected? && !e.Closed?)))
                  && (after.transports[t].reported <==> (
                        s.transports[t].reported || (e.Closed? && s.transports[t].attempt == e.attempt))))
  {
    if e.Data? {
      hide AttemptsOk, RequestsOk, OnMessages;
      MessagesClose(s, e.messages);
    } else if e.Send? {
      hide AttemptsOk, RequestsOk, DoRequest;
      RequestCloses(s, e.ask);
    } else {
      hide RequestsOk, PromiseOk;
    }
  }
}
