/**
 Who may use a live session and what becomes of it, said of the state alone (packages/server/src/sessions.ts): which
 event changes a membership, an operation, a registration or a disposal, and under which condition. Each result is an
 equivalence, and none of them mentions the step that makes it true.
 */
module SessionAccess {
  import opened LiveSessions

  /** The connection has the session id on its list. */
  predicate Listed(s: State, conn: Conn, id: SessionId) {
    conn in s.connections && id in s.connections[conn].sessionIds
  }

  predicate Member(s: State, h: Handle, conn: Conn) {
    HasLive(s, h) && conn in LiveOf(s, h).connections
  }

  predicate RegisteredAs(s: State, id: SessionId, h: Handle) {
    id in s.liveSessions && s.liveSessions[id] == h
  }

  /** Neither terminal nor being disposed. */
  predicate Accepting(s: State, h: Handle) {
    HasLive(s, h) && !LiveOf(s, h).terminal && LiveOf(s, h).disposal == NotDisposing
  }

  predicate InFlight(s: State, t: TaskId, h: Handle) {
    t in s.tasks && s.tasks[t] == Operating(h)
  }

  predicate CanReceive(s: State, conn: Conn) {
    conn in s.connections && s.connections[conn].ready && !s.connections[conn].disconnected
  }

  predicate Ended(s: State, conn: Conn) {
    conn in s.connections && s.connections[conn].disconnected
  }

  predicate BeingDisposed(s: State, h: Handle) {
    HasLive(s, h) && LiveOf(s, h).disposal != NotDisposing
  }

  predicate Failing(s: State, h: Handle) {
    HasLive(s, h) && LiveOf(s, h).terminal
  }

  // ----- the events that matter -----

  /** The request of an operation on `h` by a connection that is attached to it. */
  predicate Authorized(s: State, e: Event, t: TaskId, h: Handle) {
    && e.StartOperation? && e.task == t && t !in s.tasks
    && Listed(s, e.conn, e.id) && RegisteredAs(s, e.id, h) && Accepting(s, h)
  }

  predicate Finishes(s: State, e: Event, t: TaskId, h: Handle) {
    e.FinishOperation? && e.task == t && HasLive(s, h)
  }

  /** Attaching comes to its end: the connection is still there, and the session it acquired is live. */
  predicate Attaches(s: State, e: Event, conn: Conn, h: Handle) {
    && e.AttachConnection? && e.task in s.tasks && s.tasks[e.task] == Attaching(conn, h)
    && HasLive(s, h) && CanReceive(s, conn) && !e.transportClosed
  }

  predicate AttachesTo(s: State, e: Event, conn: Conn, id: SessionId) {
    && e.AttachConnection? && e.task in s.tasks && s.tasks[e.task].Attaching?
    && Attaches(s, e, conn, s.tasks[e.task].handle) && s.entries[s.tasks[e.task].handle].id == id
  }

  predicate Detaches(s: State, e: Event, conn: Conn, id: SessionId) {
    e.Detach? && e.task !in s.tasks && e.conn == conn && e.id == id
  }

  /** The connection ends, by itself or because a session it was a member of has failed. */
  predicate Disconnects(s: State, e: Event, conn: Conn) {
    && conn in s.connections && !s.connections[conn].disconnected
    && (|| (e.Disconnect? && e.conn == conn)
        || (e.TerminateDisconnect? && e.conn == conn && e.task in s.tasks && s.tasks[e.task].Terminating?
            && conn in s.tasks[e.task].remaining))
  }

  /** `conn` leaves the session registered as `h`, which it has on its list. */
  predicate Leaves(s: State, e: Event, h: Handle, conn: Conn)
    requires HasLive(s, h)
  {
    && Listed(s, conn, s.entries[h].id) && RegisteredAs(s, s.entries[h].id, h)
    && (Detaches(s, e, conn, s.entries[h].id) || Disconnects(s, e, conn))
  }

  /** The runtime reports an error while somebody listens. */
  predicate Fails(s: State, e: Event, h: Handle) {
    && e.RuntimeError? && e.handle == h && e.task !in s.tasks
    && HasLive(s, h) && LiveOf(s, h).subscribed && !LiveOf(s, h).terminal
  }

  // ----- what changes exactly when -----

  predicate OperatorsExactly(s: State, e: Event, t: TaskId, h: Handle) {
    InFlight(Step(s, e), t, h) <==> Authorized(s, e, t, h) || (InFlight(s, t, h) && !Finishes(s, e, t, h))
  }

  predicate ListedExactly(s: State, e: Event, conn: Conn, id: SessionId) {
    Listed(Step(s, e), conn, id)
    <==> AttachesTo(s, e, conn, id)
         || (Listed(s, conn, id) && !Detaches(s, e, conn, id) && !Disconnects(s, e, conn))
  }

  /** A connection can be told things from when it is ready until it ends. */
  predicate ReceivesExactly(s: State, e: Event, conn: Conn) {
    && (conn in Step(s, e).connections <==> conn in s.connections || (e.ConnectionReady? && e.conn == conn))
    && (CanReceive(Step(s, e), conn)
        <==> (e.ConnectionReady? && e.conn == conn && conn !in s.connections)
             || (CanReceive(s, conn) && !Disconnects(s, e, conn)))
    && (Ended(Step(s, e), conn) <==> Ended(s, conn) || Disconnects(s, e, conn))
  }

  /** Handles name one live session for good; its members change only as said here. */
  predicate MembersExactly(s: State, e: Event, h: Handle, conn: Conn) {
    HasLive(s, h) ==>
      HasLive(Step(s, e), h)
      && (Member(Step(s, e), h, conn) <==> Attaches(s, e, conn, h) || (Member(s, h, conn) && !Leaves(s, e, h, conn)))
  }

  predicate FailsExactly(s: State, e: Event, h: Handle) {
    HasLive(s, h) ==>
      HasLive(Step(s, e), h) && (LiveOf(Step(s, e), h).terminal <==> LiveOf(s, h).terminal || Fails(s, e, h))
  }

  /** `h` in the set of idle runtimes that the event brings along. */
  predicate IdleAt(e: Event, h: Handle) {
    match e
    case AttachConnection(_, _, idle) => h in idle
    case Detach(_, _, _, idle) => h in idle
    case DetachBroadcast(_, _, idle) => h in idle
    case FinishOperation(_, idle) => h in idle
    case RuntimeNotice(_, idle) => h in idle
    case TerminateDisconnect(_, _, idle) => h in idle
    case TerminateFinish(_, idle) => h in idle
    case Disconnect(_, idle) => h in idle
    case _ => false
  }

  predicate AccessExactly(s: State, e: Event, t: TaskId, h: Handle, conn: Conn, id: SessionId) {
    OperatorsExactly(s, e, t, h) && ListedExactly(s, e, conn, id) && ReceivesExactly(s, e, conn)
  }

  predicate SessionExactly(s: State, e: Event, h: Handle, conn: Conn) {
    MembersExactly(s, e, h, conn) && FailsExactly(s, e, h)
  }

  /** A session is registered under its own id. */
  predicate NamesOk(s: State) {
    forall id | id in s.liveSessions :: HasLive(s, s.liveSessions[id]) && s.entries[s.liveSessions[id]].id == id
  }

  lemma InvNames(s: State)
    requires Inv(s)
    ensures NamesOk(s)
  {
    hide EntryOk, HeldOk, TaskOk, OpeningIndexOk;
    forall id | id in s.liveSessions
      ensures HasLive(s, s.liveSessions[id]) && s.entries[s.liveSessions[id]].id == id
    {
      assert LiveIndexOk(s.entries, id, s.liveSessions[id]);
    }
  }

  /** Looking at a session for disposal changes neither its members nor whether it has failed. */
  predicate OnlyLooked(s: State, s': State, k: Handle) {
    HasLive(s, k) ==>
      && HasLive(s', k) && s'.entries[k].id == s.entries[k].id
      && LiveOf(s', k).connections == LiveOf(s, k).connections && LiveOf(s', k).terminal == LiveOf(s, k).terminal
  }

  lemma MaybeDisposeLooks(s: State, h: Handle, idle: set<Handle>, k: Handle)
    requires HasLive(s, h)
    ensures OnlyLooked(s, MaybeDispose(s, h, idle), k)
  {}

  /** Events that may take a turn of the loop in `acquire`. */
  predicate OfTurn(e: Event) {
    e.Acquire? || e.DisposalObserved?
  }

  /** Events on the way from a call of `create` to a live session. */
  predicate OfOpening(e: Event) {
    e.OpeningObserved? || e.RuntimeArrived? || e.SnapshotArrived? || e.DiscardSettled?
  }

  /** Events of the use of a session by those who are attached. */
  predicate OfUse(e: Event) {
    e.AttachConnection? || e.Detach? || e.DetachBroadcast? || e.StartOperation? || e.FinishOperation?
  }

  lemma TurnOperators(s: State, e: Event, t: TaskId, h: Handle)
    requires OfTurn(e)
    ensures OperatorsExactly(s, e, t, h)
  {
    hide MaybeDispose, DropConnection, SweepEntry;
  }

  lemma OpeningOperators(s: State, e: Event, t: TaskId, h: Handle)
    requires OfOpening(e)
    ensures OperatorsExactly(s, e, t, h)
  {
    hide MaybeDispose, DropConnection, SweepEntry;
  }

  lemma UseOperators(s: State, e: Event, t: TaskId, h: Handle)
    requires OfUse(e)
    ensures OperatorsExactly(s, e, t, h)
  {
    hide MaybeDispose, DropConnection, SweepEntry;
  }

  lemma OtherOperators(s: State, e: Event, t: TaskId, h: Handle)
    requires !OfTurn(e) && !OfOpening(e) && !OfUse(e)
    ensures OperatorsExactly(s, e, t, h)
  {
    hide MaybeDispose, DropConnection, SweepEntry;
  }

  lemma TurnLists(s: State, e: Event, conn: Conn, id: SessionId)
    requires OfTurn(e)
    ensures ListedExactly(s, e, conn, id)
  {
    hide MaybeDispose, DropConnection, SweepEntry;
  }

  lemma OpeningLists(s: State, e: Event, conn: Conn, id: SessionId)
    requires OfOpening(e)
    ensures ListedExactly(s, e, conn, id)
  {
    hide MaybeDispose, DropConnection, SweepEntry;
  }

  lemma UseLists(s: State, e: Event, conn: Conn, id: SessionId)
    requires OfUse(e)
    ensures ListedExactly(s, e, conn, id)
  {
    hide MaybeDispose, DropConnection, SweepEntry;
  }

  lemma OtherLists(s: State, e: Event, conn: Conn, id: SessionId)
    requires !OfTurn(e) && !OfOpening(e) && !OfUse(e)
    ensures ListedExactly(s, e, conn, id)
  {
    hide MaybeDispose, DropConnection, SweepEntry;
  }

  lemma TurnReceivers(s: State, e: Event, conn: Conn)
    requires OfTurn(e)
    ensures ReceivesExactly(s, e, conn)
  {
    hide MaybeDispose, DropConnection, SweepEntry;
  }

  lemma OpeningReceivers(s: State, e: Event, conn: Conn)
    requires OfOpening(e)
    ensures ReceivesExactly(s, e, conn)
  {
    hide MaybeDispose, DropConnection, SweepEntry;
  }

  lemma UseReceivers(s: State, e: Event, conn: Conn)
    requires OfUse(e)
    ensures ReceivesExactly(s, e, conn)
  {
    hide MaybeDispose, DropConnection, SweepEntry;
  }

  lemma OtherReceivers(s: State, e: Event, conn: Conn)
    requires !OfTurn(e) && !OfOpening(e) && !OfUse(e)
    ensures ReceivesExactly(s, e, conn)
  {
    hide MaybeDispose, DropConnection, SweepEntry;
  }

  lemma StepAccess(s: State, e: Event, t: TaskId, h: Handle, conn: Conn, id: SessionId)
    ensures AccessExactly(s, e, t, h, conn, id)
  {
    hide Step, OperatorsExactly, ListedExactly, ReceivesExactly;
    if OfTurn(e) {
      TurnOperators(s, e, t, h);
      TurnLists(s, e, conn, id);
      TurnReceivers(s, e, conn);
    } else if OfOpening(e) {
      OpeningOperators(s, e, t, h);
      OpeningLists(s, e, conn, id);
      OpeningReceivers(s, e, conn);
    } else if OfUse(e) {
      UseOperators(s, e, t, h);
      UseLists(s, e, conn, id);
      UseReceivers(s, e, conn);
    } else {
      OtherOperators(s, e, t, h);
      OtherLists(s, e, conn, id);
      OtherReceivers(s, e, conn);
    }
  }

  lemma AttachConnectionSession(s: State, e: Event, h: Handle, conn: Conn)
    requires e.AttachConnection? && NamesOk(s)
    ensures SessionExactly(s, e, h, conn)
  {
    hide MaybeDispose;
    if e.task in s.tasks && s.tasks[e.task].Attaching? && HasLive(s, s.tasks[e.task].handle) {
      MaybeDisposeLooks(WithoutTask(s, e.task), s.tasks[e.task].handle, e.idle, h);
    }
  }

  lemma DetachSession(s: State, e: Event, h: Handle, conn: Conn)
    requires e.Detach? && NamesOk(s)
    ensures SessionExactly(s, e, h, conn)
  {
    hide MaybeDispose;
    if e.id in s.liveSessions && e.conn in s.connections && HasLive(s, s.liveSessions[e.id]) {
      var left, c := s.liveSessions[e.id], s.connections[e.conn];
      var s1 := s.(connections := s.connections[e.conn := c.(sessionIds := c.sessionIds - {e.id})]);
      var s2 := WithLive(s1, left, LiveOf(s, left).(connections := LiveOf(s, left).connections - {e.conn}));
      MaybeDisposeLooks(s2, left, e.idle, h);
    }
  }

  lemma DetachBroadcastSession(s: State, e: Event, h: Handle, conn: Conn)
    requires e.DetachBroadcast? && NamesOk(s)
    ensures SessionExactly(s, e, h, conn)
  {
    hide MaybeDispose;
    if e.task in s.tasks && s.tasks[e.task].DetachBroadcasting? && HasLive(s, s.tasks[e.task].handle) {
      MaybeDisposeLooks(WithoutTask(s, e.task), s.tasks[e.task].handle, e.idle, h);
    }
  }

  lemma FinishOperationSession(s: State, e: Event, h: Handle, conn: Conn)
    requires e.FinishOperation? && NamesOk(s)
    ensures SessionExactly(s, e, h, conn)
  {}

  lemma RuntimeNoticeSession(s: State, e: Event, h: Handle, conn: Conn)
    requires e.RuntimeNotice? && NamesOk(s)
    ensures SessionExactly(s, e, h, conn)
  {
    hide MaybeDispose;
    if HasLive(s, e.handle) {
      MaybeDisposeLooks(s, e.handle, e.idle, h);
    }
  }

  lemma TerminateFinishSession(s: State, e: Event, h: Handle, conn: Conn)
    requires e.TerminateFinish? && NamesOk(s)
    ensures SessionExactly(s, e, h, conn)
  {}

  lemma RuntimeErrorSession(s: State, e: Event, h: Handle, conn: Conn)
    requires e.RuntimeError? && NamesOk(s)
    ensures SessionExactly(s, e, h, conn)
  {}

  lemma TerminateDisconnectSession(s: State, e: Event, h: Handle, conn: Conn)
    requires e.TerminateDisconnect? && NamesOk(s)
    ensures SessionExactly(s, e, h, conn)
  {}

  lemma DisconnectSession(s: State, e: Event, h: Handle, conn: Conn)
    requires e.Disconnect? && NamesOk(s)
    ensures SessionExactly(s, e, h, conn)
  {}

  /** Events that no member and no failure comes of. */
  lemma LookedSession(s: State, e: Event, h: Handle, conn: Conn)
    requires !OfUse(e) || e.StartOperation?
    requires !e.RuntimeError? && !e.Disconnect? && !e.TerminateDisconnect? && OnlyLooked(s, Step(s, e), h)
    ensures SessionExactly(s, e, h, conn)
  {
    hide Step;
  }

  lemma TurnLooks(s: State, e: Event, h: Handle)
    requires OfTurn(e)
    ensures OnlyLooked(s, Step(s, e), h)
  {
    hide MaybeDispose, DropConnection, SweepEntry;
  }

  lemma OpeningLooks(s: State, e: Event, h: Handle)
    requires OfOpening(e)
    ensures OnlyLooked(s, Step(s, e), h)
  {
    hide MaybeDispose, DropConnection, SweepEntry, AcquireTurn;
  }

  lemma OtherLooks(s: State, e: Event, h: Handle)
    requires e.StartOperation? || e.ConnectionReady? || e.DisposalSettled? || e.RequestClose? || e.BeginDrain? || e.Sweep?
    ensures OnlyLooked(s, Step(s, e), h)
  {
    hide MaybeDispose, DropConnection, AcquireTurn;
  }

  lemma StepSession(s: State, e: Event, h: Handle, conn: Conn)
    requires NamesOk(s)
    ensures SessionExactly(s, e, h, conn)
  {
    hide Step, SessionExactly, NamesOk;
    match e
    case AttachConnection(_, _, _) => AttachConnectionSession(s, e, h, conn);
    case Detach(_, _, _, _) => DetachSession(s, e, h, conn);
    case DetachBroadcast(_, _, _) => DetachBroadcastSession(s, e, h, conn);
    case FinishOperation(_, _) => FinishOperationSession(s, e, h, conn);
    case RuntimeNotice(_, _) => RuntimeNoticeSession(s, e, h, conn);
    case RuntimeError(_, _) => RuntimeErrorSession(s, e, h, conn);
    case TerminateDisconnect(_, _, _) => TerminateDisconnectSession(s, e, h, conn);
    case TerminateFinish(_, _) => TerminateFinishSession(s, e, h, conn);
    case Disconnect(_, _) => DisconnectSession(s, e, h, conn);
    case _ =>
      hide OnlyLooked;
      if OfTurn(e) {
        TurnLooks(s, e, h);
      } else if OfOpening(e) {
        OpeningLooks(s, e, h);
      } else {
        OtherLooks(s, e, h);
      }
      LookedSession(s, e, h, conn);
  }

  // ----- how a session is opened, and who gets it -----

  /** One turn of the loop that acquires the session `id` for `conn`: at the start, or after a disposal it waited for. */
  predicate Turn(s: State, e: Event, t: TaskId, conn: Conn, id: SessionId) {
    match e
    case Acquire(task, c, i, handle) => task == t && t !in s.tasks && handle !in s.entries && c == conn && i == id
    case DisposalObserved(task, ok, handle) =>
      && task == t && t in s.tasks && s.tasks[t].WaitingDisposal? && s.tasks[t].conn == conn && s.tasks[t].id == id
      && ok && handle !in s.entries && HasLive(s, s.tasks[t].handle) && LiveOf(s, s.tasks[t].handle).disposal == Disposed
    case _ => false
  }

  /** The session is there, or the call that opens it has just returned it. */
  predicate Granted(s: State, e: Event, t: TaskId, conn: Conn, h: Handle) {
    || (HasLive(s, h) && Turn(s, e, t, conn, s.entries[h].id) && RegisteredAs(s, s.entries[h].id, h) && Accepting(s, h))
    || (e.OpeningObserved? && e.task == t && t in s.tasks && s.tasks[t].WaitingOpening? && s.tasks[t].conn == conn
        && s.tasks[t].handle == h && HasLive(s, h))
  }

  predicate GrantedExactly(s: State, e: Event, t: TaskId, conn: Conn, h: Handle) {
    t in Step(s, e).tasks && Step(s, e).tasks[t] == Attaching(conn, h)
    <==> Granted(s, e, t, conn, h)
         || (t in s.tasks && s.tasks[t] == Attaching(conn, h) && !(e.AttachConnection? && e.task == t && HasLive(s, h)))
  }

  /** A session is opened only for an id that is neither live nor being opened. */
  predicate Opens(s: State, e: Event, t: TaskId, conn: Conn, id: SessionId, h: Handle) {
    && (e.Acquire? || e.DisposalObserved?) && e.handle == h && Turn(s, e, t, conn, id)
    && id !in s.liveSessions && id !in s.openingSessions
  }

  function Asker(s: State, e: Event): Conn {
    if e.Acquire? then e.conn
    else if e.DisposalObserved? && e.task in s.tasks && s.tasks[e.task].WaitingDisposal? then s.tasks[e.task].conn
    else 0
  }

  predicate OpensExactly(s: State, e: Event, t: TaskId, conn: Conn, id: SessionId, h: Handle) {
    && (Opens(s, e, t, conn, id, h) ==>
          && h in Step(s, e).entries && Step(s, e).entries[h] == Entry(id, t, Acquiring, 0)
          && t in Step(s, e).tasks && Step(s, e).tasks[t] == WaitingOpening(conn, id, h)
          && id in Step(s, e).openingSessions && Step(s, e).openingSessions[id] == h)
    && (h in Step(s, e).entries && h !in s.entries ==>
          (e.Acquire? || e.DisposalObserved?) && Opens(s, e, e.task, Asker(s, e), Step(s, e).entries[h].id, h))
  }

  /** The first snapshot of a runtime makes its session live, unless it fails. */
  predicate Born(s: State, e: Event, h: Handle) {
    e.SnapshotArrived? && e.handle == h && e.ok && e.task !in s.tasks && h in s.entries && s.entries[h].stage == Snapshotting
  }

  predicate BornExactly(s: State, e: Event, h: Handle) {
    Born(s, e, h) ==>
      HasLive(Step(s, e), h) && LiveOf(Step(s, e), h) == Live({}, 0, true, e.earlyError, NotDisposing, false)
  }

  /** `close` sweeps once every promise it waits for is settled. */
  predicate Sweeps(s: State, e: Event) {
    e.Sweep? && s.closing.Draining? && forall h | h in s.closing.captured :: Settled(s, h)
  }

  predicate RegisteredExactly(s: State, e: Event, id: SessionId, h: Handle) {
    RegisteredAs(Step(s, e), id, h)
    <==> (Born(s, e, h) && s.entries[h].id == id)
         || (RegisteredAs(s, id, h) && !Sweeps(s, e)
             && !(e.DisposalSettled? && e.handle == h && HasLive(s, h) && LiveOf(s, h).disposal == Disposing))
  }

  /** No session is registered under the id of one that awaits its first snapshot. */
  predicate IdsFree(s: State) {
    forall h | h in s.entries && s.entries[h].stage == Snapshotting :: s.entries[h].id !in s.liveSessions
  }

  lemma InvIds(s: State)
    requires Inv(s)
    ensures IdsFree(s)
  {
    hide Inv;
    forall h | h in s.entries && s.entries[h].stage == Snapshotting
      ensures s.entries[h].id !in s.liveSessions
    {
      NotYetRegistered(s, h);
    }
  }

  predicate RegistryExactly(s: State, e: Event, h: Handle, id: SessionId) {
    BornExactly(s, e, h) && RegisteredExactly(s, e, id, h)
  }

  predicate AskingExactly(s: State, e: Event, t: TaskId, h: Handle, conn: Conn, id: SessionId) {
    GrantedExactly(s, e, t, conn, h) && OpensExactly(s, e, t, conn, id, h)
  }

  /** What one turn of the loop does for the one who asks, and that it does nothing else. */
  lemma TurnFates(s: State, t: TaskId, conn: Conn, id: SessionId, h: Handle)
    requires NamesOk(s) && h !in s.entries
    ensures var r := AcquireTurn(s, t, conn, id, h);
            && (forall k | HasLive(s, k) :: RegisteredAs(s, id, k) && Accepting(s, k) ==> r == WithTask(s, t, Attaching(conn, k)))
            && (t in r.tasks && r.tasks[t].Attaching? && (t !in s.tasks || !s.tasks[t].Attaching?) ==>
                  var k := r.tasks[t].handle;
                  r.tasks[t].conn == conn && HasLive(s, k) && RegisteredAs(s, id, k) && Accepting(s, k))
            && (id !in s.liveSessions && id !in s.openingSessions ==> r == Created(s, t, conn, id, h))
            && (id in s.liveSessions || id in s.openingSessions ==> r == s.(tasks := r.tasks))
            && (forall u | u != t :: (u in r.tasks <==> u in s.tasks) && (u in s.tasks ==> r.tasks[u] == s.tasks[u]))
  {
    hide LiveOf;
  }

  lemma AcquireAsking(s: State, e: Event, t: TaskId, h: Handle, conn: Conn, id: SessionId)
    requires e.Acquire? && NamesOk(s)
    ensures AskingExactly(s, e, t, h, conn, id)
  {
    hide AcquireTurn;
    if e.task !in s.tasks && e.handle !in s.entries {
      TurnFates(s, e.task, e.conn, e.id, e.handle);
    }
  }

  lemma DisposalObservedAsking(s: State, e: Event, t: TaskId, h: Handle, conn: Conn, id: SessionId)
    requires e.DisposalObserved? && NamesOk(s)
    ensures AskingExactly(s, e, t, h, conn, id)
  {
    hide AcquireTurn;
    if e.task in s.tasks && s.tasks[e.task].WaitingDisposal? && e.handle !in s.entries {
      TurnFates(s, e.task, s.tasks[e.task].conn, s.tasks[e.task].id, e.handle);
    }
  }

  lemma OpeningGrants(s: State, e: Event, t: TaskId, conn: Conn, h: Handle)
    requires OfOpening(e)
    ensures GrantedExactly(s, e, t, conn, h)
  {
    hide MaybeDispose, DropConnection, SweepEntry, CanOperate, AcquireTurn;
  }

  lemma OpeningCalls(s: State, e: Event, h: Handle)
    requires OfOpening(e)
    ensures h in Step(s, e).entries <==> h in s.entries
  {
    hide MaybeDispose, DropConnection, SweepEntry, CanOperate, AcquireTurn, IsClosing;
    match e
    case SnapshotArrived(_, _, _, _) => SnapshotCalls(s, e, h);
    case _ =>
  }

  lemma SnapshotCalls(s: State, e: Event, h: Handle)
    requires e.SnapshotArrived?
    ensures h in Step(s, e).entries <==> h in s.entries
  {
    hide MaybeDispose, DropConnection, SweepEntry, CanOperate, AcquireTurn, Unindexed;
  }

  lemma UseGrants(s: State, e: Event, t: TaskId, conn: Conn, h: Handle)
    requires OfUse(e)
    ensures GrantedExactly(s, e, t, conn, h)
  {
    hide MaybeDispose, DropConnection, SweepEntry, CanOperate, AcquireTurn;
  }

  lemma UseCalls(s: State, e: Event, h: Handle)
    requires OfUse(e)
    ensures h in Step(s, e).entries <==> h in s.entries
  {
    hide DisposeUnlessKept, DropConnection, SweepEntry, AcquireTurn;
  }

  lemma OtherGrants(s: State, e: Event, t: TaskId, conn: Conn, h: Handle)
    requires !OfTurn(e) && !OfOpening(e) && !OfUse(e)
    ensures GrantedExactly(s, e, t, conn, h)
  {
    hide MaybeDispose, DropConnection, SweepEntry, CanOperate, AcquireTurn;
  }

  lemma OtherCalls(s: State, e: Event, h: Handle)
    requires !OfTurn(e) && !OfOpening(e) && !OfUse(e)
    ensures h in Step(s, e).entries <==> h in s.entries
  {
    hide DisposeUnlessKept, DropConnection, SweepEntry, CanOperate, AcquireTurn, LiveOf;
  }

  /** Without a turn of the loop nothing is opened. */
  lemma NothingOpens(s: State, e: Event, t: TaskId, h: Handle, conn: Conn, id: SessionId)
    requires !OfTurn(e) && (h in Step(s, e).entries <==> h in s.entries)
    ensures OpensExactly(s, e, t, conn, id, h)
  {
    hide Step;
  }

  lemma StepAsking(s: State, e: Event, t: TaskId, h: Handle, conn: Conn, id: SessionId)
    requires NamesOk(s)
    ensures AskingExactly(s, e, t, h, conn, id)
  {
    hide Step, GrantedExactly, OpensExactly, NamesOk;
    if e.Acquire? {
      AcquireAsking(s, e, t, h, conn, id);
    } else if e.DisposalObserved? {
      DisposalObservedAsking(s, e, t, h, conn, id);
    } else {
      if OfOpening(e) {
        OpeningGrants(s, e, t, conn, h);
        OpeningCalls(s, e, h);
      } else if OfUse(e) {
        UseGrants(s, e, t, conn, h);
        UseCalls(s, e, h);
      } else {
        OtherGrants(s, e, t, conn, h);
        OtherCalls(s, e, h);
      }
      NothingOpens(s, e, t, h, conn, id);
    }
  }

  lemma Births(s: State, e: Event, h: Handle)
    ensures BornExactly(s, e, h)
  {
    hide MaybeDispose, DropConnection, SweepEntry, AcquireTurn;
  }

  lemma TurnRegistry(s: State, e: Event, id: SessionId, h: Handle)
    requires OfTurn(e) && NamesOk(s) && IdsFree(s)
    ensures RegisteredExactly(s, e, id, h)
  {
    hide MaybeDispose, DropConnection, SweepEntry;
  }

  lemma OpeningRegistry(s: State, e: Event, id: SessionId, h: Handle)
    requires OfOpening(e) && NamesOk(s) && IdsFree(s)
    ensures RegisteredExactly(s, e, id, h)
  {
    hide MaybeDispose, DropConnection, SweepEntry;
  }

  lemma UseRegistry(s: State, e: Event, id: SessionId, h: Handle)
    requires OfUse(e) && NamesOk(s) && IdsFree(s)
    ensures RegisteredExactly(s, e, id, h)
  {
    hide MaybeDispose, DropConnection, SweepEntry;
  }

  lemma OtherRegistry(s: State, e: Event, id: SessionId, h: Handle)
    requires !OfTurn(e) && !OfOpening(e) && !OfUse(e) && NamesOk(s) && IdsFree(s)
    ensures RegisteredExactly(s, e, id, h)
  {
    hide MaybeDispose, DropConnection, SweepEntry;
  }

  lemma StepRegistry(s: State, e: Event, h: Handle, id: SessionId)
    requires NamesOk(s) && IdsFree(s)
    ensures RegistryExactly(s, e, h, id)
  {
    hide Step, BornExactly, RegisteredExactly, NamesOk, IdsFree;
    Births(s, e, h);
    if OfTurn(e) {
      TurnRegistry(s, e, id, h);
    } else if OfOpening(e) {
      OpeningRegistry(s, e, id, h);
    } else if OfUse(e) {
      UseRegistry(s, e, id, h);
    } else {
      OtherRegistry(s, e, id, h);
    }
  }

  // ----- a failed session sends everybody away -----

  /** The activity `t` will still disconnect `conn`. */
  predicate WillEnd(s: State, t: TaskId, h: Handle, conn: Conn) {
    t in s.tasks && s.tasks[t].Terminating? && s.tasks[t].handle == h && conn in s.tasks[t].remaining
  }

  /** An error of the runtime makes a list of everybody attached, and of nobody else. */
  lemma FailureListsMembers(s: State, e: Event, h: Handle, conn: Conn)
    requires Fails(s, e, h)
    ensures WillEnd(Step(s, e), e.task, h, conn) <==> Member(s, h, conn)
    ensures Step(s, e).connections == s.connections
  {}

  lemma ListedToGo(s: State, e: Event, t: TaskId, h: Handle, conn: Conn)
    requires conn in s.connections && WillEnd(s, t, h, conn)
    ensures WillEnd(Step(s, e), t, h, conn) || Ended(Step(s, e), conn)
  {
    hide MaybeDispose, DropConnection, SweepEntry, AcquireTurn, LiveOf, Created;
    if e.Acquire? || e.DisposalObserved? {
      TurnKeepsLists(s, e, t, h, conn);
    }
  }

  /** Who is on the list stays there until disconnected. */
  lemma ListIsWorkedOff(s: State, e: Event, t: TaskId, h: Handle, conn: Conn)
    requires conn in s.connections && (WillEnd(s, t, h, conn) || Ended(s, conn))
    ensures conn in Step(s, e).connections && (WillEnd(Step(s, e), t, h, conn) || Ended(Step(s, e), conn))
  {
    hide Step, WillEnd, Ended;
    StepAccess(s, e, t, h, conn, "");
    if !Ended(s, conn) { ListedToGo(s, e, t, h, conn); }
  }

  lemma TurnKeepsLists(s: State, e: Event, t: TaskId, h: Handle, conn: Conn)
    requires e.Acquire? || e.DisposalObserved?
    ensures Step(s, e).connections == s.connections && (WillEnd(s, t, h, conn) ==> WillEnd(Step(s, e), t, h, conn))
  {
    hide MaybeDispose, DropConnection, SweepEntry, LiveOf;
  }

  /** Each turn of the list disconnects its connection and takes it off. */
  lemma ListShrinks(s: State, t: TaskId, h: Handle, conn: Conn, idle: set<Handle>)
    requires conn in s.connections && WillEnd(s, t, h, conn)
    ensures var r := Step(s, TerminateDisconnect(t, conn, idle));
            && Ended(r, conn) && t in r.tasks && r.tasks[t] == Terminating(h, s.tasks[t].remaining - {conn})
  {
    hide DropConnection;
  }

  lemma {:induction false} RunWorksOff(s: State, events: seq<Event>, t: TaskId, h: Handle, conn: Conn)
    requires conn in s.connections && (WillEnd(s, t, h, conn) || Ended(s, conn))
    ensures WillEnd(Run(s, events), t, h, conn) || Ended(Run(s, events), conn)
    decreases |events|
  {
    hide Step, WillEnd, Ended;
    if events != [] {
      ListIsWorkedOff(s, events[0], t, h, conn);
      RunWorksOff(Step(s, events[0]), events[1..], t, h, conn);
    }
  }

  /** After an error, whatever happens, everybody who was attached is disconnected or still on the list of those to go. */
  lemma EverybodyIsSentAway(s: State, e: Event, events: seq<Event>, h: Handle, conn: Conn)
    requires Fails(s, e, h) && Member(s, h, conn) && conn in s.connections
    ensures var r := Run(Step(s, e), events); WillEnd(r, e.task, h, conn) || Ended(r, conn)
  {
    FailureListsMembers(s, e, h, conn);
    hide Step;
    RunWorksOff(Step(s, e), events, e.task, h, conn);
  }

  // ----- over whole runs -----

  /** In every run an operation in flight was asked for by a connection attached to its session. */
  lemma {:induction false} OperatorsAreAttached(s: State, events: seq<Event>, t: TaskId, h: Handle)
    requires InFlight(Run(s, events), t, h) && !InFlight(s, t, h)
    ensures exists n: nat :: n < |events| && Authorized(Run(s, events[..n]), events[n], t, h)
    decreases |events|
  {
    hide Step, InFlight, Authorized, Finishes;
    if events != [] {
      var next := Step(s, events[0]);
      StepAccess(s, events[0], t, h, 0, "");
      if InFlight(next, t, h) {
        assert Run(s, events[..0]) == s;
      } else {
        OperatorsAreAttached(next, events[1..], t, h);
        var n: nat :| n < |events[1..]| && Authorized(Run(next, events[1..][..n]), events[1..][n], t, h);
        RunShift(s, events, n);
        assert events[n + 1] == events[1..][n];
      }
    }
  }

  lemma RunShift(s: State, events: seq<Event>, n: nat)
    requires n < |events|
    ensures Run(s, events[..n + 1]) == Run(Step(s, events[0]), events[1..][..n])
  {
    hide Step;
    assert events[..n + 1][1..] == events[1..][..n];
  }

  /** In every run a connection that lists a session has attached to it. */
  lemma {:induction false} ListedByAttaching(s: State, events: seq<Event>, conn: Conn, id: SessionId)
    requires Listed(Run(s, events), conn, id) && !Listed(s, conn, id)
    ensures exists n: nat :: n < |events| && AttachesTo(Run(s, events[..n]), events[n], conn, id)
    decreases |events|
  {
    hide Step, Listed, AttachesTo, Detaches, Disconnects;
    if events != [] {
      var next := Step(s, events[0]);
      StepAccess(s, events[0], 0, 0, conn, id);
      if Listed(next, conn, id) {
        assert Run(s, events[..0]) == s;
      } else {
        ListedByAttaching(next, events[1..], conn, id);
        var n: nat :| n < |events[1..]| && AttachesTo(Run(next, events[1..][..n]), events[1..][n], conn, id);
        RunShift(s, events, n);
        assert events[n + 1] == events[1..][n];
      }
    }
  }

  /** What holds at every step of every run. */
  lemma RunsAreExact(events: seq<Event>, e: Event, t: TaskId, h: Handle, conn: Conn, id: SessionId)
    ensures var s := Run(Init, events);
            && AccessExactly(s, e, t, h, conn, id) && SessionExactly(s, e, h, conn)
            && AskingExactly(s, e, t, h, conn, id) && RegistryExactly(s, e, h, id)
  {
    hide Inv, Step, AccessExactly, SessionExactly, AskingExactly, RegistryExactly, NamesOk, IdsFree;
    var s := Run(Init, events);
    InitInv();
    RunInv(Init, events);
    InvNames(s);
    InvIds(s);
    StepAccess(s, e, t, h, conn, id);
    StepSession(s, e, h, conn);
    StepAsking(s, e, t, h, conn, id);
    StepRegistry(s, e, h, id);
  }

  /** An operation in flight in any run was asked for by a connection that had attached to its session before. */
  lemma OperationsAreAuthorized(events: seq<Event>, t: TaskId, h: Handle)
    requires InFlight(Run(Init, events), t, h)
    ensures exists n: nat, m: nat ::
              m < n < |events| && Authorized(Run(Init, events[..n]), events[n], t, h)
              && AttachesTo(Run(Init, events[..m]), events[m], events[n].conn, events[n].id)
  {
    hide Run, Step;
    StartsEmpty(t, h);
    OperatorsAreAttached(Init, events, t, h);
    var n: nat :| n < |events| && Authorized(Run(Init, events[..n]), events[n], t, h);
    var before := events[..n];
    ListedByAttaching(Init, before, events[n].conn, events[n].id);
    var m: nat :| m < |before| && AttachesTo(Run(Init, before[..m]), before[m], events[n].conn, events[n].id);
    assert before[..m] == events[..m] && before[m] == events[m];
  }

  lemma StartsEmpty(t: TaskId, h: Handle)
    ensures !InFlight(Init, t, h)
  {}
}
