/**
 The class `LiveSessionManager` (packages/server/src/sessions.ts): its two maps, the live sessions they lead to, and
 what its asynchronous methods share.  Live sessions are objects whose fields the methods update in place.  One method
 per await-free stretch; each is proved to take exactly the step that module LiveSessions names, so every theorem there
 is a theorem about this class.
 */
module LiveSessionManagers {
  import opened LiveSessions
  import Access = SessionAccess

  /** Where a call of `create` has got to. */
  datatype Progress = AwaitsRuntime | AwaitsSnapshot | AwaitsDiscard | Threw(acquired: bool) | Returned

  /** A call of `create` with the live session it makes; the fields from `connections` on are that session's. */
  class LiveSession {
    const id: SessionId
    const opener: TaskId
    var progress: Progress
    var disposeCalls: nat
    var connections: set<Conn>
    var operationCount: int
    var subscribed: bool
    var terminal: bool
    var disposal: Disposal
    var seenBusy: bool

    function Record(): Live
      reads this
    {
      Live(connections, operationCount, subscribed, terminal, disposal, seenBusy)
    }

    function View(): (e: Entry)
      reads this
      ensures e.stage.Opened? <==> progress == Returned
      ensures progress == Returned ==> e == Entry(id, opener, Opened(Record()), disposeCalls)
    {
      Entry(id, opener,
            match progress {
              case AwaitsRuntime => Acquiring
              case AwaitsSnapshot => Snapshotting
              case AwaitsDiscard => Discarding
              case Threw(acquired) => Failed(acquired)
              case Returned => Opened(Record())
            },
            disposeCalls)
    }

    constructor (id: SessionId, opener: TaskId)
      ensures View() == Entry(id, opener, Acquiring, 0)
    {
      this.id, this.opener, progress, disposeCalls := id, opener, AwaitsRuntime, 0;
      connections, operationCount, subscribed, terminal := {}, 0, false, false;
      disposal, seenBusy := NotDisposing, false;
    }

    method AwaitSnapshot()
      modifies this`progress
      ensures View() == old(View()).(stage := Snapshotting)
    {
      progress := AwaitsSnapshot;
    }

    method Throw(acquired: bool)
      modifies this`progress
      ensures View() == old(View()).(stage := Failed(acquired))
    {
      progress := Threw(acquired);
    }

    /** An error path of `create` that disposes the runtime. */
    method Discard()
      modifies this`progress, this`disposeCalls
      ensures View() == old(View()).(stage := Discarding, disposeCalls := old(disposeCalls) + 1)
    {
      progress, disposeCalls := AwaitsDiscard, disposeCalls + 1;
    }

    /** The live session exists; `early` says that its runtime has reported an error already. */
    method Return(early: bool)
      modifies this
      ensures View() == old(View()).(stage := Opened(Live({}, 0, true, early, NotDisposing, false)))
    {
      progress := Returned;
      connections, operationCount, subscribed, terminal := {}, 0, true, early;
      disposal, seenBusy := NotDisposing, false;
    }

    method AddConnection(conn: Conn)
      modifies this`connections
      ensures progress == Returned ==>
                View() == old(View()).(stage := Opened(old(Record()).(connections := old(connections) + {conn})))
    {
      connections := connections + {conn};
    }

    method RemoveConnection(conn: Conn)
      modifies this`connections
      ensures progress == Returned ==>
                View() == old(View()).(stage := Opened(old(Record()).(connections := old(connections) - {conn})))
    {
      connections := connections - {conn};
    }

    method CountOperation(change: int)
      modifies this`operationCount
      ensures progress == Returned ==>
                View() == old(View()).(stage := Opened(old(Record()).(operationCount := old(operationCount) + change)))
    {
      operationCount := operationCount + change;
    }

    /** The runtime has failed: no more operations, and its events are no longer wanted. */
    method MarkTerminal()
      modifies this`terminal, this`subscribed
      ensures progress == Returned ==>
                View() == old(View()).(stage := Opened(old(Record()).(terminal := true, subscribed := false)))
    {
      terminal, subscribed := true, false;
    }

    method EndDisposal()
      modifies this`disposal
      ensures progress == Returned ==>
                View() == old(View()).(stage := Opened(old(Record()).(disposal := Disposed)))
    {
      disposal := Disposed;
    }

    /** `close` disposes the runtime without asking anybody. */
    method DisposeByServer()
      modifies this`subscribed, this`disposeCalls
      ensures progress == Returned ==>
                View() == old(View()).(stage := Opened(old(Record()).(subscribed := false)),
                                       disposeCalls := old(disposeCalls) + 1)
    {
      subscribed := false;
      disposeCalls := disposeCalls + 1;
    }

    /** The private method `maybeDispose` of the manager, up to its await. */
    method MaybeDispose(closing: bool, idle: bool)
      requires progress == Returned
      modifies this`seenBusy, this`subscribed, this`disposal, this`disposeCalls
      ensures View() == DisposeUnlessKept(closing, old(View()), idle)
    {
      seenBusy := !idle;
      if closing || disposal != NotDisposing || connections != {} || operationCount > 0 || (!terminal && !idle) {
        return;
      }
      subscribed := false;
      disposal := Disposing;
      disposeCalls := disposeCalls + 1;
    }
  }

  /** Events of a request to attach or detach. */
  predicate OfRequest(e: Event) {
    e.Acquire? || e.OpeningObserved? || e.DisposalObserved? || e.AttachConnection? || e.Detach?
  }

  /** All sessions but those of `todo` have been swept. */
  ghost predicate SweptSoFar(s: State, entries: map<Handle, Entry>, todo: set<Handle>) {
    && todo <= s.entries.Keys && entries.Keys == s.entries.Keys
    && forall h | h in s.entries :: entries[h] == if h in todo then s.entries[h] else SweepEntry(s, h)
  }

  lemma AllSwept(s: State, entries: map<Handle, Entry>)
    requires SweptSoFar(s, entries, {})
    requires s.closing.Draining? && forall h | h in s.closing.captured :: Settled(s, h)
    ensures s.(entries := entries, liveSessions := map[], closing := Swept) == SweepStep(s)
  {
    hide SweepEntry, Settled;
    assert entries == SweepStep(s).entries;
  }

  lemma NotYetSwept(s: State)
    ensures !(s.closing.Draining? && forall h | h in s.closing.captured :: Settled(s, h)) ==> SweepStep(s) == s
  {}

  lemma SweptOne(s: State, entries: map<Handle, Entry>, todo: set<Handle>, h: Handle)
    requires SweptSoFar(s, entries, todo) && h in todo
    ensures h in s.entries && h in entries && entries[h] == s.entries[h]
    ensures SweptSoFar(s, entries[h := SweepEntry(s, h)], todo - {h})
  {
    hide SweepEntry;
  }

  lemma EachUnswept(s: State)
    ensures SweptSoFar(s, s.entries, s.entries.Keys)
  {
    hide SweepEntry;
  }

  /** An entry without the connection that is going away. */
  function Left(e: Entry, conn: Conn): (r: Entry) {
    if e.stage.Opened? then e.(stage := Opened(e.stage.live.(connections := e.stage.live.connections - {conn}))) else e
  }

  /** The sessions that a connection attached to `ids` is a member of. */
  ghost function MembersOf(s: State, ids: set<SessionId>): set<Handle> {
    set h | h in s.entries && s.entries[h].stage.Opened? && s.entries[h].id in ids
            && s.entries[h].id in s.liveSessions && s.liveSessions[s.entries[h].id] == h
  }

  lemma IsMembers(s: State, ids: set<SessionId>, members: set<Handle>)
    requires forall h | h in s.entries ::
               h in members <==> s.entries[h].stage.Opened? && s.entries[h].id in ids
                                 && s.entries[h].id in s.liveSessions && s.liveSessions[s.entries[h].id] == h
    requires members <= s.entries.Keys
    ensures members == MembersOf(s, ids)
  {}

  lemma NobodyToDisconnect(s: State, conn: Conn, idle: set<Handle>)
    ensures conn !in s.connections || s.connections[conn].disconnected ==> DisconnectStep(s, conn, idle) == s
  {}

  /** Both loops of `disconnect` have gone through `done`. */
  ghost predicate Gone(before: map<Handle, Entry>, after: map<Handle, Entry>, closing: bool, members: set<Handle>,
                       conn: Conn, idle: set<Handle>)
  {
    && after.Keys == before.Keys && members <= before.Keys
    && forall h | h in before ::
         if h in members
         then before[h].stage.Opened? && after[h] == DisposeUnlessKept(closing, Left(before[h], conn), h in idle)
         else after[h] == before[h]
  }

  lemma AllGone(s: State, entries: map<Handle, Entry>, conn: Conn, idle: set<Handle>)
    requires conn in s.connections && !s.connections[conn].disconnected
    requires Gone(s.entries, entries, IsClosing(s), MembersOf(s, s.connections[conn].sessionIds), conn, idle)
    ensures s.(entries := entries, connections := s.connections[conn := Connection(false, true, {})])
            == DisconnectStep(s, conn, idle)
  {
    hide DisposeUnlessKept;
    assert entries == DisconnectStep(s, conn, idle).entries;
  }

  class LiveSessionManager {
    /** Every call of `create`, and so every live session. */
    var calls: map<Handle, LiveSession>
    var liveSessions: map<SessionId, Handle>
    var openingSessions: map<SessionId, Handle>
    var connections: map<Conn, Connection>
    var tasks: map<TaskId, Task>
    var closing: Closing

    /** Different calls have different objects. */
    ghost predicate Valid()
      reads this`calls
    {
      forall h, k | h in calls && k in calls && h != k :: calls[h] != calls[k]
    }

    ghost function Objects(): (objects: set<object>)
      reads this`calls
      ensures this !in objects
    {
      set h | h in calls :: calls[h] as object
    }

    ghost function Entries(): (entries: map<Handle, Entry>)
      reads this`calls, Objects()
      ensures entries.Keys == calls.Keys
    {
      map h | h in calls :: calls[h].View()
    }

    ghost function View(): State
      reads this, Objects()
    {
      State(Entries(), liveSessions, openingSessions, connections, tasks, closing)
    }

    constructor ()
      ensures Valid() && View() == Init
    {
      calls, liveSessions, openingSessions := map[], map[], map[];
      connections, tasks, closing := map[], map[], Open;
    }

    predicate IsLive(h: Handle)
      reads this, Objects()
      ensures IsLive(h) <==> HasLive(View(), h)
    {
      h in calls && calls[h].progress == Returned
    }

    lemma EntryIs(h: Handle)
      requires h in calls
      ensures Entries()[h] == calls[h].View()
    {}

    /** What the object of a call is in the state. */
    lemma SeenAs(h: Handle)
      requires h in calls
      ensures h in View().entries && View().entries[h].id == calls[h].id && View().entries[h].opener == calls[h].opener
      ensures View().entries[h].stage.Opened? <==> calls[h].progress == Returned
      ensures View().entries[h].stage.Failed? <==> calls[h].progress.Threw?
      ensures View().entries[h].stage == Acquiring <==> calls[h].progress == AwaitsRuntime
      ensures View().entries[h].stage == Snapshotting <==> calls[h].progress == AwaitsSnapshot
      ensures View().entries[h].stage == Discarding <==> calls[h].progress == AwaitsDiscard
      ensures calls[h].progress == Returned ==> View().entries[h].stage.live == calls[h].Record()
    {}

    /** `maybeDispose`. */
    method MaybeDisposeLive(h: Handle, idle: set<Handle>)
      requires Valid() && IsLive(h)
      modifies calls[h]
      ensures Valid() && View() == MaybeDispose(old(View()), h, idle)
    {
      hide DisposeUnlessKept;
      calls[h].MaybeDispose(closing != Open, h in idle);
      assert Entries() == old(Entries())[h := calls[h].View()];
    }

    /** The loop body of `acquire`, with the part of `create` that runs before its first await. */
    method AcquireSession(t: TaskId, conn: Conn, id: SessionId, h: Handle)
      requires Valid() && h !in calls
      modifies this
      ensures Valid() && View() == AcquireTurn(old(View()), t, conn, id, h) && fresh(Objects() - old(Objects()))
    {
      hide LiveSession.View;
      if id in liveSessions && IsLive(liveSessions[id]) {
        SeenAs(liveSessions[id]);
        var existing := calls[liveSessions[id]];
        if existing.terminal {
          tasks := tasks - {t};
        } else if existing.disposal != NotDisposing {
          tasks := tasks[t := WaitingDisposal(conn, id, liveSessions[id])];
        } else {
          tasks := tasks[t := Attaching(conn, liveSessions[id])];
        }
        return;
      }
      if id in openingSessions {
        tasks := tasks[t := WaitingOpening(conn, id, openingSessions[id])];
        return;
      }
      Create(t, conn, id, h);
    }

    method Create(t: TaskId, conn: Conn, id: SessionId, h: Handle)
      requires Valid() && h !in calls
      modifies this`calls, this`openingSessions, this`tasks
      ensures Valid() && View() == Created(old(View()), t, conn, id, h) && fresh(Objects() - old(Objects()))
    {
      var call := new LiveSession(id, t);
      calls := calls[h := call];
      openingSessions := openingSessions[id := h];
      tasks := tasks[t := WaitingOpening(conn, id, h)];
      assert Entries() == old(Entries())[h := call.View()];
    }

    /** `create`, from the backend's answer to its next await. */
    method CreateWithRuntime(h: Handle, ok: bool)
      requires Valid()
      modifies Objects()
      ensures Valid() && View() == RuntimeArrivedStep(old(View()), h, ok)
    {
      hide LiveSessionManager.Entries, LiveSession.View;
      if h !in calls { return; }
      SeenAs(h);
      if calls[h].progress != AwaitsRuntime { return; }
      if !ok {
        Fail(h, false);
      } else if closing != Open {
        DiscardCall(h);
      } else {
        Snapshot(h);
      }
    }

    /** `create`, from the first snapshot to its return. */
    method CreateWithSnapshot(h: Handle, ok: bool, earlyError: bool, t: TaskId)
      requires Valid()
      modifies this`liveSessions, this`tasks, Objects()
      ensures Valid() && View() == SnapshotArrivedStep(old(View()), h, ok, earlyError, t)
    {
      hide LiveSessionManager.Entries, LiveSession.View;
      if h !in calls { return; }
      SeenAs(h);
      if calls[h].progress != AwaitsSnapshot || t in tasks { return; }
      if !ok {
        DiscardCall(h);
        return;
      }
      hide Registered;
      Register(h, earlyError);
      if earlyError { tasks := tasks[t := Terminating(h, {})]; }
    }

    method Register(h: Handle, earlyError: bool)
      requires Valid() && h in calls
      modifies this`liveSessions, calls[h]
      ensures Valid() && View() == Registered(old(View()), h, earlyError)
    {
      calls[h].Return(earlyError);
      assert Entries() == old(Entries())[h := calls[h].View()];
      liveSessions := liveSessions[calls[h].id := h];
    }

    method Fail(h: Handle, acquired: bool)
      requires Valid() && h in calls
      modifies calls[h]
      ensures Valid() && View() == WithStage(old(View()), h, Failed(acquired))
    {
      calls[h].Throw(acquired);
      assert Entries() == old(Entries())[h := calls[h].View()];
    }

    method Snapshot(h: Handle)
      requires Valid() && h in calls
      modifies calls[h]
      ensures Valid() && View() == WithStage(old(View()), h, Snapshotting)
    {
      calls[h].AwaitSnapshot();
      assert Entries() == old(Entries())[h := calls[h].View()];
    }

    method DiscardCall(h: Handle)
      requires Valid() && h in calls
      modifies calls[h]
      ensures Valid() && View() == LiveSessions.Discard(old(View()), h)
    {
      calls[h].Discard();
      assert Entries() == old(Entries())[h := calls[h].View()];
    }

    method Count(h: Handle, change: int)
      requires Valid() && IsLive(h)
      modifies calls[h]
      ensures Valid() && IsLive(h)
      ensures var live := LiveOf(old(View()), h);
              View() == WithLive(old(View()), h, live.(operationCount := live.operationCount + change))
    {
      calls[h].CountOperation(change);
      assert Entries() == old(Entries())[h := calls[h].View()];
    }

    method Join(h: Handle, conn: Conn)
      requires Valid() && IsLive(h)
      modifies calls[h]
      ensures Valid() && IsLive(h)
      ensures var live := LiveOf(old(View()), h);
              View() == WithLive(old(View()), h, live.(connections := live.connections + {conn}))
    {
      calls[h].AddConnection(conn);
      assert Entries() == old(Entries())[h := calls[h].View()];
    }

    /** A live session loses a member. */
    method Leave(h: Handle, conn: Conn)
      requires Valid() && IsLive(h)
      modifies calls[h]
      ensures Valid() && IsLive(h)
      ensures var live := LiveOf(old(View()), h);
              View() == WithLive(old(View()), h, live.(connections := live.connections - {conn}))
    {
      calls[h].RemoveConnection(conn);
      assert Entries() == old(Entries())[h := calls[h].View()];
    }

    /** The `finally` of `acquire`: the opener drops its settled promise from the index. */
    method Unindex(t: TaskId)
      requires Valid() && t in tasks && tasks[t].WaitingOpening? && tasks[t].handle in calls
      modifies this`openingSessions
      ensures Valid() && View() == Unindexed(old(View()), t)
    {
      var task := tasks[t];
      EntryIs(task.handle);
      if calls[task.handle].opener == t && task.id in openingSessions && openingSessions[task.id] == task.handle {
        openingSessions := openingSessions - {task.id};
      }
    }

    /** `acquire`, after `await pending` or after another call's promise. */
    method ObserveOpening(t: TaskId)
      requires Valid()
      modifies this`openingSessions, this`tasks
      ensures Valid() && View() == OpeningObservedStep(old(View()), t)
    {
      hide Unindexed, LiveSession.View;
      if t !in tasks || !tasks[t].WaitingOpening? || tasks[t].handle !in calls { return; }
      var task := tasks[t];
      SeenAs(task.handle);
      var progress := calls[task.handle].progress;
      if progress != Returned && !progress.Threw? { return; }
      Unindex(t);
      if progress == Returned {
        tasks := tasks[t := Attaching(task.conn, task.handle)];
      } else {
        tasks := tasks - {t};
      }
    }

    /** `attach`. */
    method Attach(t: TaskId, transportClosed: bool, idle: set<Handle>)
      requires Valid()
      modifies this`tasks, this`connections, Objects()
      ensures Valid() && View() == AttachStep(old(View()), t, transportClosed, idle)
    {
      hide MaybeDispose, LiveSessionManager.Entries, LiveSession.View;
      if t !in tasks || !tasks[t].Attaching? || !IsLive(tasks[t].handle) { return; }
      var conn, h := tasks[t].conn, tasks[t].handle;
      tasks := tasks - {t};
      if conn !in connections || !connections[conn].ready || connections[conn].disconnected || transportClosed {
        MaybeDisposeLive(h, idle);
        return;
      }
      var c := connections[conn];
      connections := connections[conn := c.(sessionIds := c.sessionIds + {calls[h].id})];
      SeenAs(h);
      Join(h, conn);
    }

    /** The command "detach", up to its first await. */
    method DetachConnection(t: TaskId, conn: Conn, id: SessionId, idle: set<Handle>)
      requires Valid()
      modifies this`tasks, this`connections, Objects()
      ensures Valid() && View() == DetachStep(old(View()), t, conn, id, idle)
    {
      hide MaybeDispose, LiveSessionManager.Entries, LiveSession.View;
      if t in tasks || conn !in connections || id !in connections[conn].sessionIds { return; }
      var c := connections[conn];
      connections := connections[conn := c.(sessionIds := c.sessionIds - {id})];
      if id !in liveSessions || !IsLive(liveSessions[id]) { return; }
      var h := liveSessions[id];
      var live := calls[h];
      Leave(h, conn);
      SeenAs(h);
      if live.connections != {} && !live.terminal && live.disposal == NotDisposing {
        tasks := tasks[t := DetachBroadcasting(h)];
      } else {
        MaybeDisposeLive(h, idle);
      }
    }

    predicate MayOperate(conn: Conn, id: SessionId)
      reads this, Objects()
      ensures MayOperate(conn, id) <==> CanOperate(View(), conn, id)
    {
      conn in connections && id in connections[conn].sessionIds && id in liveSessions && IsLive(liveSessions[id])
      && !calls[liveSessions[id]].terminal && calls[liveSessions[id]].disposal == NotDisposing
    }

    /** `requireAttached` and the head of `runOperation`. */
    method BeginOperation(t: TaskId, conn: Conn, id: SessionId) returns (started: bool)
      requires Valid()
      modifies this`tasks, Objects()
      ensures Valid() && View() == StartOperationStep(old(View()), t, conn, id)
      ensures started <==> t !in old(tasks) && Access.Listed(old(View()), conn, id)
                           && id in old(liveSessions) && Access.Accepting(old(View()), old(liveSessions)[id])
    {
      hide LiveSessionManager.Entries, LiveSession.View;
      started := t !in tasks && MayOperate(conn, id);
      if started {
        var h := liveSessions[id];
        Count(h, 1);
        tasks := tasks[t := Operating(h)];
      }
    }

    /** The `finally` of `runOperation`. */
    method EndOperation(t: TaskId, idle: set<Handle>)
      requires Valid()
      modifies this`tasks, Objects()
      ensures Valid() && View() == FinishOperationStep(old(View()), t, idle)
    {
      hide MaybeDispose, LiveSessionManager.Entries, LiveSession.View;
      if t !in tasks || !tasks[t].Operating? || !IsLive(tasks[t].handle) { return; }
      var h := tasks[t].handle;
      tasks := tasks - {t};
      Count(h, -1);
      MaybeDisposeLive(h, idle);
    }

    method Finish(h: Handle)
      requires Valid() && IsLive(h)
      modifies calls[h]
      ensures Valid() && View() == WithLive(old(View()), h, LiveOf(old(View()), h).(terminal := true, subscribed := false))
    {
      calls[h].MarkTerminal();
      assert Entries() == old(Entries())[h := calls[h].View()];
    }

    /** `terminate`, up to its first await. */
    method Terminate(h: Handle, t: TaskId)
      requires Valid()
      modifies this`tasks, Objects()
      ensures Valid() && View() == RuntimeErrorStep(old(View()), h, t)
    {
      hide LiveSessionManager.Entries, LiveSession.View;
      if !IsLive(h) || t in tasks { return; }
      SeenAs(h);
      var live := calls[h];
      if !live.subscribed || live.terminal { return; }
      var members := live.connections;
      Finish(h);
      tasks := tasks[t := Terminating(h, members)];
    }

    /** `disconnect`: leave every session first, then look at each of them. */
    method DisconnectConnection(conn: Conn, idle: set<Handle>)
      requires Valid()
      modifies this`connections, Objects()
      ensures Valid() && View() == DisconnectStep(old(View()), conn, idle)
    {
      hide DisconnectStep, DisposeUnlessKept, Gone, MembersOf;
      NobodyToDisconnect(View(), conn, idle);
      if conn !in connections || connections[conn].disconnected { return; }
      ghost var s := View();
      var ids := connections[conn].sessionIds;
      var members := set h | h in calls && calls[h].progress == Returned && calls[h].id in ids
                             && calls[h].id in liveSessions && liveSessions[calls[h].id] == h;
      IsMembers(s, ids, members);
      connections := connections[conn := Connection(false, true, {})];
      LeaveThenDispose(members, conn, idle);
      AllGone(s, Entries(), conn, idle);
    }

    method LeaveThenDispose(members: set<Handle>, conn: Conn, idle: set<Handle>)
      requires Valid() && forall h | h in members :: h in calls && calls[h].progress == Returned
      modifies Objects()
      ensures Valid() && Gone(old(Entries()), Entries(), closing != Open, members, conn, idle)
    {
      hide DisposeUnlessKept, LiveSession.View;
      LeaveAll(members, conn);
      DisposeAll(members, idle);
    }

    method LeaveAll(members: set<Handle>, conn: Conn)
      requires Valid() && forall h | h in members :: h in calls && calls[h].progress == Returned
      modifies Objects()
      ensures Valid() && forall h | h in members :: h in calls && calls[h].progress == Returned
      ensures forall h | h in calls ::
                calls[h].View() == if h in members then Left(old(calls[h].View()), conn) else old(calls[h].View())
    {
      hide LiveSessionManager.View, LiveSessionManager.Entries;
      var todo := members;
      while todo != {}
        invariant todo <= members && forall h | h in members :: h in calls && calls[h].progress == Returned
        invariant forall h | h in calls ::
          calls[h].View() == if h in members && h !in todo then Left(old(calls[h].View()), conn) else old(calls[h].View())
        decreases |todo|
      {
        hide LiveSession.View;
        var h :| h in todo;
        calls[h].RemoveConnection(conn);
        todo := todo - {h};
      }
    }

    method DisposeAll(members: set<Handle>, idle: set<Handle>)
      requires Valid() && forall h | h in members :: h in calls && calls[h].progress == Returned
      modifies Objects()
      ensures Valid() && forall h | h in calls ::
                calls[h].View() == if h in members && old(calls[h].View()).stage.Opened?
                                   then DisposeUnlessKept(closing != Open, old(calls[h].View()), h in idle)
                                   else old(calls[h].View())
    {
      hide LiveSessionManager.View, LiveSessionManager.Entries, DisposeUnlessKept, LiveSession.View;
      var todo := members;
      while todo != {}
        invariant todo <= members && forall h | h in members :: h in calls && calls[h].progress == Returned
        invariant forall h | h in calls ::
          calls[h].View() == if h in members && h !in todo && old(calls[h].View()).stage.Opened?
                             then DisposeUnlessKept(closing != Open, old(calls[h].View()), h in idle)
                             else old(calls[h].View())
        decreases |todo|
      {
        var h :| h in todo;
        calls[h].MaybeDispose(closing != Open, h in idle);
        todo := todo - {h};
      }
    }

    method Dispose(h: Handle)
      requires Valid() && IsLive(h)
      modifies calls[h]
      ensures Valid() && View() == WithLive(old(View()), h, LiveOf(old(View()), h).(disposal := Disposed))
    {
      calls[h].EndDisposal();
      assert Entries() == old(Entries())[h := calls[h].View()];
    }

    /** The disposal promise settles: its `finally` unregisters the session. */
    method SettleDisposal(h: Handle)
      requires Valid()
      modifies this`liveSessions, Objects()
      ensures Valid() && View() == DisposalSettledStep(old(View()), h)
    {
      hide LiveSessionManager.Entries, LiveSession.View;
      if !IsLive(h) { return; }
      SeenAs(h);
      if calls[h].disposal != Disposing { return; }
      var id := calls[h].id;
      Dispose(h);
      if id in liveSessions && liveSessions[id] == h { liveSessions := liveSessions - {id}; }
    }

    /** The server is closing: nothing new is started. */
    method RequestToClose()
      requires Valid()
      modifies this`closing
      ensures Valid() && View() == Step(old(View()), RequestClose)
    {
      if closing == Open { closing := CloseRequested; }
    }

    /** The head of `close`: the promises to wait for. */
    method DrainOpenings()
      requires Valid()
      modifies this`closing
      ensures Valid() && View() == Step(old(View()), BeginDrain)
    {
      if closing == CloseRequested { closing := Draining(openingSessions.Values); }
    }

    predicate IsSettled(h: Handle)
      reads this, Objects()
      ensures IsSettled(h) <==> Settled(View(), h)
    {
      h in calls && (calls[h].progress == Returned || calls[h].progress.Threw?)
    }

    predicate AllSettled(captured: set<Handle>)
      reads this, Objects()
      ensures AllSettled(captured) <==> forall h | h in captured :: Settled(View(), h)
    {
      forall h | h in captured :: IsSettled(h)
    }

    /** The tail of `close`, once every captured promise has settled. */
    method SweepSessions()
      requires Valid()
      modifies this`liveSessions, this`closing, Objects()
      ensures Valid() && View() == SweepStep(old(View()))
    {
      hide SweepStep, SweepEntry, SweptSoFar, Settled, LiveSessionManager.AllSettled, LiveSession.View,
           LiveSessionManager.Entries;
      ghost var s := View();
      NotYetSwept(s);
      if !closing.Draining? || !AllSettled(closing.captured) { return; }
      SweepAll();
      AllSwept(s, Entries());
      liveSessions, closing := map[], Swept;
    }

    method SweepAll()
      requires Valid()
      modifies Objects()
      ensures Valid() && SweptSoFar(old(View()), Entries(), {})
    {
      hide SweepEntry, SweepStep;
      ghost var s := View();
      hide LiveSession.View, LiveSessionManager.Entries, SweptSoFar;
      EachUnswept(s);
      var todo := calls.Keys;
      while todo != {}
        invariant todo <= calls.Keys && SweptSoFar(s, Entries(), todo)
        decreases |todo|
      {
        var h :| h in todo;
        EntryIs(h);
        SweptOne(s, Entries(), todo, h);
        SweepOne(s, h);
        todo := todo - {h};
      }
    }

    /** The tail of `close` for one session; one that is being disposed already is only awaited. */
    method SweepOne(ghost s: State, h: Handle)
      requires Valid() && h in calls && h in s.entries && calls[h].View() == s.entries[h] && liveSessions == s.liveSessions
      modifies calls[h]
      ensures Valid() && Entries() == old(Entries())[h := SweepEntry(s, h)]
    {
      var live := calls[h];
      if live.progress == Returned && live.id in liveSessions && liveSessions[live.id] == h
         && live.disposal == NotDisposing {
        live.DisposeByServer();
      }
      assert live.View() == SweepEntry(s, h);
      hide SweepEntry;
      assert Entries() == old(Entries())[h := live.View()];
    }

    method SettleDiscard(h: Handle)
      requires Valid()
      modifies Objects()
      ensures Valid() && View() == Step(old(View()), DiscardSettled(h))
    {
      hide LiveSessionManager.Entries, LiveSession.View;
      if h in calls {
        SeenAs(h);
        if calls[h].progress == AwaitsDiscard { Fail(h, true); }
      }
    }

    /** An acquisition goes on after the disposal it waited for. */
    method ObserveDisposal(t: TaskId, ok: bool, h: Handle)
      requires Valid()
      modifies this
      ensures Valid() && View() == DisposalObservedStep(old(View()), t, ok, h) && fresh(Objects() - old(Objects()))
    {
      hide AcquireTurn, LiveSession.View;
      if t !in tasks || !tasks[t].WaitingDisposal? || h in calls || !IsLive(tasks[t].handle) { return; }
      SeenAs(tasks[t].handle);
      if calls[tasks[t].handle].disposal != Disposed { return; }
      if ok {
        AcquireSession(t, tasks[t].conn, tasks[t].id, h);
      } else {
        tasks := tasks - {t};
      }
    }

    /** A detach goes on after its broadcast. */
    method FinishDetach(t: TaskId, ok: bool, idle: set<Handle>)
      requires Valid()
      modifies this`tasks, Objects()
      ensures Valid() && View() == DetachBroadcastStep(old(View()), t, ok, idle)
    {
      hide MaybeDispose;
      if t in tasks && tasks[t].DetachBroadcasting? && IsLive(tasks[t].handle) {
        var h := tasks[t].handle;
        tasks := tasks - {t};
        if ok {
          MaybeDisposeLive(h, idle);
        }
      }
    }

    method HandleRuntimeNotice(h: Handle, idle: set<Handle>)
      requires Valid()
      modifies Objects()
      ensures Valid() && View() == RuntimeNoticeStep(old(View()), h, idle)
    {
      hide MaybeDispose;
      if IsLive(h) {
        SeenAs(h);
        if calls[h].subscribed { MaybeDisposeLive(h, idle); }
      }
    }

    /** A terminating session disconnects one of the connections it had. */
    method DisconnectTerminated(t: TaskId, conn: Conn, idle: set<Handle>)
      requires Valid()
      modifies this`tasks, this`connections, Objects()
      ensures Valid() && View() == TerminateDisconnectStep(old(View()), t, conn, idle)
    {
      hide DisconnectStep;
      if t in tasks && tasks[t].Terminating? && conn in tasks[t].remaining {
        tasks := tasks[t := tasks[t].(remaining := tasks[t].remaining - {conn})];
        DisconnectConnection(conn, idle);
      }
    }

    method FinishTermination(t: TaskId, idle: set<Handle>)
      requires Valid()
      modifies this`tasks, Objects()
      ensures Valid() && View() == TerminateFinishStep(old(View()), t, idle)
    {
      hide MaybeDispose;
      if t in tasks && tasks[t].Terminating? && tasks[t].remaining == {} && IsLive(tasks[t].handle) {
        var h := tasks[t].handle;
        tasks := tasks - {t};
        MaybeDisposeLive(h, idle);
      }
    }

    method AddConnection(conn: Conn)
      requires Valid()
      modifies this`connections
      ensures Valid() && View() == ConnectionReadyStep(old(View()), conn)
    {
      if conn !in connections {
        connections := connections[conn := Connection(true, false, {})];
      }
    }

    /** A request under a new task and, should it create a session, a new handle. */
    method AcquireIfFresh(t: TaskId, conn: Conn, id: SessionId, h: Handle)
      requires Valid()
      modifies this
      ensures Valid() && View() == Step(old(View()), Acquire(t, conn, id, h)) && fresh(Objects() - old(Objects()))
    {
      hide AcquireTurn;
      if t !in tasks && h !in calls { AcquireSession(t, conn, id, h); }
    }

    /** A stretch that begins or continues the work of a request. */
    method DispatchRequest(e: Event)
      requires Valid()
      modifies this, Objects()
      ensures Valid() && fresh(Objects() - old(Objects()))
      ensures OfRequest(e) ==> View() == Step(old(View()), e)
      ensures !OfRequest(e) ==> View() == old(View())
    {
      hide AcquireTurn, RuntimeArrivedStep, SnapshotArrivedStep, OpeningObservedStep, DisposalObservedStep,
           AttachStep, DetachStep, DetachBroadcastStep, StartOperationStep, FinishOperationStep,
           RuntimeNoticeStep, RuntimeErrorStep, DisconnectStep, TerminateDisconnectStep, TerminateFinishStep,
           ConnectionReadyStep, DisposalSettledStep, SweepStep, LiveSessionManager.View, LiveSessionManager.Valid;
      match e
      case Acquire(t, conn, id, h) => AcquireIfFresh(t, conn, id, h);
      case OpeningObserved(t) => ObserveOpening(t);
      case DisposalObserved(t, ok, h) => ObserveDisposal(t, ok, h);
      case AttachConnection(t, closed, idle) => Attach(t, closed, idle);
      case Detach(t, conn, id, idle) => DetachConnection(t, conn, id, idle);
      case _ =>
    }

    /** Let one scheduled stretch run. */
    method Dispatch(e: Event)
      requires Valid()
      modifies this, Objects()
      ensures Valid() && View() == Step(old(View()), e) && fresh(Objects() - old(Objects()))
    {
      hide AcquireTurn, RuntimeArrivedStep, SnapshotArrivedStep, OpeningObservedStep, DisposalObservedStep,
           AttachStep, DetachStep, DetachBroadcastStep, StartOperationStep, FinishOperationStep,
           RuntimeNoticeStep, RuntimeErrorStep, DisconnectStep, TerminateDisconnectStep, TerminateFinishStep,
           ConnectionReadyStep, DisposalSettledStep, SweepStep, LiveSessionManager.View, LiveSessionManager.Valid;
      if OfRequest(e) {
        hide Step;
        DispatchRequest(e);
        return;
      }
      match e
      case RuntimeArrived(h, ok) => CreateWithRuntime(h, ok);
      case SnapshotArrived(h, ok, early, t) => CreateWithSnapshot(h, ok, early, t);
      case DiscardSettled(h) => SettleDiscard(h);
      case DetachBroadcast(t, ok, idle) => FinishDetach(t, ok, idle);
      case StartOperation(t, conn, id) => var _ := BeginOperation(t, conn, id);
      case FinishOperation(t, idle) => EndOperation(t, idle);
      case RuntimeNotice(h, idle) => HandleRuntimeNotice(h, idle);
      case RuntimeError(h, t) => Terminate(h, t);
      case TerminateDisconnect(t, conn, idle) => DisconnectTerminated(t, conn, idle);
      case TerminateFinish(t, idle) => FinishTermination(t, idle);
      case ConnectionReady(conn) => AddConnection(conn);
      case Disconnect(conn, idle) => DisconnectConnection(conn, idle);
      case DisposalSettled(h) => SettleDisposal(h);
      case RequestClose => RequestToClose();
      case BeginDrain => DrainOpenings();
      case Sweep => SweepSessions();
      case _ =>
    }

    /** Any schedule at all. */
    method Serve(schedule: seq<Event>)
      requires Valid()
      modifies this, Objects()
      ensures Valid() && View() == Run(old(View()), schedule) && fresh(Objects() - old(Objects()))
    {
      hide Step, LiveSessionManager.View, LiveSessionManager.Valid;
      var i := 0;
      while i < |schedule|
        invariant 0 <= i <= |schedule| && Valid() && fresh(Objects() - old(Objects()))
        invariant Run(View(), schedule[i..]) == Run(old(View()), schedule)
      {
        assert schedule[i..][1..] == schedule[i + 1..];
        Dispatch(schedule[i]);
        i := i + 1;
      }
    }
  }
}
