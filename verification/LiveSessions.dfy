/**
 The live-session manager of the server (packages/server/src/sessions.ts).

 Every stretch of code between two awaits is one atomic step.  A step is named by an `Event`;
 the scheduler, the backend and the clients choose the events, so a theorem about all event
 sequences is a theorem about all interleavings.

 One call of `create` makes at most one promise, one runtime and one live session, so one
 `Handle` names all three.
 */
module LiveSessions {
  type SessionId = string
  type Handle = nat
  type Conn = nat
  type TaskId = nat

  datatype Disposal = NotDisposing | Disposing | Disposed

  /** The mutable record `LiveSession`; `seenBusy` records what `getPhase` last answered to `maybeDispose`. */
  datatype Live = Live(
    connections: set<Conn>, operationCount: int, subscribed: bool,
    terminal: bool, disposal: Disposal, seenBusy: bool)

  /** Where one call of `create` has got to. */
  datatype Stage =
    | Acquiring                 // awaiting the backend's runtime
    | Snapshotting              // runtime acquired, awaiting its first snapshot
    | Discarding                // awaiting runtime.dispose() on an error path
    | Failed(acquired: bool)    // rejected, before or after a runtime existed
    | Opened(live: Live)        // fulfilled

  /** `opener` is the activity that called `create`; `disposeCalls` counts the calls of runtime.dispose(). */
  datatype Entry = Entry(id: SessionId, opener: TaskId, stage: Stage, disposeCalls: nat)

  datatype Connection = Connection(ready: bool, disconnected: bool, sessionIds: set<SessionId>)

  /** A suspended asynchronous activity. */
  datatype Task =
    | WaitingDisposal(conn: Conn, id: SessionId, handle: Handle)
    | WaitingOpening(conn: Conn, id: SessionId, handle: Handle)
    | Attaching(conn: Conn, handle: Handle)
    | Operating(handle: Handle)
    | Terminating(handle: Handle, remaining: set<Conn>)
    | DetachBroadcasting(handle: Handle)

  /** How far `AthenaServer.close` has got; `Draining` holds the promises that `close` awaits. */
  datatype Closing = Open | CloseRequested | Draining(captured: set<Handle>) | Swept

  datatype State = State(
    entries: map<Handle, Entry>,
    liveSessions: map<SessionId, Handle>,
    openingSessions: map<SessionId, Handle>,
    connections: map<Conn, Connection>,
    tasks: map<TaskId, Task>,
    closing: Closing)

  const Init := State(map[], map[], map[], map[], map[], Open)

  /** `idle` is the set of runtimes whose `getPhase` answers "idle" during the step. */
  datatype Event =
    | Acquire(task: TaskId, conn: Conn, id: SessionId, handle: Handle)
    | RuntimeArrived(handle: Handle, ok: bool)
    | SnapshotArrived(handle: Handle, ok: bool, earlyError: bool, task: TaskId)
    | DiscardSettled(handle: Handle)
    | OpeningObserved(task: TaskId)
    | DisposalObserved(task: TaskId, ok: bool, handle: Handle)
    | AttachConnection(task: TaskId, transportClosed: bool, idle: set<Handle>)
    | Detach(task: TaskId, conn: Conn, id: SessionId, idle: set<Handle>)
    | DetachBroadcast(task: TaskId, ok: bool, idle: set<Handle>)
    | StartOperation(task: TaskId, conn: Conn, id: SessionId)
    | FinishOperation(task: TaskId, idle: set<Handle>)
    | RuntimeNotice(handle: Handle, idle: set<Handle>)
    | RuntimeError(handle: Handle, task: TaskId)
    | TerminateDisconnect(task: TaskId, conn: Conn, idle: set<Handle>)
    | TerminateFinish(task: TaskId, idle: set<Handle>)
    | ConnectionReady(conn: Conn)
    | Disconnect(conn: Conn, idle: set<Handle>)
    | DisposalSettled(handle: Handle)
    | RequestClose
    | BeginDrain
    | Sweep

  // ----- the steps -----

  predicate HasLive(s: State, h: Handle) {
    h in s.entries && s.entries[h].stage.Opened?
  }

  function LiveOf(s: State, h: Handle): Live
    requires HasLive(s, h)
  {
    s.entries[h].stage.live
  }

  function WithStage(s: State, h: Handle, stage: Stage): State
    requires h in s.entries
  {
    s.(entries := s.entries[h := s.entries[h].(stage := stage)])
  }

  function WithLive(s: State, h: Handle, live: Live): State
    requires h in s.entries
  {
    WithStage(s, h, Opened(live))
  }

  function Discard(s: State, h: Handle): State
    requires h in s.entries
  {
    s.(entries := s.entries[h := s.entries[h].(stage := Discarding, disposeCalls := s.entries[h].disposeCalls + 1)])
  }

  function WithTask(s: State, t: TaskId, task: Task): State {
    s.(tasks := s.tasks[t := task])
  }

  function WithoutTask(s: State, t: TaskId): State {
    s.(tasks := s.tasks - {t})
  }

  predicate IsClosing(s: State) {
    !s.closing.Open?
  }

  /** The test at the head of `maybeDispose`. */
  predicate Keeps(closing: bool, live: Live, idle: bool) {
    closing || live.disposal != NotDisposing || live.connections != {} || live.operationCount > 0
    || (!live.terminal && !idle)
  }

  function DisposeUnlessKept(closing: bool, e: Entry, idle: bool): Entry
    requires e.stage.Opened?
  {
    var live := e.stage.live.(seenBusy := !idle);
    if Keeps(closing, live, idle) then e.(stage := Opened(live))
    else e.(stage := Opened(live.(subscribed := false, disposal := Disposing)), disposeCalls := e.disposeCalls + 1)
  }

  function MaybeDispose(s: State, h: Handle, idle: set<Handle>): (r: State)
    requires HasLive(s, h)
    ensures r == s.(entries := r.entries)
  {
    s.(entries := s.entries[h := DisposeUnlessKept(IsClosing(s), s.entries[h], h in idle)])
  }

  function Created(s: State, t: TaskId, conn: Conn, id: SessionId, h: Handle): State {
    WithTask(s, t, WaitingOpening(conn, id, h))
    .(entries := s.entries[h := Entry(id, t, Acquiring, 0)], openingSessions := s.openingSessions[id := h])
  }

  /** One turn of the loop in `acquire`, up to its next await or return. */
  function AcquireTurn(s: State, t: TaskId, conn: Conn, id: SessionId, h: Handle): State
    requires h !in s.entries
  {
    if id in s.liveSessions && HasLive(s, s.liveSessions[id]) then
      var existing := s.liveSessions[id];
      var live := LiveOf(s, existing);
      if live.terminal then WithoutTask(s, t)
      else if live.disposal != NotDisposing then WithTask(s, t, WaitingDisposal(conn, id, existing))
      else WithTask(s, t, Attaching(conn, existing))
    else if id in s.openingSessions then
      WithTask(s, t, WaitingOpening(conn, id, s.openingSessions[id]))
    else
      Created(s, t, conn, id, h)
  }

  function RuntimeArrivedStep(s: State, h: Handle, ok: bool): State {
    if h !in s.entries || s.entries[h].stage != Acquiring then s
    else if !ok then WithStage(s, h, Failed(false))
    else if IsClosing(s) then Discard(s, h)
    else WithStage(s, h, Snapshotting)
  }

  function Registered(s: State, h: Handle, early: bool): State
    requires h in s.entries
  {
    WithLive(s, h, Live({}, 0, true, early, NotDisposing, false)).(liveSessions := s.liveSessions[s.entries[h].id := h])
  }

  /** `earlyError`: the runtime reports an error while `subscribe` is still running. */
  function SnapshotArrivedStep(s: State, h: Handle, ok: bool, earlyError: bool, t: TaskId): State {
    if h !in s.entries || s.entries[h].stage != Snapshotting || t in s.tasks then s
    else if !ok then Discard(s, h)
    else
      var s1 := Registered(s, h, earlyError);
      if earlyError then WithTask(s1, t, Terminating(h, {})) else s1
  }

  /** The `finally` of `acquire`: the opener drops its settled promise from the index. */
  function Unindexed(s: State, t: TaskId): State
    requires t in s.tasks && s.tasks[t].WaitingOpening? && s.tasks[t].handle in s.entries
  {
    var task := s.tasks[t];
    if s.entries[task.handle].opener == t && task.id in s.openingSessions && s.openingSessions[task.id] == task.handle
    then s.(openingSessions := s.openingSessions - {task.id}) else s
  }

  function OpeningObservedStep(s: State, t: TaskId): State {
    if t !in s.tasks || !s.tasks[t].WaitingOpening? || s.tasks[t].handle !in s.entries then s
    else
      var task := s.tasks[t];
      var h := task.handle;
      var stage := s.entries[h].stage;
      if !stage.Opened? && !stage.Failed? then s
      else
        var s1 := Unindexed(s, t);
        if stage.Opened? then WithTask(s1, t, Attaching(task.conn, h)) else WithoutTask(s1, t)
  }

  function DisposalObservedStep(s: State, t: TaskId, ok: bool, h: Handle): State {
    if t !in s.tasks || !s.tasks[t].WaitingDisposal? || h in s.entries || !HasLive(s, s.tasks[t].handle) then s
    else if LiveOf(s, s.tasks[t].handle).disposal != Disposed then s
    else if !ok then WithoutTask(s, t)
    else AcquireTurn(s, t, s.tasks[t].conn, s.tasks[t].id, h)
  }

  predicate CanAttach(s: State, conn: Conn, transportClosed: bool) {
    conn in s.connections && s.connections[conn].ready && !s.connections[conn].disconnected && !transportClosed
  }

  function AttachStep(s: State, t: TaskId, transportClosed: bool, idle: set<Handle>): State {
    if t !in s.tasks || !s.tasks[t].Attaching? || !HasLive(s, s.tasks[t].handle) then s
    else
      var conn, h := s.tasks[t].conn, s.tasks[t].handle;
      var s1 := WithoutTask(s, t);
      if !CanAttach(s, conn, transportClosed) then MaybeDispose(s1, h, idle)
      else
        var c := s.connections[conn];
        WithLive(s1, h, LiveOf(s, h).(connections := LiveOf(s, h).connections + {conn}))
        .(connections := s.connections[conn := c.(sessionIds := c.sessionIds + {s.entries[h].id})])
  }

  function DetachStep(s: State, t: TaskId, conn: Conn, id: SessionId, idle: set<Handle>): State {
    if t in s.tasks || conn !in s.connections || id !in s.connections[conn].sessionIds then s
    else
      var c := s.connections[conn];
      var s1 := s.(connections := s.connections[conn := c.(sessionIds := c.sessionIds - {id})]);
      if id !in s.liveSessions || !HasLive(s, s.liveSessions[id]) then s1
      else
        var h := s.liveSessions[id];
        var live := LiveOf(s, h).(connections := LiveOf(s, h).connections - {conn});
        var s2 := WithLive(s1, h, live);
        if live.connections != {} && !live.terminal && live.disposal == NotDisposing
        then WithTask(s2, t, DetachBroadcasting(h))
        else MaybeDispose(s2, h, idle)
  }

  function DetachBroadcastStep(s: State, t: TaskId, ok: bool, idle: set<Handle>): State {
    if t !in s.tasks || !s.tasks[t].DetachBroadcasting? || !HasLive(s, s.tasks[t].handle) then s
    else if !ok then WithoutTask(s, t)
    else MaybeDispose(WithoutTask(s, t), s.tasks[t].handle, idle)
  }

  /** The test of `requireAttached`. */
  predicate CanOperate(s: State, conn: Conn, id: SessionId) {
    conn in s.connections && id in s.connections[conn].sessionIds
    && id in s.liveSessions && HasLive(s, s.liveSessions[id])
    && !LiveOf(s, s.liveSessions[id]).terminal && LiveOf(s, s.liveSessions[id]).disposal == NotDisposing
  }

  function StartOperationStep(s: State, t: TaskId, conn: Conn, id: SessionId): State {
    if t in s.tasks || !CanOperate(s, conn, id) then s
    else
      var h := s.liveSessions[id];
      var live := LiveOf(s, h);
      WithTask(WithLive(s, h, live.(operationCount := live.operationCount + 1)), t, Operating(h))
  }

  function FinishOperationStep(s: State, t: TaskId, idle: set<Handle>): State {
    if t !in s.tasks || !s.tasks[t].Operating? || !HasLive(s, s.tasks[t].handle) then s
    else
      var h := s.tasks[t].handle;
      var live := LiveOf(s, h);
      MaybeDispose(WithLive(WithoutTask(s, t), h, live.(operationCount := live.operationCount - 1)), h, idle)
  }

  function RuntimeNoticeStep(s: State, h: Handle, idle: set<Handle>): State {
    if !HasLive(s, h) || !LiveOf(s, h).subscribed then s else MaybeDispose(s, h, idle)
  }

  function RuntimeErrorStep(s: State, h: Handle, t: TaskId): State {
    if !HasLive(s, h) || !LiveOf(s, h).subscribed || LiveOf(s, h).terminal || t in s.tasks then s
    else
      var live := LiveOf(s, h);
      WithTask(WithLive(s, h, live.(terminal := true, subscribed := false)), t, Terminating(h, live.connections))
  }

  /** What a disconnect of `conn`, attached to `ids`, does to the call of `create` named `h`. */
  function DropConnection(s: State, h: Handle, conn: Conn, ids: set<SessionId>, idle: set<Handle>): Entry
    requires h in s.entries
  {
    var e := s.entries[h];
    if e.stage.Opened? && e.id in ids && e.id in s.liveSessions && s.liveSessions[e.id] == h then
      var live := e.stage.live;
      DisposeUnlessKept(IsClosing(s), e.(stage := Opened(live.(connections := live.connections - {conn}))), h in idle)
    else e
  }

  function DisconnectStep(s: State, conn: Conn, idle: set<Handle>): State {
    if conn !in s.connections || s.connections[conn].disconnected then s
    else
      var ids := s.connections[conn].sessionIds;
      s.(connections := s.connections[conn := Connection(false, true, {})],
         entries := map h | h in s.entries :: DropConnection(s, h, conn, ids, idle))
  }

  function TerminateDisconnectStep(s: State, t: TaskId, conn: Conn, idle: set<Handle>): State {
    if t !in s.tasks || !s.tasks[t].Terminating? || conn !in s.tasks[t].remaining then s
    else
      var task := s.tasks[t];
      DisconnectStep(WithTask(s, t, task.(remaining := task.remaining - {conn})), conn, idle)
  }

  function TerminateFinishStep(s: State, t: TaskId, idle: set<Handle>): State {
    if t !in s.tasks || !s.tasks[t].Terminating? || s.tasks[t].remaining != {} || !HasLive(s, s.tasks[t].handle) then s
    else MaybeDispose(WithoutTask(s, t), s.tasks[t].handle, idle)
  }

  function ConnectionReadyStep(s: State, conn: Conn): State {
    if conn in s.connections then s
    else s.(connections := s.connections[conn := Connection(true, false, {})])
  }

  function DisposalSettledStep(s: State, h: Handle): State {
    if !HasLive(s, h) || LiveOf(s, h).disposal != Disposing then s
    else
      var s1 := WithLive(s, h, LiveOf(s, h).(disposal := Disposed));
      var id := s.entries[h].id;
      if id in s.liveSessions && s.liveSessions[id] == h
      then s1.(liveSessions := s.liveSessions - {id}) else s1
  }

  predicate Settled(s: State, h: Handle) {
    h in s.entries && (s.entries[h].stage.Opened? || s.entries[h].stage.Failed?)
  }

  function SweepEntry(s: State, h: Handle): Entry
    requires h in s.entries
  {
    var e := s.entries[h];
    if e.stage.Opened? && e.id in s.liveSessions && s.liveSessions[e.id] == h && e.stage.live.disposal == NotDisposing
    then e.(stage := Opened(e.stage.live.(subscribed := false)), disposeCalls := e.disposeCalls + 1)
    else e
  }

  function SweepStep(s: State): State {
    if !s.closing.Draining? || exists h :: h in s.closing.captured && !Settled(s, h) then s
    else s.(liveSessions := map[], closing := Swept, entries := map h | h in s.entries :: SweepEntry(s, h))
  }

  function Step(s: State, e: Event): State {
    match e
    case Acquire(t, conn, id, h) => if t in s.tasks || h in s.entries then s else AcquireTurn(s, t, conn, id, h)
    case RuntimeArrived(h, ok) => RuntimeArrivedStep(s, h, ok)
    case SnapshotArrived(h, ok, early, t) => SnapshotArrivedStep(s, h, ok, early, t)
    case DiscardSettled(h) =>
      if h in s.entries && s.entries[h].stage == Discarding then WithStage(s, h, Failed(true)) else s
    case OpeningObserved(t) => OpeningObservedStep(s, t)
    case DisposalObserved(t, ok, h) => DisposalObservedStep(s, t, ok, h)
    case AttachConnection(t, closed, idle) => AttachStep(s, t, closed, idle)
    case Detach(t, conn, id, idle) => DetachStep(s, t, conn, id, idle)
    case DetachBroadcast(t, ok, idle) => DetachBroadcastStep(s, t, ok, idle)
    case StartOperation(t, conn, id) => StartOperationStep(s, t, conn, id)
    case FinishOperation(t, idle) => FinishOperationStep(s, t, idle)
    case RuntimeNotice(h, idle) => RuntimeNoticeStep(s, h, idle)
    case RuntimeError(h, t) => RuntimeErrorStep(s, h, t)
    case TerminateDisconnect(t, conn, idle) => TerminateDisconnectStep(s, t, conn, idle)
    case TerminateFinish(t, idle) => TerminateFinishStep(s, t, idle)
    case ConnectionReady(conn) => ConnectionReadyStep(s, conn)
    case Disconnect(conn, idle) => DisconnectStep(s, conn, idle)
    case DisposalSettled(h) => DisposalSettledStep(s, h)
    case RequestClose => if s.closing.Open? then s.(closing := CloseRequested) else s
    case BeginDrain =>
      if s.closing.CloseRequested? then s.(closing := Draining(s.openingSessions.Values)) else s
    case Sweep => SweepStep(s)
  }

  function Run(s: State, events: seq<Event>): State
    decreases |events|
  {
    if events == [] then s else Run(Step(s, events[0]), events[1..])
  }

  // ----- the invariant -----

  predicate Pending(e: Entry) {
    e.stage.Acquiring? || e.stage.Snapshotting? || e.stage.Discarding?
  }

  /** How often runtime.dispose() has been called, by stage. */
  predicate CallsOk(swept: bool, e: Entry) {
    match e.stage
    case Acquiring => e.disposeCalls == 0
    case Snapshotting => e.disposeCalls == 0 && !swept
    case Discarding => e.disposeCalls == 1
    case Failed(acquired) => e.disposeCalls == if acquired then 1 else 0
    case Opened(live) =>
      && e.disposeCalls == (if swept || live.disposal != NotDisposing then 1 else 0)
      && (live.disposal != NotDisposing ==> !live.subscribed)
      && (live.disposal == NotDisposing && !swept ==> live.subscribed || live.terminal)
  }

  /** The two maps of the manager know every call that still matters. */
  predicate RegistryOk(live: map<SessionId, Handle>, opening: map<SessionId, Handle>, closing: Closing, h: Handle, e: Entry) {
    && (Pending(e) ==> e.id in opening && opening[e.id] == h && e.id !in live)
    && (e.stage.Opened? && e.stage.live.disposal != Disposed && !closing.Swept? ==> e.id in live && live[e.id] == h)
    && (e.stage.Snapshotting? && closing.Draining? ==> h in closing.captured)
  }

  function OperationsOf(tasks: map<TaskId, Task>, h: Handle): set<TaskId> {
    set t | t in tasks && tasks[t] == Operating(h)
  }

  predicate CountOk(tasks: map<TaskId, Task>, h: Handle, e: Entry) {
    e.stage.Opened? ==>
      && e.stage.live.operationCount == |OperationsOf(tasks, h)|
      && (e.stage.live.disposal != NotDisposing ==> e.stage.live.operationCount == 0)
  }

  predicate MemberOk(connections: map<Conn, Connection>, id: SessionId, c: Conn) {
    c in connections && !connections[c].disconnected && id in connections[c].sessionIds
  }

  predicate MembersOk(connections: map<Conn, Connection>, live: map<SessionId, Handle>, h: Handle, e: Entry) {
    e.stage.Opened? && e.id in live && live[e.id] == h ==>
      forall c | c in e.stage.live.connections :: MemberOk(connections, e.id, c)
  }

  /** Does this suspended activity still have to look at the live session `h`? */
  predicate Holds(task: Task, h: Handle) {
    (task.WaitingOpening? || task.Attaching? || task.Terminating?) && task.handle == h
  }

  ghost predicate HasHolder(tasks: map<TaskId, Task>, h: Handle) {
    exists t :: t in tasks && Holds(tasks[t], h)
  }

  /** Someone still uses the session, will look at it again, or waits for its runtime to report that it is idle. */
  ghost predicate Held(tasks: map<TaskId, Task>, h: Handle, live: Live) {
    || live.connections != {} || live.operationCount > 0
    || (live.seenBusy && live.subscribed && !live.terminal)
    || HasHolder(tasks, h)
  }

  ghost predicate HeldOk(tasks: map<TaskId, Task>, closing: Closing, h: Handle, e: Entry) {
    closing.Open? && e.stage.Opened? && e.stage.live.disposal == NotDisposing ==> Held(tasks, h, e.stage.live)
  }

  predicate IsOpened(entries: map<Handle, Entry>, h: Handle) {
    h in entries && entries[h].stage.Opened?
  }

  predicate LiveIndexOk(entries: map<Handle, Entry>, id: SessionId, h: Handle) {
    IsOpened(entries, h) && entries[h].id == id && entries[h].stage.live.disposal != Disposed
  }

  /** A promise in `openingSessions` is still awaited by the activity that called `create`. */
  predicate OpeningIndexOk(entries: map<Handle, Entry>, tasks: map<TaskId, Task>, id: SessionId, h: Handle) {
    && h in entries && entries[h].id == id
    && entries[h].opener in tasks && tasks[entries[h].opener].WaitingOpening? && tasks[entries[h].opener].handle == h
  }

  predicate TaskOk(entries: map<Handle, Entry>, task: Task) {
    match task
    case WaitingDisposal(_, _, h) => IsOpened(entries, h)
    case WaitingOpening(_, id, h) => h in entries && entries[h].id == id
    case Attaching(_, h) => IsOpened(entries, h)
    case Operating(h) => IsOpened(entries, h)
    case Terminating(h, _) => IsOpened(entries, h) && entries[h].stage.live.terminal
    case DetachBroadcasting(h) => IsOpened(entries, h)
  }

  ghost predicate EntryOk(s: State, h: Handle, e: Entry) {
    && CallsOk(s.closing.Swept?, e)
    && RegistryOk(s.liveSessions, s.openingSessions, s.closing, h, e)
    && CountOk(s.tasks, h, e)
    && MembersOk(s.connections, s.liveSessions, h, e)
  }

  ghost predicate Indexes(s: State) {
    && (forall id | id in s.liveSessions :: LiveIndexOk(s.entries, id, s.liveSessions[id]))
    && (forall id | id in s.openingSessions :: OpeningIndexOk(s.entries, s.tasks, id, s.openingSessions[id]))
    && (forall t | t in s.tasks :: TaskOk(s.entries, s.tasks[t]))
  }

  /** The invariant, except that the sessions in `skip` may be without a holder. */
  ghost predicate InvExcept(s: State, skip: set<Handle>) {
    && Indexes(s)
    && (forall h | h in s.entries :: EntryOk(s, h, s.entries[h]))
    && (forall h | h in s.entries && h !in skip :: HeldOk(s.tasks, s.closing, h, s.entries[h]))
  }

  ghost predicate Inv(s: State) {
    InvExcept(s, {})
  }

  // ----- every step keeps the invariant -----

  lemma OperationsAdded(tasks: map<TaskId, Task>, t: TaskId, task: Task, h: Handle)
    requires t !in tasks || !tasks[t].Operating?
    ensures |OperationsOf(tasks[t := task], h)| == |OperationsOf(tasks, h)| + if task == Operating(h) then 1 else 0
  {
    if task == Operating(h) {
      assert OperationsOf(tasks[t := task], h) == OperationsOf(tasks, h) + {t};
    } else {
      assert OperationsOf(tasks[t := task], h) == OperationsOf(tasks, h);
    }
  }

  lemma OperationsRemoved(tasks: map<TaskId, Task>, t: TaskId, h: Handle)
    requires t in tasks
    ensures |OperationsOf(tasks - {t}, h)| == |OperationsOf(tasks, h)| - if tasks[t] == Operating(h) then 1 else 0
  {
    if tasks[t] == Operating(h) {
      assert OperationsOf(tasks, h) == OperationsOf(tasks - {t}, h) + {t};
    } else {
      assert OperationsOf(tasks - {t}, h) == OperationsOf(tasks, h);
    }
  }

  lemma HolderKept(tasks: map<TaskId, Task>, t: TaskId, task: Task, h: Handle)
    requires t in tasks && Holds(tasks[t], h) ==> Holds(task, h)
    ensures HasHolder(tasks, h) ==> HasHolder(tasks[t := task], h)
    ensures Holds(task, h) ==> HasHolder(tasks[t := task], h)
  {
    var tasks' := tasks[t := task];
    assert t in tasks' && tasks'[t] == task;
    if HasHolder(tasks, h) {
      var u :| u in tasks && Holds(tasks[u], h);
      assert u in tasks' && Holds(tasks'[u], h);
    }
  }

  lemma HolderKeptWithout(tasks: map<TaskId, Task>, t: TaskId, h: Handle)
    requires t in tasks && !Holds(tasks[t], h)
    ensures HasHolder(tasks, h) ==> HasHolder(tasks - {t}, h)
  {
    if HasHolder(tasks, h) {
      var u :| u in tasks && Holds(tasks[u], h);
      assert u in tasks - {t} && Holds((tasks - {t})[u], h);
    }
  }

  function WithEntry(s: State, h: Handle, e: Entry): State {
    s.(entries := s.entries[h := e])
  }

  /** May `e` stand for `e'` in every index and every suspended activity? */
  predicate Replaces(e: Entry, e': Entry) {
    && e.id == e'.id && e.opener == e'.opener
    && (e.stage.Opened? ==> e'.stage.Opened? && (e.stage.live.terminal ==> e'.stage.live.terminal))
    && (e.stage.Opened? && e.stage.live.disposal != Disposed ==> e'.stage.live.disposal != Disposed)
  }

  lemma WithEntryIndexes(s: State, h: Handle, e: Entry)
    requires Indexes(s) && h in s.entries && Replaces(s.entries[h], e)
    ensures Indexes(WithEntry(s, h, e))
  {
    var s' := WithEntry(s, h, e);
    forall t | t in s'.tasks ensures TaskOk(s'.entries, s'.tasks[t]) {
      assert TaskOk(s.entries, s.tasks[t]);
    }
    forall id | id in s'.liveSessions ensures LiveIndexOk(s'.entries, id, s'.liveSessions[id]) {
      assert LiveIndexOk(s.entries, id, s.liveSessions[id]);
    }
    forall id | id in s'.openingSessions ensures OpeningIndexOk(s'.entries, s'.tasks, id, s'.openingSessions[id]) {
      assert OpeningIndexOk(s.entries, s.tasks, id, s.openingSessions[id]);
    }
  }

  lemma WithEntryInv(s: State, h: Handle, e: Entry, skip: set<Handle>)
    requires InvExcept(s, skip) && h in s.entries && Replaces(s.entries[h], e) && EntryOk(s, h, e)
    requires h in skip || HeldOk(s.tasks, s.closing, h, e)
    ensures InvExcept(WithEntry(s, h, e), skip)
    ensures HeldOk(s.tasks, s.closing, h, e) ==> InvExcept(WithEntry(s, h, e), skip - {h})
  {
    var s' := WithEntry(s, h, e);
    WithEntryIndexes(s, h, e);
    forall k | k in s'.entries ensures EntryOk(s', k, s'.entries[k]) {
      assert EntryOk(s, k, if k == h then e else s.entries[k]);
    }
    forall k | k in s'.entries && k != h && k !in skip ensures HeldOk(s'.tasks, s'.closing, k, s'.entries[k]) {
      assert HeldOk(s.tasks, s.closing, k, s.entries[k]);
    }
  }

  lemma DisposeUnlessKeptOk(s: State, h: Handle, e: Entry, idle: bool)
    requires EntryOk(s, h, e) && e.stage.Opened?
    ensures var e' := DisposeUnlessKept(IsClosing(s), e, idle);
      EntryOk(s, h, e') && HeldOk(s.tasks, s.closing, h, e') && Replaces(e, e')
  {}

  lemma MaybeDisposeInv(s: State, h: Handle, idle: set<Handle>)
    requires InvExcept(s, {h}) && HasLive(s, h)
    ensures Inv(MaybeDispose(s, h, idle))
  {
    var e := DisposeUnlessKept(IsClosing(s), s.entries[h], h in idle);
    assert EntryOk(s, h, s.entries[h]);
    DisposeUnlessKeptOk(s, h, s.entries[h], h in idle);
    WithEntryInv(s, h, e, {h});
  }

  lemma WithTaskInv(s: State, t: TaskId, task: Task, skip: set<Handle>)
    requires InvExcept(s, skip) && TaskOk(s.entries, task) && !task.Operating?
    requires t in s.tasks ==> s.tasks[t].WaitingDisposal?
    ensures InvExcept(WithTask(s, t, task), skip)
  {
    var s' := WithTask(s, t, task);
    forall h | h in s'.entries ensures EntryOk(s', h, s'.entries[h]) {
      assert EntryOk(s, h, s.entries[h]);
      OperationsAdded(s.tasks, t, task, h);
    }
    forall h | h in s'.entries && h !in skip ensures HeldOk(s'.tasks, s'.closing, h, s'.entries[h]) {
      assert HeldOk(s.tasks, s.closing, h, s.entries[h]);
      HolderKept(s.tasks, t, task, h);
    }
    assert Indexes(s') by {
      forall id | id in s'.openingSessions ensures OpeningIndexOk(s'.entries, s'.tasks, id, s'.openingSessions[id]) {
        assert OpeningIndexOk(s.entries, s.tasks, id, s.openingSessions[id]);
      }
    }
  }

  /** Ending an activity is harmless, unless it is the holder of a session or the opener of a promise still indexed. */
  lemma WithoutTaskInv(s: State, t: TaskId, skip: set<Handle>)
    requires InvExcept(s, skip) && t in s.tasks && !s.tasks[t].Operating? && !s.tasks[t].WaitingOpening?
    requires s.tasks[t].Attaching? || s.tasks[t].Terminating? ==> s.tasks[t].handle in skip
    ensures InvExcept(WithoutTask(s, t), skip)
  {
    var s' := WithoutTask(s, t);
    forall h | h in s'.entries ensures EntryOk(s', h, s'.entries[h]) {
      assert EntryOk(s, h, s.entries[h]);
      OperationsRemoved(s.tasks, t, h);
    }
    forall h | h in s'.entries && h !in skip ensures HeldOk(s'.tasks, s'.closing, h, s'.entries[h]) {
      assert HeldOk(s.tasks, s.closing, h, s.entries[h]);
      HolderKeptWithout(s.tasks, t, h);
    }
    forall id | id in s'.openingSessions ensures OpeningIndexOk(s'.entries, s'.tasks, id, s'.openingSessions[id]) {
      assert OpeningIndexOk(s.entries, s.tasks, id, s.openingSessions[id]);
    }
  }

  lemma NoOperations(s: State, h: Handle)
    requires Indexes(s) && !IsOpened(s.entries, h)
    ensures OperationsOf(s.tasks, h) == {}
  {
    forall t | t in s.tasks ensures s.tasks[t] != Operating(h) {
      assert TaskOk(s.entries, s.tasks[t]);
    }
  }

  lemma CreatedIndexes(s: State, t: TaskId, conn: Conn, id: SessionId, h: Handle)
    requires Indexes(s) && h !in s.entries && (t in s.tasks ==> s.tasks[t].WaitingDisposal?)
    ensures Indexes(Created(s, t, conn, id, h))
  {
    var s' := Created(s, t, conn, id, h);
    forall u | u in s'.tasks ensures TaskOk(s'.entries, s'.tasks[u]) {
      if u != t { assert TaskOk(s.entries, s.tasks[u]); }
    }
    forall i | i in s'.liveSessions ensures LiveIndexOk(s'.entries, i, s'.liveSessions[i]) {
      assert LiveIndexOk(s.entries, i, s.liveSessions[i]);
    }
    forall i | i in s'.openingSessions ensures OpeningIndexOk(s'.entries, s'.tasks, i, s'.openingSessions[i]) {
      if i != id { assert OpeningIndexOk(s.entries, s.tasks, i, s.openingSessions[i]); }
    }
  }

  lemma CreatedInv(s: State, t: TaskId, conn: Conn, id: SessionId, h: Handle)
    requires Inv(s) && h !in s.entries && (t in s.tasks ==> s.tasks[t].WaitingDisposal?)
    requires id !in s.liveSessions && id !in s.openingSessions
    ensures Inv(Created(s, t, conn, id, h))
  {
    hide LiveIndexOk, OpeningIndexOk, TaskOk, OperationsOf, HasHolder, MemberOk;
    var s' := Created(s, t, conn, id, h);
    CreatedIndexes(s, t, conn, id, h);
    forall k | k in s'.entries ensures EntryOk(s', k, s'.entries[k]) && HeldOk(s'.tasks, s'.closing, k, s'.entries[k]) {
      if k != h {
        assert EntryOk(s, k, s.entries[k]) && HeldOk(s.tasks, s.closing, k, s.entries[k]);
        OperationsAdded(s.tasks, t, WaitingOpening(conn, id, h), k);
        HolderKept(s.tasks, t, WaitingOpening(conn, id, h), k);
      }
    }
  }

  lemma AcquireTurnInv(s: State, t: TaskId, conn: Conn, id: SessionId, h: Handle)
    requires Inv(s) && h !in s.entries && (t in s.tasks ==> s.tasks[t].WaitingDisposal?)
    ensures Inv(AcquireTurn(s, t, conn, id, h))
  {
    if id in s.liveSessions {
      var existing := s.liveSessions[id];
      assert LiveIndexOk(s.entries, id, existing);
      var live := LiveOf(s, existing);
      if live.terminal {
        if t in s.tasks { WithoutTaskInv(s, t, {}); } else { assert WithoutTask(s, t) == s; }
      } else if live.disposal != NotDisposing {
        WithTaskInv(s, t, WaitingDisposal(conn, id, existing), {});
      } else {
        WithTaskInv(s, t, Attaching(conn, existing), {});
      }
    } else if id in s.openingSessions {
      assert OpeningIndexOk(s.entries, s.tasks, id, s.openingSessions[id]);
      WithTaskInv(s, t, WaitingOpening(conn, id, s.openingSessions[id]), {});
    } else {
      CreatedInv(s, t, conn, id, h);
    }
  }

  lemma RuntimeArrivedInv(s: State, h: Handle, ok: bool)
    requires Inv(s)
    ensures Inv(RuntimeArrivedStep(s, h, ok))
  {
    if h in s.entries && s.entries[h].stage == Acquiring {
      assert EntryOk(s, h, s.entries[h]);
      NoOperations(s, h);
      WithEntryInv(s, h, RuntimeArrivedStep(s, h, ok).entries[h], {});
    }
  }

  lemma DiscardSettledInv(s: State, h: Handle)
    requires Inv(s)
    ensures Inv(Step(s, DiscardSettled(h)))
  {
    if h in s.entries && s.entries[h].stage == Discarding {
      assert EntryOk(s, h, s.entries[h]);
      WithEntryInv(s, h, s.entries[h].(stage := Failed(true)), {});
    }
  }

  lemma RegisteredIndexes(s: State, h: Handle, early: bool)
    requires Indexes(s) && h in s.entries && s.entries[h].stage.Snapshotting?
    ensures Indexes(Registered(s, h, early))
  {
    var s' := Registered(s, h, early);
    forall u | u in s'.tasks ensures TaskOk(s'.entries, s'.tasks[u]) {
      assert TaskOk(s.entries, s.tasks[u]);
    }
    forall i | i in s'.liveSessions ensures LiveIndexOk(s'.entries, i, s'.liveSessions[i]) {
      if i != s.entries[h].id { assert LiveIndexOk(s.entries, i, s.liveSessions[i]); }
    }
    forall i | i in s'.openingSessions ensures OpeningIndexOk(s'.entries, s'.tasks, i, s'.openingSessions[i]) {
      assert OpeningIndexOk(s.entries, s.tasks, i, s.openingSessions[i]);
    }
  }

  lemma NotYetRegistered(s: State, h: Handle)
    requires Inv(s) && h in s.entries && s.entries[h].stage.Snapshotting?
    ensures s.entries[h].id !in s.liveSessions
  {
    assert EntryOk(s, h, s.entries[h]);
  }

  /** Registering a live session leaves the other calls as they are. */
  lemma OthersUnregistered(s: State, h: Handle, early: bool, k: Handle)
    requires Inv(s) && h in s.entries && s.entries[h].stage.Snapshotting? && k in s.entries && k != h
    ensures var s' := Registered(s, h, early);
            k in s'.entries && EntryOk(s', k, s'.entries[k]) && HeldOk(s'.tasks, s'.closing, k, s'.entries[k])
  {
    hide OperationsOf, Indexes, HeldOk;
    assert EntryOk(s, k, s.entries[k]) && HeldOk(s.tasks, s.closing, k, s.entries[k]);
    assert EntryOk(s, h, s.entries[h]);
  }

  lemma OpenerHolds(s: State, h: Handle)
    requires Inv(s) && h in s.entries && s.entries[h].stage.Snapshotting?
    ensures HasHolder(s.tasks, h)
  {
    hide OperationsOf, LiveIndexOk, TaskOk, MemberOk;
    assert EntryOk(s, h, s.entries[h]);
    assert OpeningIndexOk(s.entries, s.tasks, s.entries[h].id, h);
    assert Holds(s.tasks[s.entries[h].opener], h);
  }

  /** Registering a fresh live session: no other session is registered under its id. */
  lemma RegisteredInv(s: State, h: Handle, early: bool)
    requires Inv(s) && h in s.entries && s.entries[h].stage.Snapshotting?
    ensures s.entries[h].id !in s.liveSessions
    ensures Inv(Registered(s, h, early))
  {
    hide OperationsOf, LiveIndexOk, TaskOk, MemberOk;
    var s' := Registered(s, h, early);
    assert EntryOk(s, h, s.entries[h]);
    NoOperations(s, h);
    RegisteredIndexes(s, h, early);
    OpenerHolds(s, h);
    hide Indexes, OpeningIndexOk;
    forall k | k in s'.entries ensures EntryOk(s', k, s'.entries[k]) && HeldOk(s'.tasks, s'.closing, k, s'.entries[k]) {
      if k != h { OthersUnregistered(s, h, early, k); }
    }
  }

  lemma SnapshotArrivedInv(s: State, h: Handle, ok: bool, early: bool, t: TaskId)
    requires Inv(s)
    ensures Inv(SnapshotArrivedStep(s, h, ok, early, t))
  {
    if h in s.entries && s.entries[h].stage == Snapshotting && t !in s.tasks {
      assert EntryOk(s, h, s.entries[h]);
      if !ok {
        WithEntryInv(s, h, SnapshotArrivedStep(s, h, ok, early, t).entries[h], {});
      } else {
        RegisteredInv(s, h, early);
        if early {
          WithTaskInv(Registered(s, h, early), t, Terminating(h, {}), {});
        }
      }
    }
  }

  lemma ObservedIndexes(s: State, t: TaskId, tasks: map<TaskId, Task>)
    requires Indexes(s) && t in s.tasks && s.tasks[t].WaitingOpening? && s.tasks[t].handle in s.entries
    requires forall u | u in tasks :: TaskOk(s.entries, tasks[u])
    requires forall u | u in s.tasks && u != t :: u in tasks && tasks[u] == s.tasks[u]
    ensures Indexes(Unindexed(s, t).(tasks := tasks))
  {
    var s' := Unindexed(s, t).(tasks := tasks);
    forall i | i in s'.openingSessions ensures OpeningIndexOk(s'.entries, s'.tasks, i, s'.openingSessions[i]) {
      assert OpeningIndexOk(s.entries, s.tasks, i, s.openingSessions[i]);
      assert TaskOk(s.entries, s.tasks[t]);
    }
  }

  lemma OpenedObservedInv(s: State, t: TaskId)
    requires Inv(s) && t in s.tasks && s.tasks[t].WaitingOpening? && IsOpened(s.entries, s.tasks[t].handle)
    ensures Inv(WithTask(Unindexed(s, t), t, Attaching(s.tasks[t].conn, s.tasks[t].handle)))
  {
    var attaching := Attaching(s.tasks[t].conn, s.tasks[t].handle);
    var s' := WithTask(Unindexed(s, t), t, attaching);
    ObservedIndexes(s, t, s'.tasks);
    forall k | k in s'.entries ensures EntryOk(s', k, s'.entries[k]) && HeldOk(s'.tasks, s'.closing, k, s'.entries[k]) {
      assert EntryOk(s, k, s.entries[k]) && HeldOk(s.tasks, s.closing, k, s.entries[k]);
      OperationsAdded(s.tasks, t, attaching, k);
      HolderKept(s.tasks, t, attaching, k);
    }
  }

  lemma FailedObservedInv(s: State, t: TaskId)
    requires Inv(s) && t in s.tasks && s.tasks[t].WaitingOpening?
    requires s.tasks[t].handle in s.entries && s.entries[s.tasks[t].handle].stage.Failed?
    ensures Inv(WithoutTask(Unindexed(s, t), t))
  {
    var s' := WithoutTask(Unindexed(s, t), t);
    ObservedIndexes(s, t, s'.tasks);
    forall k | k in s'.entries ensures EntryOk(s', k, s'.entries[k]) && HeldOk(s'.tasks, s'.closing, k, s'.entries[k]) {
      assert EntryOk(s, k, s.entries[k]) && HeldOk(s.tasks, s.closing, k, s.entries[k]);
      OperationsRemoved(s.tasks, t, k);
      if k != s.tasks[t].handle { HolderKeptWithout(s.tasks, t, k); }
    }
  }

  lemma OpeningObservedInv(s: State, t: TaskId)
    requires Inv(s)
    ensures Inv(OpeningObservedStep(s, t))
  {
    if OpeningObservedStep(s, t) != s {
      if s.entries[s.tasks[t].handle].stage.Opened? { OpenedObservedInv(s, t); } else { FailedObservedInv(s, t); }
    }
  }

  lemma DisposalObservedInv(s: State, t: TaskId, ok: bool, h: Handle)
    requires Inv(s)
    ensures Inv(DisposalObservedStep(s, t, ok, h))
  {
    if DisposalObservedStep(s, t, ok, h) != s {
      if ok { AcquireTurnInv(s, t, s.tasks[t].conn, s.tasks[t].id, h); } else { WithoutTaskInv(s, t, {}); }
    }
  }

  lemma JoinedInv(s: State, conn: Conn, id: SessionId, skip: set<Handle>)
    requires InvExcept(s, skip) && conn in s.connections
    ensures var c := s.connections[conn];
      InvExcept(s.(connections := s.connections[conn := c.(sessionIds := c.sessionIds + {id})]), skip)
  {
    var s' := s.(connections := s.connections[conn := s.connections[conn].(sessionIds := s.connections[conn].sessionIds + {id})]);
    forall k | k in s'.entries ensures EntryOk(s', k, s'.entries[k]) {
      assert EntryOk(s, k, s.entries[k]);
    }
  }

  lemma AttachedInv(s: State, conn: Conn, h: Handle)
    requires InvExcept(s, {h}) && HasLive(s, h) && conn in s.connections && !s.connections[conn].disconnected
    requires s.entries[h].id in s.connections[conn].sessionIds
    ensures Inv(WithLive(s, h, LiveOf(s, h).(connections := LiveOf(s, h).connections + {conn})))
  {
    assert EntryOk(s, h, s.entries[h]);
    var e := s.entries[h].(stage := Opened(LiveOf(s, h).(connections := LiveOf(s, h).connections + {conn})));
    assert conn in e.stage.live.connections;
    WithEntryInv(s, h, e, {h});
  }

  lemma AttachInv(s: State, t: TaskId, closed: bool, idle: set<Handle>)
    requires Inv(s)
    ensures Inv(AttachStep(s, t, closed, idle))
  {
    if AttachStep(s, t, closed, idle) != s {
      var conn, h := s.tasks[t].conn, s.tasks[t].handle;
      var s1 := WithoutTask(s, t);
      WithoutTaskInv(s, t, {h});
      if !CanAttach(s, conn, closed) {
        MaybeDisposeInv(s1, h, idle);
      } else {
        JoinedInv(s1, conn, s.entries[h].id, {h});
        AttachedInv(s1.(connections := AttachStep(s, t, closed, idle).connections), conn, h);
      }
    }
  }

  lemma LeftInv(s: State, conn: Conn, id: SessionId, skip: set<Handle>)
    requires InvExcept(s, skip) && conn in s.connections
    requires id in s.liveSessions && IsOpened(s.entries, s.liveSessions[id]) ==>
               conn !in s.entries[s.liveSessions[id]].stage.live.connections
    ensures var c := s.connections[conn];
      InvExcept(s.(connections := s.connections[conn := c.(sessionIds := c.sessionIds - {id})]), skip)
  {
    var s' := s.(connections := s.connections[conn := s.connections[conn].(sessionIds := s.connections[conn].sessionIds - {id})]);
    forall k | k in s'.entries ensures EntryOk(s', k, s'.entries[k]) {
      assert EntryOk(s, k, s.entries[k]);
    }
  }

  lemma DetachInv(s: State, t: TaskId, conn: Conn, id: SessionId, idle: set<Handle>)
    requires Inv(s)
    ensures Inv(DetachStep(s, t, conn, id, idle))
  {
    if t in s.tasks || conn !in s.connections || id !in s.connections[conn].sessionIds {
    } else if id !in s.liveSessions {
      LeftInv(s, conn, id, {});
    } else {
      var h := s.liveSessions[id];
      assert LiveIndexOk(s.entries, id, h);
      assert EntryOk(s, h, s.entries[h]);
      var live := LiveOf(s, h).(connections := LiveOf(s, h).connections - {conn});
      var e := s.entries[h].(stage := Opened(live));
      WithEntryInv(s, h, e, {h});
      var s1 := WithEntry(s, h, e);
      LeftInv(s1, conn, id, {h});
      var s2 := s1.(connections := DetachStep(s, t, conn, id, idle).connections);
      if live.connections != {} && !live.terminal && live.disposal == NotDisposing {
        WithTaskInv(s2, t, DetachBroadcasting(h), {h});
        assert HeldOk(s2.tasks, s2.closing, h, e);
        var s3 := WithTask(s2, t, DetachBroadcasting(h));
        assert HeldOk(s3.tasks, s3.closing, h, s3.entries[h]);
        assert DetachStep(s, t, conn, id, idle) == s3;
      } else {
        MaybeDisposeInv(s2, h, idle);
        assert DetachStep(s, t, conn, id, idle) == MaybeDispose(s2, h, idle);
      }
    }
  }

  lemma DetachBroadcastInv(s: State, t: TaskId, ok: bool, idle: set<Handle>)
    requires Inv(s)
    ensures Inv(DetachBroadcastStep(s, t, ok, idle))
  {
    if DetachBroadcastStep(s, t, ok, idle) != s {
      WithoutTaskInv(s, t, {});
      if ok { MaybeDisposeInv(WithoutTask(s, t), s.tasks[t].handle, idle); }
    }
  }

  lemma TerminateFinishInv(s: State, t: TaskId, idle: set<Handle>)
    requires Inv(s)
    ensures Inv(TerminateFinishStep(s, t, idle))
  {
    if TerminateFinishStep(s, t, idle) != s {
      WithoutTaskInv(s, t, {s.tasks[t].handle});
      MaybeDisposeInv(WithoutTask(s, t), s.tasks[t].handle, idle);
    }
  }

  lemma CountedIndexes(s: State, h: Handle, e: Entry, tasks: map<TaskId, Task>)
    requires Indexes(s) && h in s.entries && Replaces(s.entries[h], e)
    requires forall u | u in tasks :: TaskOk(s.entries, tasks[u])
    requires forall u | u in s.tasks && !s.tasks[u].Operating? :: u in tasks && tasks[u] == s.tasks[u]
    ensures Indexes(WithEntry(s, h, e).(tasks := tasks))
  {
    var s' := WithEntry(s, h, e).(tasks := tasks);
    WithEntryIndexes(s, h, e);
    forall u | u in tasks ensures TaskOk(s'.entries, tasks[u]) {
      assert TaskOk(s.entries, tasks[u]);
    }
    forall id | id in s'.openingSessions ensures OpeningIndexOk(s'.entries, s'.tasks, id, s'.openingSessions[id]) {
      assert OpeningIndexOk(s.entries, s.tasks, id, s.openingSessions[id]);
    }
  }

  /** Operations enter and leave together with the counter. */
  lemma CountedInv(s: State, h: Handle, e: Entry, tasks: map<TaskId, Task>, skip: set<Handle>)
    requires InvExcept(s, skip) && h in s.entries && Replaces(s.entries[h], e)
    requires s.entries[h].stage.Opened?
    requires e == s.entries[h].(stage := Opened(s.entries[h].stage.live.(operationCount := |OperationsOf(tasks, h)|)))
    requires s.entries[h].stage.live.disposal == NotDisposing || |OperationsOf(tasks, h)| == 0
    requires forall k | k != h :: |OperationsOf(tasks, k)| == |OperationsOf(s.tasks, k)|
    requires forall k | k in s.entries && k !in skip && k != h && HasHolder(s.tasks, k) :: HasHolder(tasks, k)
    requires forall u | u in tasks :: TaskOk(s.entries, tasks[u])
    requires forall u | u in s.tasks && !s.tasks[u].Operating? :: u in tasks && tasks[u] == s.tasks[u]
    ensures InvExcept(WithEntry(s, h, e).(tasks := tasks), skip + {h})
  {
    hide OperationsOf, HasHolder, MemberOk, Indexes, TaskOk, Replaces;
    var s' := WithEntry(s, h, e).(tasks := tasks);
    CountedIndexes(s, h, e, tasks);
    forall k | k in s'.entries ensures EntryOk(s', k, s'.entries[k]) {
      assert EntryOk(s, k, s.entries[k]);
    }
    forall k | k in s'.entries && k !in skip + {h} ensures HeldOk(s'.tasks, s'.closing, k, s'.entries[k]) {
      assert HeldOk(s.tasks, s.closing, k, s.entries[k]);
    }
  }

  lemma OperationAdded(s: State, t: TaskId, h: Handle)
    requires Indexes(s) && t !in s.tasks && IsOpened(s.entries, h)
    ensures var tasks := s.tasks[t := Operating(h)];
      && (forall k :: |OperationsOf(tasks, k)| == |OperationsOf(s.tasks, k)| + if k == h then 1 else 0)
      && (forall k | HasHolder(s.tasks, k) :: HasHolder(tasks, k))
      && (forall u | u in tasks :: TaskOk(s.entries, tasks[u]))
  {
    hide OperationsOf, HasHolder, LiveIndexOk, OpeningIndexOk;
    var tasks := s.tasks[t := Operating(h)];
    forall k ensures |OperationsOf(tasks, k)| == |OperationsOf(s.tasks, k)| + if k == h then 1 else 0 {
      OperationsAdded(s.tasks, t, Operating(h), k);
    }
    forall k | HasHolder(s.tasks, k) ensures HasHolder(tasks, k) {
      HolderKept(s.tasks, t, Operating(h), k);
    }
    forall u | u in tasks ensures TaskOk(s.entries, tasks[u]) {
      assert u in s.tasks ==> TaskOk(s.entries, s.tasks[u]);
    }
  }

  lemma StartOperationInv(s: State, t: TaskId, conn: Conn, id: SessionId)
    requires Inv(s)
    ensures Inv(StartOperationStep(s, t, conn, id))
  {
    hide LiveIndexOk, OpeningIndexOk, TaskOk, OperationsOf, HasHolder, CallsOk, RegistryOk, MembersOk;
    if t !in s.tasks && CanOperate(s, conn, id) {
      var h := s.liveSessions[id];
      assert EntryOk(s, h, s.entries[h]);
      var tasks := s.tasks[t := Operating(h)];
      OperationAdded(s, t, h);
      var e := s.entries[h].(stage := Opened(LiveOf(s, h).(operationCount := |OperationsOf(tasks, h)|)));
      CountedInv(s, h, e, tasks, {});
      var s' := WithEntry(s, h, e).(tasks := tasks);
      assert StartOperationStep(s, t, conn, id) == s';
      assert HeldOk(s'.tasks, s'.closing, h, s'.entries[h]);
    }
  }

  lemma FinishOperationInv(s: State, t: TaskId, idle: set<Handle>)
    requires Inv(s)
    ensures Inv(FinishOperationStep(s, t, idle))
  {
    hide LiveIndexOk, OpeningIndexOk, OperationsOf, HasHolder, CallsOk, RegistryOk, MembersOk, DisposeUnlessKept;
    if FinishOperationStep(s, t, idle) != s {
      var h := s.tasks[t].handle;
      assert EntryOk(s, h, s.entries[h]);
      var tasks := s.tasks - {t};
      forall k ensures |OperationsOf(tasks, k)| == |OperationsOf(s.tasks, k)| - if k == h then 1 else 0 {
        OperationsRemoved(s.tasks, t, k);
      }
      forall k | HasHolder(s.tasks, k) ensures HasHolder(tasks, k) {
        HolderKeptWithout(s.tasks, t, k);
      }
      forall u | u in tasks ensures TaskOk(s.entries, tasks[u]) {
        assert TaskOk(s.entries, s.tasks[u]);
      }
      var e := s.entries[h].(stage := Opened(LiveOf(s, h).(operationCount := |OperationsOf(tasks, h)|)));
      CountedInv(s, h, e, tasks, {});
      var s1 := WithEntry(s, h, e).(tasks := tasks);
      MaybeDisposeInv(s1, h, idle);
      assert FinishOperationStep(s, t, idle) == MaybeDispose(s1, h, idle);
    }
  }

  lemma RuntimeNoticeInv(s: State, h: Handle, idle: set<Handle>)
    requires Inv(s)
    ensures Inv(RuntimeNoticeStep(s, h, idle))
  {
    if RuntimeNoticeStep(s, h, idle) != s { MaybeDisposeInv(s, h, idle); }
  }

  lemma RuntimeErrorInv(s: State, h: Handle, t: TaskId)
    requires Inv(s)
    ensures Inv(RuntimeErrorStep(s, h, t))
  {
    if RuntimeErrorStep(s, h, t) != s {
      assert EntryOk(s, h, s.entries[h]);
      var live := LiveOf(s, h);
      var e := s.entries[h].(stage := Opened(live.(terminal := true, subscribed := false)));
      WithEntryInv(s, h, e, {h});
      var s1 := WithEntry(s, h, e);
      WithTaskInv(s1, t, Terminating(h, live.connections), {h});
      var s2 := WithTask(s1, t, Terminating(h, live.connections));
      HolderKept(s1.tasks, t, Terminating(h, live.connections), h);
      assert s2.entries[h] == e && HeldOk(s2.tasks, s2.closing, h, e);
      assert s2 == RuntimeErrorStep(s, h, t);
    }
  }

  /** A call's entry without the connection that is going away. */
  function WithoutMember(s: State, h: Handle, conn: Conn): Entry
    requires h in s.entries && conn in s.connections
  {
    var e := s.entries[h];
    if e.stage.Opened? && e.id in s.connections[conn].sessionIds && e.id in s.liveSessions && s.liveSessions[e.id] == h then
      e.(stage := Opened(e.stage.live.(connections := e.stage.live.connections - {conn})))
    else e
  }

  lemma MemberGone(s: State, s': State, h: Handle, conn: Conn, idle: set<Handle>)
    requires h in s.entries && EntryOk(s, h, s.entries[h])
    requires conn in s.connections && !s.connections[conn].disconnected && s' == DisconnectStep(s, conn, idle)
    ensures EntryOk(s', h, WithoutMember(s, h, conn))
  {
    hide OperationsOf, DisposeUnlessKept;
  }

  lemma DropConnectionOk(s: State, s': State, h: Handle, conn: Conn, idle: set<Handle>)
    requires Inv(s) && h in s.entries && conn in s.connections && !s.connections[conn].disconnected
    requires s' == DisconnectStep(s, conn, idle)
    ensures EntryOk(s', h, s'.entries[h]) && HeldOk(s'.tasks, s'.closing, h, s'.entries[h])
    ensures Replaces(s.entries[h], s'.entries[h])
  {
    hide EntryOk, HeldOk, DisposeUnlessKept, Indexes;
    var e := WithoutMember(s, h, conn);
    MemberGone(s, s', h, conn, idle);
    if e.stage.Opened? {
      DisposeUnlessKeptOk(s', h, e, h in idle);
    }
  }

  lemma DisconnectInv(s: State, conn: Conn, idle: set<Handle>)
    requires Inv(s)
    ensures Inv(DisconnectStep(s, conn, idle))
  {
    var s' := DisconnectStep(s, conn, idle);
    if s' != s {
      forall h | h in s.entries
        ensures EntryOk(s', h, s'.entries[h]) && HeldOk(s'.tasks, s'.closing, h, s'.entries[h]) && Replaces(s.entries[h], s'.entries[h])
      {
        DropConnectionOk(s, s', h, conn, idle);
      }
      ReplacedIndexes(s, s');
    }
  }

  /** Replacing every entry by one that may stand for it keeps the indexes. */
  lemma ReplacedIndexes(s: State, s': State)
    requires Indexes(s) && s'.entries.Keys == s.entries.Keys
    requires s'.tasks == s.tasks && s'.liveSessions == s.liveSessions && s'.openingSessions == s.openingSessions
    requires forall h | h in s.entries :: Replaces(s.entries[h], s'.entries[h])
    ensures Indexes(s')
  {
    forall t | t in s'.tasks ensures TaskOk(s'.entries, s'.tasks[t]) {
      assert TaskOk(s.entries, s.tasks[t]);
    }
    forall id | id in s'.liveSessions ensures LiveIndexOk(s'.entries, id, s'.liveSessions[id]) {
      assert LiveIndexOk(s.entries, id, s.liveSessions[id]);
    }
    forall id | id in s'.openingSessions ensures OpeningIndexOk(s'.entries, s'.tasks, id, s'.openingSessions[id]) {
      assert OpeningIndexOk(s.entries, s.tasks, id, s.openingSessions[id]);
    }
  }

  lemma TerminateDisconnectInv(s: State, t: TaskId, conn: Conn, idle: set<Handle>)
    requires Inv(s)
    ensures Inv(TerminateDisconnectStep(s, t, conn, idle))
  {
    if t in s.tasks && s.tasks[t].Terminating? && conn in s.tasks[t].remaining {
      var task := s.tasks[t].(remaining := s.tasks[t].remaining - {conn});
      TerminatingChanged(s, t, task);
      DisconnectInv(WithTask(s, t, task), conn, idle);
    }
  }

  lemma TerminatingChanged(s: State, t: TaskId, task: Task)
    requires Inv(s) && t in s.tasks && s.tasks[t].Terminating? && task.Terminating? && task.handle == s.tasks[t].handle
    ensures Inv(WithTask(s, t, task))
  {
    var s' := WithTask(s, t, task);
    forall k | k in s'.entries ensures EntryOk(s', k, s'.entries[k]) && HeldOk(s'.tasks, s'.closing, k, s'.entries[k]) {
      assert EntryOk(s, k, s.entries[k]) && HeldOk(s.tasks, s.closing, k, s.entries[k]);
      OperationsAdded(s.tasks, t, task, k);
      HolderKept(s.tasks, t, task, k);
    }
    forall id | id in s'.openingSessions ensures OpeningIndexOk(s'.entries, s'.tasks, id, s'.openingSessions[id]) {
      assert OpeningIndexOk(s.entries, s.tasks, id, s.openingSessions[id]);
    }
  }

  lemma ConnectionReadyInv(s: State, conn: Conn)
    requires Inv(s)
    ensures Inv(ConnectionReadyStep(s, conn))
  {
    hide LiveIndexOk, OpeningIndexOk, TaskOk, OperationsOf, HasHolder, CallsOk, RegistryOk, CountOk, Held;
    var s' := ConnectionReadyStep(s, conn);
    forall k | k in s'.entries ensures EntryOk(s', k, s'.entries[k]) {
      assert EntryOk(s, k, s.entries[k]);
    }
  }

  /** Entry `h` may become disposed once the registry no longer names it. */
  lemma UnregisteredIndexes(s: State, h: Handle, e: Entry, live: map<SessionId, Handle>)
    requires Indexes(s) && IsOpened(s.entries, h) && e == s.entries[h].(stage := Opened(s.entries[h].stage.live.(disposal := Disposed)))
    requires forall id | id in live :: id in s.liveSessions && live[id] == s.liveSessions[id] && live[id] != h
    ensures Indexes(WithEntry(s, h, e).(liveSessions := live))
  {
    var s' := WithEntry(s, h, e).(liveSessions := live);
    forall t | t in s'.tasks ensures TaskOk(s'.entries, s'.tasks[t]) {
      assert TaskOk(s.entries, s.tasks[t]);
    }
    forall id | id in live ensures LiveIndexOk(s'.entries, id, live[id]) {
      assert LiveIndexOk(s.entries, id, s.liveSessions[id]);
    }
    forall id | id in s'.openingSessions ensures OpeningIndexOk(s'.entries, s'.tasks, id, s'.openingSessions[id]) {
      assert OpeningIndexOk(s.entries, s.tasks, id, s.openingSessions[id]);
    }
  }

  lemma DisposalSettledInv(s: State, h: Handle)
    requires Inv(s)
    ensures Inv(DisposalSettledStep(s, h))
  {
    if HasLive(s, h) && LiveOf(s, h).disposal == Disposing {
      var s' := DisposalSettledStep(s, h);
      var e := s.entries[h].(stage := Opened(LiveOf(s, h).(disposal := Disposed)));
      assert s' == WithEntry(s, h, e).(liveSessions := s'.liveSessions);
      forall id | id in s'.liveSessions
        ensures id in s.liveSessions && s'.liveSessions[id] == s.liveSessions[id] && s'.liveSessions[id] != h
      {
        assert LiveIndexOk(s.entries, id, s.liveSessions[id]);
      }
      UnregisteredIndexes(s, h, e, s'.liveSessions);
      DisposedEntries(s, h, e, s'.liveSessions);
    }
  }

  lemma DisposedEntries(s: State, h: Handle, e: Entry, live: map<SessionId, Handle>)
    requires Inv(s) && IsOpened(s.entries, h) && s.entries[h].stage.live.disposal == Disposing
    requires e == s.entries[h].(stage := Opened(s.entries[h].stage.live.(disposal := Disposed)))
    requires forall id | id in live :: id in s.liveSessions && live[id] == s.liveSessions[id] && live[id] != h
    requires forall id | id in s.liveSessions && s.liveSessions[id] != h :: id in live
    requires Indexes(WithEntry(s, h, e).(liveSessions := live))
    ensures Inv(WithEntry(s, h, e).(liveSessions := live))
  {
    var s' := WithEntry(s, h, e).(liveSessions := live);
    forall k | k in s'.entries ensures EntryOk(s', k, s'.entries[k]) && HeldOk(s'.tasks, s'.closing, k, s'.entries[k]) {
      assert EntryOk(s, k, s.entries[k]) && HeldOk(s.tasks, s.closing, k, s.entries[k]);
    }
  }

  lemma ClosingInv(s: State, closing: Closing)
    requires Inv(s) && (closing == CloseRequested || (s.closing == CloseRequested && closing == Draining(s.openingSessions.Values)))
    requires !s.closing.Swept?
    ensures Inv(s.(closing := closing))
  {
    var s' := s.(closing := closing);
    forall k | k in s'.entries ensures EntryOk(s', k, s'.entries[k]) {
      assert EntryOk(s, k, s.entries[k]);
    }
  }

  lemma SweepEntryOk(s: State, s': State, h: Handle)
    requires Inv(s) && h in s.entries && s' == SweepStep(s) && s' != s
    ensures EntryOk(s', h, s'.entries[h]) && Replaces(s.entries[h], s'.entries[h])
  {
    assert EntryOk(s, h, s.entries[h]);
    assert s'.entries[h] == SweepEntry(s, h);
  }

  lemma SweepInv(s: State)
    requires Inv(s)
    ensures Inv(SweepStep(s))
  {
    var s' := SweepStep(s);
    if s' != s {
      forall h | h in s'.entries ensures EntryOk(s', h, s'.entries[h]) && Replaces(s.entries[h], s'.entries[h]) {
        SweepEntryOk(s, s', h);
      }
      ReplacedIndexes(s, s.(entries := s'.entries));
    }
  }

  /** The life of a session up to its members' comings and goings. */
  predicate IsEarly(e: Event) {
    e.Acquire? || e.RuntimeArrived? || e.SnapshotArrived? || e.DiscardSettled? || e.OpeningObserved?
    || e.DisposalObserved? || e.AttachConnection? || e.Detach? || e.DetachBroadcast?
  }

  lemma EarlyStepInv(s: State, e: Event)
    requires Inv(s)
    ensures IsEarly(e) ==> Inv(Step(s, e))
  {
    hide Inv, AcquireTurn, RuntimeArrivedStep, SnapshotArrivedStep, OpeningObservedStep,
         DisposalObservedStep, AttachStep, DetachStep, DetachBroadcastStep, StartOperationStep,
         FinishOperationStep, RuntimeNoticeStep, RuntimeErrorStep, DisconnectStep, TerminateDisconnectStep,
         TerminateFinishStep, ConnectionReadyStep, DisposalSettledStep, SweepStep;
    match e
    case Acquire(t, conn, id, h) => if t !in s.tasks && h !in s.entries { AcquireTurnInv(s, t, conn, id, h); }
    case RuntimeArrived(h, ok) => RuntimeArrivedInv(s, h, ok);
    case SnapshotArrived(h, ok, early, t) => SnapshotArrivedInv(s, h, ok, early, t);
    case DiscardSettled(h) => DiscardSettledInv(s, h);
    case OpeningObserved(t) => OpeningObservedInv(s, t);
    case DisposalObserved(t, ok, h) => DisposalObservedInv(s, t, ok, h);
    case AttachConnection(t, closed, idle) => AttachInv(s, t, closed, idle);
    case Detach(t, conn, id, idle) => DetachInv(s, t, conn, id, idle);
    case DetachBroadcast(t, ok, idle) => DetachBroadcastInv(s, t, ok, idle);
    case _ =>
  }

  lemma LateStepInv(s: State, e: Event)
    requires Inv(s)
    ensures !IsEarly(e) ==> Inv(Step(s, e))
  {
    hide Inv, AcquireTurn, RuntimeArrivedStep, SnapshotArrivedStep, OpeningObservedStep,
         DisposalObservedStep, AttachStep, DetachStep, DetachBroadcastStep, StartOperationStep,
         FinishOperationStep, RuntimeNoticeStep, RuntimeErrorStep, DisconnectStep, TerminateDisconnectStep,
         TerminateFinishStep, ConnectionReadyStep, DisposalSettledStep, SweepStep;
    match e
    case StartOperation(t, conn, id) => StartOperationInv(s, t, conn, id);
    case FinishOperation(t, idle) => FinishOperationInv(s, t, idle);
    case RuntimeNotice(h, idle) => RuntimeNoticeInv(s, h, idle);
    case RuntimeError(h, t) => RuntimeErrorInv(s, h, t);
    case TerminateDisconnect(t, conn, idle) => TerminateDisconnectInv(s, t, conn, idle);
    case TerminateFinish(t, idle) => TerminateFinishInv(s, t, idle);
    case ConnectionReady(conn) => ConnectionReadyInv(s, conn);
    case Disconnect(conn, idle) => DisconnectInv(s, conn, idle);
    case DisposalSettled(h) => DisposalSettledInv(s, h);
    case RequestClose => if s.closing.Open? { ClosingInv(s, CloseRequested); }
    case BeginDrain => if s.closing.CloseRequested? { ClosingInv(s, Draining(s.openingSessions.Values)); }
    case Sweep => SweepInv(s);
    case _ =>
  }

  lemma StepInv(s: State, e: Event)
    requires Inv(s)
    ensures Inv(Step(s, e))
  {
    hide Inv, Step, IsEarly;
    EarlyStepInv(s, e);
    LateStepInv(s, e);
  }

  lemma InitInv()
    ensures Inv(Init)
  {}

  lemma {:induction false} RunInv(s: State, events: seq<Event>)
    requires Inv(s)
    ensures Inv(Run(s, events))
    decreases |events|
  {
    hide Inv, Step;
    if events != [] {
      StepInv(s, events[0]);
      RunInv(Step(s, events[0]), events[1..]);
    }
  }

  // ----- what holds after every run -----

  /** Does the call `h` hold, or still wait for, a runtime for session `id` that is not fully disposed? */
  predicate Occupies(s: State, h: Handle, id: SessionId) {
    h in s.entries && s.entries[h].id == id
    && (Pending(s.entries[h]) || (s.entries[h].stage.Opened? && s.entries[h].stage.live.disposal != Disposed))
  }

  /** At most one runtime per session id is being acquired or is not yet fully disposed. */
  lemma AtMostOneRuntime(events: seq<Event>, id: SessionId, h: Handle, h': Handle)
    requires var s := Run(Init, events); !s.closing.Swept? && Occupies(s, h, id) && Occupies(s, h', id)
    ensures h == h'
  {
    var s := Run(Init, events);
    RunInv(Init, events);
    assert EntryOk(s, h, s.entries[h]) && EntryOk(s, h', s.entries[h']);
  }

  predicate SameWhereBoth(m: map<SessionId, Handle>, m': map<SessionId, Handle>) {
    forall id | id in m && id in m' :: m[id] == m'[id]
  }

  lemma DisposalObservedOverwritesNothing(s: State, t: TaskId, ok: bool, h: Handle)
    ensures var s' := Step(s, DisposalObserved(t, ok, h));
      SameWhereBoth(s.liveSessions, s'.liveSessions) && SameWhereBoth(s.openingSessions, s'.openingSessions)
  {}

  lemma SnapshotArrivedOverwritesNothing(s: State, h: Handle, ok: bool, early: bool, t: TaskId)
    requires Inv(s)
    ensures var s' := Step(s, SnapshotArrived(h, ok, early, t));
      SameWhereBoth(s.liveSessions, s'.liveSessions) && SameWhereBoth(s.openingSessions, s'.openingSessions)
  {
    hide Inv;
    if h in s.entries && s.entries[h].stage == Snapshotting {
      NotYetRegistered(s, h);
    }
  }

  /** Steps that add nothing to either map. */
  predicate AddsNothing(s: State, s': State) {
    (forall id | id in s'.liveSessions :: id in s.liveSessions && s'.liveSessions[id] == s.liveSessions[id])
    && (forall id | id in s'.openingSessions :: id in s.openingSessions && s'.openingSessions[id] == s.openingSessions[id])
  }

  /** The call `h` is not forgotten, and its dispose calls are not taken back. */
  predicate Grows(s: State, s': State, h: Handle) {
    h in s.entries ==>
      h in s'.entries && s'.entries[h].id == s.entries[h].id && s'.entries[h].disposeCalls >= s.entries[h].disposeCalls
  }

  /** No call is forgotten and no dispose call taken back; what is in the maps was there before, unless `adding`. */
  predicate OnlyGrows(s: State, s': State, adding: bool) {
    (forall h | h in s.entries :: Grows(s, s', h)) && (adding || AddsNothing(s, s'))
  }

  lemma AcquireTurnGrows(s: State, t: TaskId, conn: Conn, id: SessionId, h: Handle)
    requires h !in s.entries
    ensures OnlyGrows(s, AcquireTurn(s, t, conn, id, h), true)
  {}

  lemma RuntimeArrivedGrows(s: State, h: Handle, ok: bool)
    ensures OnlyGrows(s, RuntimeArrivedStep(s, h, ok), false)
  {}

  lemma SnapshotArrivedGrows(s: State, h: Handle, ok: bool, early: bool, t: TaskId)
    ensures OnlyGrows(s, SnapshotArrivedStep(s, h, ok, early, t), true)
  {}

  lemma OpeningObservedGrows(s: State, t: TaskId)
    ensures OnlyGrows(s, OpeningObservedStep(s, t), false)
  {}

  lemma DisposalObservedGrows(s: State, t: TaskId, ok: bool, h: Handle)
    ensures OnlyGrows(s, DisposalObservedStep(s, t, ok, h), true)
  {}

  lemma AttachGrows(s: State, t: TaskId, closed: bool, idle: set<Handle>)
    ensures OnlyGrows(s, AttachStep(s, t, closed, idle), false)
  {}

  lemma DetachGrows(s: State, t: TaskId, conn: Conn, id: SessionId, idle: set<Handle>)
    ensures OnlyGrows(s, DetachStep(s, t, conn, id, idle), false)
  {}

  lemma DetachBroadcastGrows(s: State, t: TaskId, ok: bool, idle: set<Handle>)
    ensures OnlyGrows(s, DetachBroadcastStep(s, t, ok, idle), false)
  {}

  lemma StartOperationGrows(s: State, t: TaskId, conn: Conn, id: SessionId)
    ensures OnlyGrows(s, StartOperationStep(s, t, conn, id), false)
  {}

  lemma FinishOperationGrows(s: State, t: TaskId, idle: set<Handle>)
    ensures OnlyGrows(s, FinishOperationStep(s, t, idle), false)
  {}

  lemma RuntimeNoticeGrows(s: State, h: Handle, idle: set<Handle>)
    ensures OnlyGrows(s, RuntimeNoticeStep(s, h, idle), false)
  {}

  lemma RuntimeErrorGrows(s: State, h: Handle, t: TaskId)
    ensures OnlyGrows(s, RuntimeErrorStep(s, h, t), false)
  {}

  lemma TerminateDisconnectGrows(s: State, t: TaskId, conn: Conn, idle: set<Handle>)
    ensures OnlyGrows(s, TerminateDisconnectStep(s, t, conn, idle), false)
  {}

  lemma TerminateFinishGrows(s: State, t: TaskId, idle: set<Handle>)
    ensures OnlyGrows(s, TerminateFinishStep(s, t, idle), false)
  {}

  lemma ConnectionReadyGrows(s: State, conn: Conn)
    ensures OnlyGrows(s, ConnectionReadyStep(s, conn), false)
  {}

  lemma DisconnectGrows(s: State, conn: Conn, idle: set<Handle>)
    ensures OnlyGrows(s, DisconnectStep(s, conn, idle), false)
  {}

  lemma DisposalSettledGrows(s: State, h: Handle)
    ensures OnlyGrows(s, DisposalSettledStep(s, h), false)
  {}

  lemma SweepGrows(s: State)
    ensures OnlyGrows(s, SweepStep(s), false)
  {}

  lemma Unchanged(s: State)
    ensures OnlyGrows(s, s, true)
  {}

  lemma RestGrows(s: State, e: Event)
    requires e.DiscardSettled? || e.RequestClose? || e.BeginDrain?
    ensures OnlyGrows(s, Step(s, e), false)
  {}

  lemma StepOnlyGrows(s: State, e: Event)
    ensures OnlyGrows(s, Step(s, e), e.Acquire? || e.SnapshotArrived? || e.DisposalObserved?)
  {
    hide AcquireTurn, RuntimeArrivedStep, SnapshotArrivedStep, OpeningObservedStep, DisposalObservedStep, AttachStep,
         DetachStep, DetachBroadcastStep, StartOperationStep, FinishOperationStep, RuntimeNoticeStep, RuntimeErrorStep,
         DisconnectStep, TerminateDisconnectStep, TerminateFinishStep, ConnectionReadyStep, DisposalSettledStep,
         SweepStep, OnlyGrows;
    Unchanged(s);
    match e
    case Acquire(t, conn, id, h) => if t !in s.tasks && h !in s.entries { AcquireTurnGrows(s, t, conn, id, h); }
    case RuntimeArrived(h, ok) => RuntimeArrivedGrows(s, h, ok);
    case SnapshotArrived(h, ok, early, t) => SnapshotArrivedGrows(s, h, ok, early, t);
    case OpeningObserved(t) => OpeningObservedGrows(s, t);
    case DisposalObserved(t, ok, h) => DisposalObservedGrows(s, t, ok, h);
    case AttachConnection(t, closed, idle) => AttachGrows(s, t, closed, idle);
    case Detach(t, conn, id, idle) => DetachGrows(s, t, conn, id, idle);
    case DetachBroadcast(t, ok, idle) => DetachBroadcastGrows(s, t, ok, idle);
    case StartOperation(t, conn, id) => StartOperationGrows(s, t, conn, id);
    case FinishOperation(t, idle) => FinishOperationGrows(s, t, idle);
    case RuntimeNotice(h, idle) => RuntimeNoticeGrows(s, h, idle);
    case RuntimeError(h, t) => RuntimeErrorGrows(s, h, t);
    case TerminateDisconnect(t, conn, idle) => TerminateDisconnectGrows(s, t, conn, idle);
    case TerminateFinish(t, idle) => TerminateFinishGrows(s, t, idle);
    case ConnectionReady(conn) => ConnectionReadyGrows(s, conn);
    case Disconnect(conn, idle) => DisconnectGrows(s, conn, idle);
    case DisposalSettled(h) => DisposalSettledGrows(s, h);
    case Sweep => SweepGrows(s);
    case _ => RestGrows(s, e);
  }

  lemma AcquireOverwritesNothing(s: State, e: Event)
    requires e.Acquire?
    ensures var s' := Step(s, e);
      SameWhereBoth(s.liveSessions, s'.liveSessions) && SameWhereBoth(s.openingSessions, s'.openingSessions)
  {
    hide LiveOf;
  }

  lemma OthersOverwriteNothing(s: State, e: Event)
    requires !e.SnapshotArrived? && !e.DisposalObserved?
    ensures var s' := Step(s, e);
      SameWhereBoth(s.liveSessions, s'.liveSessions) && SameWhereBoth(s.openingSessions, s'.openingSessions)
  {
    hide Step;
    if e.Acquire? {
      AcquireOverwritesNothing(s, e);
    } else {
      StepOnlyGrows(s, e);
    }
  }

  /** No step replaces the live session, or the promise, registered under an id by another one. */
  lemma RegistrationNeverOverwrites(events: seq<Event>, e: Event)
    ensures var s := Run(Init, events); var s' := Step(s, e);
      SameWhereBoth(s.liveSessions, s'.liveSessions) && SameWhereBoth(s.openingSessions, s'.openingSessions)
  {
    hide Inv, Step, SameWhereBoth;
    var s := Run(Init, events);
    InitInv();
    RunInv(Init, events);
    match e
    case SnapshotArrived(h, ok, early, t) => SnapshotArrivedOverwritesNothing(s, h, ok, early, t);
    case DisposalObserved(t, ok, h) => DisposalObservedOverwritesNothing(s, t, ok, h);
    case _ => OthersOverwriteNothing(s, e);
  }

  /** Did the backend ever deliver a runtime to this call? */
  predicate Acquired(e: Entry) {
    e.stage != Acquiring && e.stage != Failed(false)
  }

  /** Every runtime is disposed at most once; once `close` is through, every runtime ever acquired was disposed exactly once. */
  lemma DisposedOnce(events: seq<Event>, h: Handle)
    ensures var s := Run(Init, events); h in s.entries ==>
      && s.entries[h].disposeCalls <= 1
      && (s.entries[h].disposeCalls == 1 ==> Acquired(s.entries[h]))
      && (s.closing.Swept? && Acquired(s.entries[h]) ==> s.entries[h].disposeCalls == 1)
  {
    var s := Run(Init, events);
    RunInv(Init, events);
    if h in s.entries { assert EntryOk(s, h, s.entries[h]); }
  }

  lemma {:induction false} RunGrows(s: State, events: seq<Event>, h: Handle)
    ensures Grows(s, Run(s, events), h)
    decreases |events|
  {
    hide Step;
    if events != [] {
      StepOnlyGrows(s, events[0]);
      RunGrows(Step(s, events[0]), events[1..], h);
    }
  }

  /** The counter is the number of operations in flight, and before `close` sweeps no operation meets a disposed runtime. */
  lemma OperationsCounted(events: seq<Event>, h: Handle)
    ensures var s := Run(Init, events); IsOpened(s.entries, h) ==>
      && s.entries[h].stage.live.operationCount == |OperationsOf(s.tasks, h)|
      && (!s.closing.Swept? && OperationsOf(s.tasks, h) != {} ==> s.entries[h].disposeCalls == 0)
  {
    var s := Run(Init, events);
    RunInv(Init, events);
    if h in s.entries { assert EntryOk(s, h, s.entries[h]); }
  }

  /** A member of a registered session is a connected client that lists the session. */
  lemma MembersAreConnected(events: seq<Event>, id: SessionId, c: Conn)
    ensures var s := Run(Init, events);
      id in s.liveSessions && HasLive(s, s.liveSessions[id]) && c in LiveOf(s, s.liveSessions[id]).connections ==>
        c in s.connections && !s.connections[c].disconnected && id in s.connections[c].sessionIds
  {
    var s := Run(Init, events);
    RunInv(Init, events);
    if id in s.liveSessions && HasLive(s, s.liveSessions[id]) && c in LiveOf(s, s.liveSessions[id]).connections {
      assert LiveIndexOk(s.entries, id, s.liveSessions[id]);
      assert EntryOk(s, s.liveSessions[id], s.entries[s.liveSessions[id]]);
      assert MemberOk(s.connections, id, c);
    }
  }

  /**
   No runtime leaks: while the server runs and nothing is suspended, an acquired runtime is disposed or being
   disposed, or has a member, or was busy at the last look and still reports its events.
   */
  lemma NothingLeaks(events: seq<Event>, h: Handle)
    requires var s := Run(Init, events); s.closing.Open? && s.tasks == map[] && h in s.entries && Acquired(s.entries[h])
    ensures var e := Run(Init, events).entries[h];
      || e.disposeCalls == 1
      || (e.stage.Opened? && (e.stage.live.connections != {} ||
           (e.stage.live.seenBusy && e.stage.live.subscribed && !e.stage.live.terminal)))
  {
    var s := Run(Init, events);
    RunInv(Init, events);
    assert EntryOk(s, h, s.entries[h]) && HeldOk(s.tasks, s.closing, h, s.entries[h]);
    var id := s.entries[h].id;
    assert id in s.openingSessions ==> OpeningIndexOk(s.entries, s.tasks, id, s.openingSessions[id]);
    assert OperationsOf(s.tasks, h) == {};
  }
}
