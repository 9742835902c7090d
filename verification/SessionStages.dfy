/**
 How a live session is opened, kept and disposed (packages/server/src/sessions.ts), said of the state alone: how far
 each call of `create` has got, when a runtime is disposed, and who waits for what. Like the results of SessionAccess
 these are equivalences over every step that mention no step function.
 */
module SessionStages {
  import opened LiveSessions
  import opened SessionAccess

  function StageOf(s: State, h: Handle): Stage
    requires h in s.entries
  {
    s.entries[h].stage
  }

  // ----- how far a call of `create` has got -----

  /** The backend answers the call that asks for a runtime. */
  predicate Answered(s: State, e: Event, h: Handle) {
    e.RuntimeArrived? && e.handle == h && h in s.entries && StageOf(s, h).Acquiring?
  }

  /** The runtime answers with its first snapshot, or cannot. */
  predicate Shown(s: State, e: Event, h: Handle) {
    e.SnapshotArrived? && e.handle == h && e.task !in s.tasks && h in s.entries && StageOf(s, h).Snapshotting?
  }

  /** A runtime that came too late, or gives no snapshot, is thrown away. */
  predicate ThrownAway(s: State, e: Event, h: Handle) {
    (Answered(s, e, h) && e.ok && !s.closing.Open?) || (Shown(s, e, h) && !e.ok)
  }

  predicate StagesExactly(s: State, e: Event, h: Handle)
    requires h in s.entries
  {
    var r := Step(s, e);
    && h in r.entries && r.entries[h].id == s.entries[h].id && r.entries[h].opener == s.entries[h].opener
    && (StageOf(r, h).Acquiring? <==> StageOf(s, h).Acquiring? && !Answered(s, e, h))
    && (StageOf(r, h).Snapshotting? <==> (
          || (Answered(s, e, h) && e.ok && s.closing.Open?)
          || (StageOf(s, h).Snapshotting? && !Shown(s, e, h))))
    && (StageOf(r, h).Discarding? <==> (
          ThrownAway(s, e, h) || (StageOf(s, h).Discarding? && e != DiscardSettled(h))))
    && (StageOf(r, h) == Failed(false) <==> StageOf(s, h) == Failed(false) || (Answered(s, e, h) && !e.ok))
    && (StageOf(r, h) == Failed(true) <==> (
          StageOf(s, h) == Failed(true) || (StageOf(s, h).Discarding? && e == DiscardSettled(h))))
    && (HasLive(r, h) <==> HasLive(s, h) || (Shown(s, e, h) && e.ok))
  }

  /** The call is where it was; of a live session more may have changed. */
  predicate SamePlace(s: State, r: State, h: Handle)
    requires h in s.entries
  {
    && h in r.entries && r.entries[h].id == s.entries[h].id && r.entries[h].opener == s.entries[h].opener
    && (StageOf(r, h) == StageOf(s, h) || (StageOf(r, h).Opened? && StageOf(s, h).Opened?))
  }

  predicate MovesCall(e: Event) {
    e.RuntimeArrived? || e.SnapshotArrived? || e.DiscardSettled?
  }

  lemma StaysInPlace(s: State, e: Event, h: Handle)
    requires h in s.entries && !MovesCall(e) && SamePlace(s, Step(s, e), h)
    ensures StagesExactly(s, e, h)
  {
    hide Step;
  }

  /** Where the events that move a call put it. */
  predicate MovedTo(s: State, e: Event, r: State, h: Handle)
    requires h in s.entries
  {
    if !(Answered(s, e, h) || Shown(s, e, h) || (StageOf(s, h).Discarding? && e == DiscardSettled(h))) then SamePlace(s, r, h)
    else
      && h in r.entries && r.entries[h].id == s.entries[h].id && r.entries[h].opener == s.entries[h].opener
      && match e
         case RuntimeArrived(_, ok) =>
           StageOf(r, h) == if !ok then Failed(false) else if s.closing.Open? then Snapshotting else Discarding
         case SnapshotArrived(_, ok, _, _) => if ok then StageOf(r, h).Opened? else StageOf(r, h) == Discarding
         case _ => StageOf(r, h) == Failed(true)
  }

  lemma MovesThere(s: State, e: Event, h: Handle)
    requires h in s.entries && MovesCall(e)
    ensures MovedTo(s, e, Step(s, e), h)
  {
    hide AcquireTurn, MaybeDispose, DropConnection, SweepEntry, Created, Unindexed;
  }

  lemma MovedStages(s: State, e: Event, h: Handle)
    requires h in s.entries && MovesCall(e) && MovedTo(s, e, Step(s, e), h)
    ensures StagesExactly(s, e, h)
  {
    hide Step;
  }

  lemma AskingKeeps(s: State, e: Event, h: Handle)
    requires h in s.entries && (e.Acquire? || e.OpeningObserved? || e.DisposalObserved?)
    ensures SamePlace(s, Step(s, e), h)
  {
    hide LiveOf, HasLive;
  }

  lemma LooksInPlace(s: State, h: Handle, idle: set<Handle>, k: Handle)
    requires HasLive(s, h) && k in s.entries
    ensures SamePlace(s, MaybeDispose(s, h, idle), k)
  {}

  lemma AttachKeeps(s: State, e: Event, h: Handle)
    requires h in s.entries && e.AttachConnection?
    ensures SamePlace(s, Step(s, e), h)
  {
    hide MaybeDispose;
    if e.task in s.tasks && s.tasks[e.task].Attaching? && HasLive(s, s.tasks[e.task].handle) {
      LooksInPlace(WithoutTask(s, e.task), s.tasks[e.task].handle, e.idle, h);
    }
  }

  lemma DetachKeeps(s: State, e: Event, h: Handle)
    requires h in s.entries && e.Detach?
    ensures SamePlace(s, Step(s, e), h)
  {
    hide MaybeDispose;
    if e.id in s.liveSessions && e.conn in s.connections && HasLive(s, s.liveSessions[e.id]) {
      var left, c := s.liveSessions[e.id], s.connections[e.conn];
      var s1 := s.(connections := s.connections[e.conn := c.(sessionIds := c.sessionIds - {e.id})]);
      var s2 := WithLive(s1, left, LiveOf(s, left).(connections := LiveOf(s, left).connections - {e.conn}));
      LooksInPlace(s2, left, e.idle, h);
    }
  }

  lemma FinishKeeps(s: State, e: Event, h: Handle)
    requires h in s.entries && e.FinishOperation?
    ensures SamePlace(s, Step(s, e), h)
  {
    hide MaybeDispose;
    if e.task in s.tasks && s.tasks[e.task].Operating? && HasLive(s, s.tasks[e.task].handle) {
      var k := s.tasks[e.task].handle;
      var live := LiveOf(s, k);
      LooksInPlace(WithLive(WithoutTask(s, e.task), k, live.(operationCount := live.operationCount - 1)), k, e.idle, h);
    }
  }

  lemma LookKeeps(s: State, e: Event, h: Handle)
    requires h in s.entries && (e.DetachBroadcast? || e.TerminateFinish? || e.RuntimeNotice?)
    ensures SamePlace(s, Step(s, e), h)
  {
    hide MaybeDispose;
    if e.RuntimeNotice? {
      if HasLive(s, e.handle) { LooksInPlace(s, e.handle, e.idle, h); }
    } else if e.task in s.tasks && (s.tasks[e.task].DetachBroadcasting? || s.tasks[e.task].Terminating?)
              && HasLive(s, s.tasks[e.task].handle) {
      LooksInPlace(WithoutTask(s, e.task), s.tasks[e.task].handle, e.idle, h);
    }
  }

  lemma LeaveKeeps(s: State, e: Event, h: Handle)
    requires h in s.entries && (e.Disconnect? || e.TerminateDisconnect?)
    ensures SamePlace(s, Step(s, e), h)
  {
    hide Keeps;
  }

  lemma OtherKeeps(s: State, e: Event, h: Handle)
    requires h in s.entries && (e.StartOperation? || e.RuntimeError? || e.DisposalSettled? || e.Sweep?)
    ensures SamePlace(s, Step(s, e), h)
  {
    hide AcquireTurn, MaybeDispose, DropConnection, Created, Unindexed;
  }

  lemma ClosingKeeps(s: State, e: Event, h: Handle)
    requires h in s.entries && (e.ConnectionReady? || e.RequestClose? || e.BeginDrain?)
    ensures SamePlace(s, Step(s, e), h)
  {
    hide AcquireTurn, MaybeDispose, DropConnection, Created, Unindexed, SweepEntry;
  }

  lemma StepKeeps(s: State, e: Event, h: Handle)
    requires h in s.entries && !MovesCall(e)
    ensures SamePlace(s, Step(s, e), h)
  {
    hide SamePlace, Step;
    match e
    case Acquire(_, _, _, _) => AskingKeeps(s, e, h);
    case OpeningObserved(_) => AskingKeeps(s, e, h);
    case DisposalObserved(_, _, _) => AskingKeeps(s, e, h);
    case AttachConnection(_, _, _) => AttachKeeps(s, e, h);
    case Detach(_, _, _, _) => DetachKeeps(s, e, h);
    case FinishOperation(_, _) => FinishKeeps(s, e, h);
    case DetachBroadcast(_, _, _) => LookKeeps(s, e, h);
    case TerminateFinish(_, _) => LookKeeps(s, e, h);
    case RuntimeNotice(_, _) => LookKeeps(s, e, h);
    case Disconnect(_, _) => LeaveKeeps(s, e, h);
    case TerminateDisconnect(_, _, _) => LeaveKeeps(s, e, h);
    case ConnectionReady(_) => ClosingKeeps(s, e, h);
    case RequestClose => ClosingKeeps(s, e, h);
    case BeginDrain => ClosingKeeps(s, e, h);
    case _ => OtherKeeps(s, e, h);
  }

  /** How far each call of `create` gets, in every step. */
  lemma StepStages(s: State, e: Event, h: Handle)
    requires h in s.entries
    ensures StagesExactly(s, e, h)
  {
    hide StagesExactly, SamePlace, Step;
    if MovesCall(e) {
      MovesThere(s, e, h);
      MovedStages(s, e, h);
    } else {
      StepKeeps(s, e, h);
      StaysInPlace(s, e, h);
    }
  }

  // ----- when a runtime is disposed -----

  /** The manager looks whether the session is still used: something it was used for has just come to an end. */
  predicate Looks(s: State, e: Event, h: Handle)
    requires HasLive(s, h)
  {
    match e
    case AttachConnection(t, closed, _) =>
      t in s.tasks && s.tasks[t].Attaching? && s.tasks[t].handle == h && !(CanReceive(s, s.tasks[t].conn) && !closed)
    case Detach(_, conn, _, _) =>
      Leaves(s, e, h, conn) && (LiveOf(s, h).connections - {conn} == {} || !Accepting(s, h))
    case DetachBroadcast(t, ok, _) => t in s.tasks && s.tasks[t] == DetachBroadcasting(h) && ok
    case FinishOperation(t, _) => InFlight(s, t, h)
    case RuntimeNotice(handle, _) => handle == h && LiveOf(s, h).subscribed
    case TerminateDisconnect(_, conn, _) => Leaves(s, e, h, conn)
    case Disconnect(conn, _) => Leaves(s, e, h, conn)
    case TerminateFinish(t, _) => t in s.tasks && s.tasks[t] == Terminating(h, {})
    case _ => false
  }

  /** Nobody is attached, no operation runs, and the runtime is idle or has failed. */
  predicate Unused(s: State, e: Event, h: Handle)
    requires HasLive(s, h)
  {
    var live := LiveOf(s, h);
    live.connections == {} && live.operationCount <= 0 && (live.terminal || IdleAt(e, h))
  }

  /** The last sweep of `close` disposes what is still registered. */
  predicate SweptUp(s: State, e: Event, h: Handle)
    requires HasLive(s, h)
  {
    Sweeps(s, e) && RegisteredAs(s, s.entries[h].id, h) && LiveOf(s, h).disposal == NotDisposing
  }

  /** A disposal begins. */
  predicate Begins(s: State, e: Event, h: Handle)
    requires HasLive(s, h) && HasLive(Step(s, e), h)
  {
    LiveOf(s, h).disposal == NotDisposing && s.closing.Open? && Looks(s, e, h) && Unused(Step(s, e), e, h)
  }

  predicate DisposalsExactly(s: State, e: Event, h: Handle)
    requires HasLive(s, h)
  {
    var r := Step(s, e);
    && HasLive(r, h)
    && var live, live' := LiveOf(s, h), LiveOf(r, h);
       && (live'.disposal == Disposed <==> (
             live.disposal == Disposed || (live.disposal == Disposing && e == DisposalSettled(h))))
       && (live'.disposal == NotDisposing <==> live.disposal == NotDisposing && !Begins(s, e, h))
       && (live'.subscribed <==> live.subscribed && !Begins(s, e, h) && !Fails(s, e, h) && !SweptUp(s, e, h))
       && r.entries[h].disposeCalls
          == s.entries[h].disposeCalls + if Begins(s, e, h) || SweptUp(s, e, h) then 1 else 0
  }

  lemma LookedAt(s: State, h: Handle, idle: set<Handle>, k: Handle)
    requires HasLive(s, h) && HasLive(s, k)
    ensures var r := MaybeDispose(s, h, idle); var live := LiveOf(s, k);
            && HasLive(r, k) && r.entries[k].id == s.entries[k].id
            && (var begins := k == h && s.closing.Open? && live.disposal == NotDisposing && live.connections == {}
                              && live.operationCount <= 0 && (live.terminal || h in idle);
                && LiveOf(r, k).connections == live.connections && LiveOf(r, k).operationCount == live.operationCount
                && LiveOf(r, k).terminal == live.terminal
                && LiveOf(r, k).disposal == (if begins then Disposing else live.disposal)
                && LiveOf(r, k).subscribed == (live.subscribed && !begins)
                && r.entries[k].disposeCalls == s.entries[k].disposeCalls + if begins then 1 else 0)
  {}

  /** Nothing of the disposal has changed. */
  predicate DisposalKept(s: State, r: State, h: Handle)
    requires HasLive(s, h)
  {
    && HasLive(r, h) && LiveOf(r, h).disposal == LiveOf(s, h).disposal
    && LiveOf(r, h).subscribed == LiveOf(s, h).subscribed && r.entries[h].disposeCalls == s.entries[h].disposeCalls
  }

  /** Events that have nothing to do with disposals. */
  predicate Unconcerned(e: Event) {
    e.Acquire? || e.RuntimeArrived? || e.SnapshotArrived? || e.DiscardSettled? || e.OpeningObserved? || e.DisposalObserved?
    || e.StartOperation? || e.ConnectionReady? || e.RequestClose? || e.BeginDrain?
  }

  lemma KeptAsSaid(s: State, e: Event, h: Handle)
    requires HasLive(s, h) && Unconcerned(e) && DisposalKept(s, Step(s, e), h)
    ensures DisposalsExactly(s, e, h)
  {
    hide Step;
  }

  lemma OpeningKept(s: State, e: Event, h: Handle)
    requires HasLive(s, h) && (e.RuntimeArrived? || e.SnapshotArrived? || e.DiscardSettled?)
    ensures DisposalKept(s, Step(s, e), h)
  {
    hide AcquireTurn, MaybeDispose, DropConnection, SweepEntry, Created, Unindexed;
  }

  lemma AskingKept(s: State, e: Event, h: Handle)
    requires HasLive(s, h) && (e.Acquire? || e.OpeningObserved? || e.DisposalObserved?)
    ensures DisposalKept(s, Step(s, e), h)
  {
    hide MaybeDispose, DropConnection, SweepEntry;
  }

  lemma OtherKept(s: State, e: Event, h: Handle)
    requires HasLive(s, h) && (e.StartOperation? || e.ConnectionReady? || e.RequestClose? || e.BeginDrain?)
    ensures DisposalKept(s, Step(s, e), h)
  {
    hide AcquireTurn, MaybeDispose, DropConnection, SweepEntry, Created, Unindexed;
  }

  /** A look at `k` in a state that differs from `s` only in what its end has changed. */
  predicate LookedOn(s: State, e: Event, r: State, looked: bool, h: Handle)
    requires HasLive(s, h)
  {
    && HasLive(r, h)
    && (var begins := looked && s.closing.Open? && LiveOf(s, h).disposal == NotDisposing && Unused(r, e, h);
        && LiveOf(r, h).disposal == (if begins then Disposing else LiveOf(s, h).disposal)
        && LiveOf(r, h).subscribed == (LiveOf(s, h).subscribed && !begins)
        && r.entries[h].disposeCalls == s.entries[h].disposeCalls + if begins then 1 else 0)
  }

  /** Events that end some use of a session. */
  predicate EndsUse(e: Event) {
    e.AttachConnection? || e.Detach? || e.DetachBroadcast? || e.FinishOperation? || e.RuntimeNotice? || e.TerminateFinish?
    || e.Disconnect? || e.TerminateDisconnect?
  }

  lemma LookedAsSaid(s: State, e: Event, h: Handle)
    requires HasLive(s, h) && EndsUse(e) && LookedOn(s, e, Step(s, e), Looks(s, e, h), h)
    ensures DisposalsExactly(s, e, h)
  {
    hide Step, Looks;
  }

  lemma AttachLooks(s: State, e: Event, h: Handle)
    requires HasLive(s, h) && e.AttachConnection?
    ensures LookedOn(s, e, Step(s, e), Looks(s, e, h), h)
  {
    hide MaybeDispose;
    if e.task in s.tasks && s.tasks[e.task].Attaching? && HasLive(s, s.tasks[e.task].handle) {
      LookedAt(WithoutTask(s, e.task), s.tasks[e.task].handle, e.idle, h);
    }
  }

  lemma DetachLooks(s: State, e: Event, h: Handle)
    requires HasLive(s, h) && e.Detach? && NamesOk(s)
    ensures LookedOn(s, e, Step(s, e), Looks(s, e, h), h)
  {
    hide MaybeDispose;
    if e.id in s.liveSessions && e.conn in s.connections && HasLive(s, s.liveSessions[e.id]) {
      var left, c := s.liveSessions[e.id], s.connections[e.conn];
      var s1 := s.(connections := s.connections[e.conn := c.(sessionIds := c.sessionIds - {e.id})]);
      var s2 := WithLive(s1, left, LiveOf(s, left).(connections := LiveOf(s, left).connections - {e.conn}));
      LookedAt(s2, left, e.idle, h);
    }
  }

  lemma FinishLooks(s: State, e: Event, h: Handle)
    requires HasLive(s, h) && e.FinishOperation?
    ensures LookedOn(s, e, Step(s, e), Looks(s, e, h), h)
  {
    hide MaybeDispose;
    if e.task in s.tasks && s.tasks[e.task].Operating? && HasLive(s, s.tasks[e.task].handle) {
      var k := s.tasks[e.task].handle;
      var live := LiveOf(s, k);
      LookedAt(WithLive(WithoutTask(s, e.task), k, live.(operationCount := live.operationCount - 1)), k, e.idle, h);
    }
  }

  lemma EndLooks(s: State, e: Event, h: Handle)
    requires HasLive(s, h) && (e.DetachBroadcast? || e.TerminateFinish? || e.RuntimeNotice?)
    ensures LookedOn(s, e, Step(s, e), Looks(s, e, h), h)
  {
    hide MaybeDispose;
    if e.RuntimeNotice? {
      if HasLive(s, e.handle) { LookedAt(s, e.handle, e.idle, h); }
    } else if e.task in s.tasks && (s.tasks[e.task].DetachBroadcasting? || s.tasks[e.task].Terminating?)
              && HasLive(s, s.tasks[e.task].handle) {
      LookedAt(WithoutTask(s, e.task), s.tasks[e.task].handle, e.idle, h);
    }
  }

  lemma LeaveLooks(s: State, e: Event, h: Handle)
    requires HasLive(s, h) && (e.Disconnect? || e.TerminateDisconnect?) && NamesOk(s)
    ensures LookedOn(s, e, Step(s, e), Looks(s, e, h), h)
  {
    hide AcquireTurn, MaybeDispose, SweepEntry, Created, Unindexed;
  }

  lemma ErrorDisposals(s: State, e: Event, h: Handle)
    requires HasLive(s, h) && e.RuntimeError?
    ensures DisposalsExactly(s, e, h)
  {
    hide AcquireTurn, MaybeDispose, DropConnection, SweepEntry, Created, Unindexed;
  }

  lemma SettledDisposals(s: State, e: Event, h: Handle)
    requires HasLive(s, h) && e.DisposalSettled?
    ensures DisposalsExactly(s, e, h)
  {
    hide AcquireTurn, MaybeDispose, DropConnection, SweepEntry, Created, Unindexed;
  }

  lemma SweepDisposals(s: State, e: Event, h: Handle)
    requires HasLive(s, h) && e.Sweep?
    ensures DisposalsExactly(s, e, h)
  {
    hide AcquireTurn, MaybeDispose, DropConnection, Created, Unindexed;
  }

  /** A disposal begins exactly when the manager looks at a session that is no longer used, and ends when it settles. */
  lemma StepDisposals(s: State, e: Event, h: Handle)
    requires HasLive(s, h) && NamesOk(s)
    ensures DisposalsExactly(s, e, h)
  {
    hide DisposalsExactly, DisposalKept, LookedOn, Looks, NamesOk, Step;
    if Unconcerned(e) {
      if e.RuntimeArrived? || e.SnapshotArrived? || e.DiscardSettled? {
        OpeningKept(s, e, h);
      } else if e.Acquire? || e.OpeningObserved? || e.DisposalObserved? {
        AskingKept(s, e, h);
      } else {
        OtherKept(s, e, h);
      }
      KeptAsSaid(s, e, h);
    } else if EndsUse(e) {
      UseLooks(s, e, h);
      LookedAsSaid(s, e, h);
    } else if e.RuntimeError? {
      ErrorDisposals(s, e, h);
    } else if e.DisposalSettled? {
      SettledDisposals(s, e, h);
    } else {
      SweepDisposals(s, e, h);
    }
  }

  lemma UseLooks(s: State, e: Event, h: Handle)
    requires HasLive(s, h) && EndsUse(e) && NamesOk(s)
    ensures LookedOn(s, e, Step(s, e), Looks(s, e, h), h)
  {
    hide LookedOn, Looks, NamesOk, Step;
    match e
    case AttachConnection(_, _, _) => AttachLooks(s, e, h);
    case Detach(_, _, _, _) => DetachLooks(s, e, h);
    case FinishOperation(_, _) => FinishLooks(s, e, h);
    case Disconnect(_, _) => LeaveLooks(s, e, h);
    case TerminateDisconnect(_, _, _) => LeaveLooks(s, e, h);
    case _ => EndLooks(s, e, h);
  }

  // ----- who waits for what -----

  predicate Is(s: State, t: TaskId, task: Task) {
    t in s.tasks && s.tasks[t] == task
  }

  /** A turn of the loop finds the session being opened, or opens it. */
  predicate WaitsToOpen(s: State, e: Event, t: TaskId, conn: Conn, id: SessionId, h: Handle) {
    && Turn(s, e, t, conn, id) && id !in s.liveSessions
    && (if id in s.openingSessions then s.openingSessions[id] == h else OfTurn(e) && e.handle == h)
  }

  /** A turn of the loop finds the session on its way out. */
  predicate WaitsForEnd(s: State, e: Event, t: TaskId, conn: Conn, id: SessionId, h: Handle) {
    Turn(s, e, t, conn, id) && RegisteredAs(s, id, h) && !Failing(s, h) && BeingDisposed(s, h)
  }

  /** Somebody leaves a session that others stay in; they are told before it is looked at. */
  predicate LeavesOthers(s: State, e: Event, t: TaskId, h: Handle) {
    && e.Detach? && e.task == t && HasLive(s, h) && Leaves(s, e, h, e.conn)
    && LiveOf(s, h).connections - {e.conn} != {} && Accepting(s, h)
  }

  predicate OpeningWaits(s: State, e: Event, t: TaskId, conn: Conn, id: SessionId, h: Handle) {
    Is(Step(s, e), t, WaitingOpening(conn, id, h)) <==> (
      || WaitsToOpen(s, e, t, conn, id, h)
      || (Is(s, t, WaitingOpening(conn, id, h)) && !(e == OpeningObserved(t) && Settled(s, h))))
  }

  predicate DisposalWaits(s: State, e: Event, t: TaskId, conn: Conn, id: SessionId, h: Handle) {
    Is(Step(s, e), t, WaitingDisposal(conn, id, h)) <==> (
      || WaitsForEnd(s, e, t, conn, id, h)
      || (Is(s, t, WaitingDisposal(conn, id, h))
          && !(e.DisposalObserved? && e.task == t && e.handle !in s.entries
               && HasLive(s, h) && LiveOf(s, h).disposal == Disposed)))
  }

  /** The list of those whom a failed session still has to disconnect. */
  predicate ListsExactly(s: State, e: Event, t: TaskId, h: Handle, rest: set<Conn>) {
    var r := Step(s, e);
    && (Is(r, t, DetachBroadcasting(h)) <==> (
          || LeavesOthers(s, e, t, h)
          || (Is(s, t, DetachBroadcasting(h)) && !(e.DetachBroadcast? && e.task == t && HasLive(s, h)))))
    && (Is(r, t, Terminating(h, rest)) <==> (
          || (Fails(s, e, h) && e.task == t && rest == LiveOf(s, h).connections)
          || (Shown(s, e, h) && e.ok && e.earlyError && e.task == t && rest == {})
          || (e.TerminateDisconnect? && e.task == t && e.conn !in rest && Is(s, t, Terminating(h, rest + {e.conn})))
          || (Is(s, t, Terminating(h, rest)) && !(e.TerminateDisconnect? && e.task == t && e.conn in rest)
              && !(e.TerminateFinish? && e.task == t && rest == {} && HasLive(s, h)))))
  }

  /** The call that opens a session is found under its id until the one who made it sees it settled. */
  predicate IndexExactly(s: State, e: Event, id: SessionId, h: Handle) {
    var r := Step(s, e);
    (id in r.openingSessions && r.openingSessions[id] == h) <==> (
      || ((e.Acquire? || e.DisposalObserved?) && Opens(s, e, e.task, Asker(s, e), id, h))
      || (id in s.openingSessions && s.openingSessions[id] == h
          && !(e.OpeningObserved? && e.task in s.tasks && s.tasks[e.task].WaitingOpening? && s.tasks[e.task].id == id
               && s.tasks[e.task].handle == h && Settled(s, h) && s.entries[h].opener == e.task)))
  }

  predicate TasksExactly(s: State, e: Event, t: TaskId, conn: Conn, id: SessionId, h: Handle, rest: set<Conn>) {
    && OpeningWaits(s, e, t, conn, id, h) && DisposalWaits(s, e, t, conn, id, h)
    && ListsExactly(s, e, t, h, rest) && IndexExactly(s, e, id, h)
  }

  /** What one turn of the loop leaves its task at, and that it touches no other. */
  lemma TurnTask(s: State, t: TaskId, conn: Conn, id: SessionId, h: Handle)
    requires NamesOk(s) && h !in s.entries
    ensures var r := AcquireTurn(s, t, conn, id, h);
            && (forall u | u != t :: (u in r.tasks <==> u in s.tasks) && (u in s.tasks ==> r.tasks[u] == s.tasks[u]))
            && (if id in s.liveSessions then
                  var k := s.liveSessions[id];
                  && (Failing(s, k) ==> t !in r.tasks)
                  && (!Failing(s, k) && BeingDisposed(s, k) ==> Is(r, t, WaitingDisposal(conn, id, k)))
                  && (Accepting(s, k) ==> Is(r, t, Attaching(conn, k)))
                  && (Failing(s, k) || BeingDisposed(s, k) || Accepting(s, k))
                else
                  Is(r, t, WaitingOpening(conn, id, if id in s.openingSessions then s.openingSessions[id] else h)))
            && r.openingSessions
               == if id in s.liveSessions || id in s.openingSessions then s.openingSessions else s.openingSessions[id := h]
  {}

  /** The turn that an event takes, if it takes one. */
  predicate TakesTurn(s: State, e: Event) {
    OfTurn(e) && Turn(s, e, e.task, Asker(s, e), AskedFor(s, e))
  }

  function AskedFor(s: State, e: Event): SessionId {
    if e.Acquire? then e.id
    else if e.DisposalObserved? && e.task in s.tasks && s.tasks[e.task].WaitingDisposal? then s.tasks[e.task].id
    else ""
  }

  lemma TurnTaken(s: State, e: Event)
    requires OfTurn(e)
    ensures if TakesTurn(s, e)
            then e.handle !in s.entries && Step(s, e) == AcquireTurn(s, e.task, Asker(s, e), AskedFor(s, e), e.handle)
            else Step(s, e) == s || (Step(s, e) == WithoutTask(s, e.task) && e.DisposalObserved? && !e.ok
                                     && e.task in s.tasks && s.tasks[e.task].WaitingDisposal? && e.handle !in s.entries
                                     && HasLive(s, s.tasks[e.task].handle)
                                     && LiveOf(s, s.tasks[e.task].handle).disposal == Disposed)
    ensures !TakesTurn(s, e) && Step(s, e) == s ==>
              !(e.DisposalObserved? && e.task in s.tasks && s.tasks[e.task].WaitingDisposal? && e.handle !in s.entries
                && HasLive(s, s.tasks[e.task].handle) && LiveOf(s, s.tasks[e.task].handle).disposal == Disposed)
  {
    hide AcquireTurn;
    if e.DisposalObserved? && !e.ok && e.task in s.tasks && s.tasks[e.task].WaitingDisposal? {
      assert e.task !in WithoutTask(s, e.task).tasks;
    }
  }

  lemma TurnOpens(s: State, e: Event, t: TaskId, conn: Conn, id: SessionId, h: Handle)
    requires OfTurn(e) && NamesOk(s)
    ensures OpeningWaits(s, e, t, conn, id, h)
  {
    TurnTaken(s, e);
    hide Step, AcquireTurn, Settled;
    if TakesTurn(s, e) {
      TurnTask(s, e.task, Asker(s, e), AskedFor(s, e), e.handle);
    }
  }

  lemma TurnWaits(s: State, e: Event, t: TaskId, conn: Conn, id: SessionId, h: Handle)
    requires OfTurn(e) && NamesOk(s)
    ensures DisposalWaits(s, e, t, conn, id, h)
  {
    TurnTaken(s, e);
    hide Step, AcquireTurn, Settled;
    if TakesTurn(s, e) {
      TurnTask(s, e.task, Asker(s, e), AskedFor(s, e), e.handle);
    }
  }

  lemma TurnIndex(s: State, e: Event, id: SessionId, h: Handle)
    requires OfTurn(e) && NamesOk(s)
    ensures IndexExactly(s, e, id, h)
  {
    TurnTaken(s, e);
    hide Step, AcquireTurn, Settled;
    if TakesTurn(s, e) {
      TurnTask(s, e.task, Asker(s, e), AskedFor(s, e), e.handle);
    }
  }

  // ----- the events that take no turn -----

  /** Task `t` waits as before, or does not as before. */
  predicate SameFor(s: State, r: State, t: TaskId, task: Task) {
    Is(r, t, task) <==> Is(s, t, task)
  }

  lemma WaitsKept(s: State, e: Event, t: TaskId, conn: Conn, id: SessionId, h: Handle)
    requires !OfTurn(e) && !e.OpeningObserved?
    requires SameFor(s, Step(s, e), t, WaitingOpening(conn, id, h)) && SameFor(s, Step(s, e), t, WaitingDisposal(conn, id, h))
    requires Step(s, e).openingSessions == s.openingSessions
    ensures OpeningWaits(s, e, t, conn, id, h) && DisposalWaits(s, e, t, conn, id, h) && IndexExactly(s, e, id, h)
  {
    hide Step;
  }

  /** Events that make or work off a list, or begin or end a broadcast to those who stay. */
  predicate OfList(e: Event) {
    e.RuntimeError? || e.SnapshotArrived? || e.TerminateDisconnect? || e.TerminateFinish? || e.Detach? || e.DetachBroadcast?
  }

  lemma ListsKept(s: State, e: Event, t: TaskId, h: Handle, rest: set<Conn>)
    requires !OfList(e)
    requires SameFor(s, Step(s, e), t, DetachBroadcasting(h)) && SameFor(s, Step(s, e), t, Terminating(h, rest))
    ensures ListsExactly(s, e, t, h, rest)
  {
    hide Step;
  }

  lemma ListsLeaveIndex(s: State, e: Event)
    requires OfList(e)
    ensures Step(s, e).openingSessions == s.openingSessions
  {
    hide MaybeDispose, DropConnection, SweepEntry, AcquireTurn, Created, Settled, CanOperate, CanAttach;
  }

  lemma OthersLeaveIndex(s: State, e: Event)
    requires !OfTurn(e) && !e.OpeningObserved? && !OfList(e)
    ensures Step(s, e).openingSessions == s.openingSessions
  {
    hide MaybeDispose, DropConnection, SweepEntry, AcquireTurn, Created, Settled, CanOperate, CanAttach;
  }

  lemma IndexStays(s: State, e: Event)
    requires !OfTurn(e) && !e.OpeningObserved?
    ensures Step(s, e).openingSessions == s.openingSessions
  {
    hide Step;
    if OfList(e) { ListsLeaveIndex(s, e); } else { OthersLeaveIndex(s, e); }
  }

  lemma ListsLeaveWaits(s: State, e: Event, t: TaskId, task: Task)
    requires OfList(e) && (task.WaitingOpening? || task.WaitingDisposal?)
    ensures SameFor(s, Step(s, e), t, task)
  {
    hide MaybeDispose, DropConnection, SweepEntry, AcquireTurn, Created, Settled, CanOperate, CanAttach;
  }

  lemma OthersLeaveWaits(s: State, e: Event, t: TaskId, task: Task)
    requires !OfTurn(e) && !e.OpeningObserved? && !OfList(e) && (task.WaitingOpening? || task.WaitingDisposal?)
    ensures SameFor(s, Step(s, e), t, task)
  {
    hide MaybeDispose, DropConnection, SweepEntry, AcquireTurn, Created, Settled, CanOperate, CanAttach;
  }

  /** No other event makes anybody wait, or ends a wait. */
  lemma WaitsStay(s: State, e: Event, t: TaskId, task: Task)
    requires !OfTurn(e) && !e.OpeningObserved? && (task.WaitingOpening? || task.WaitingDisposal?)
    ensures SameFor(s, Step(s, e), t, task)
  {
    hide Step, SameFor;
    if OfList(e) {
      ListsLeaveWaits(s, e, t, task);
    } else {
      OthersLeaveWaits(s, e, t, task);
    }
  }

  lemma ListsStay(s: State, e: Event, t: TaskId, h: Handle, rest: set<Conn>)
    requires !OfTurn(e) && !OfList(e)
    ensures SameFor(s, Step(s, e), t, DetachBroadcasting(h)) && SameFor(s, Step(s, e), t, Terminating(h, rest))
  {
    hide MaybeDispose, DropConnection, SweepEntry, AcquireTurn, Created, Settled, CanOperate, CanAttach;
  }

  lemma TurnLeavesLists(s: State, e: Event, t: TaskId, task: Task)
    requires OfTurn(e) && NamesOk(s) && (task.DetachBroadcasting? || task.Terminating?)
    ensures SameFor(s, Step(s, e), t, task)
  {
    TurnTaken(s, e);
    hide Step, AcquireTurn, Settled, Leaves;
    if TakesTurn(s, e) {
      TurnTask(s, e.task, Asker(s, e), AskedFor(s, e), e.handle);
    }
  }

  lemma TurnTasks(s: State, e: Event, t: TaskId, conn: Conn, id: SessionId, h: Handle, rest: set<Conn>)
    requires OfTurn(e) && NamesOk(s)
    ensures TasksExactly(s, e, t, conn, id, h, rest)
  {
    hide OpeningWaits, DisposalWaits, ListsExactly, IndexExactly, NamesOk, SameFor;
    TurnOpens(s, e, t, conn, id, h);
    TurnWaits(s, e, t, conn, id, h);
    TurnLeavesLists(s, e, t, DetachBroadcasting(h));
    TurnLeavesLists(s, e, t, Terminating(h, rest));
    ListsKept(s, e, t, h, rest);
    TurnIndex(s, e, id, h);
  }

  lemma ObservedWaits(s: State, e: Event, t: TaskId, conn: Conn, id: SessionId, h: Handle)
    requires e.OpeningObserved?
    ensures OpeningWaits(s, e, t, conn, id, h) && DisposalWaits(s, e, t, conn, id, h)
  {
    hide MaybeDispose, DropConnection, SweepEntry, AcquireTurn, Created;
  }

  lemma ObservedIndex(s: State, e: Event, id: SessionId, h: Handle)
    requires e.OpeningObserved?
    ensures IndexExactly(s, e, id, h)
  {
    hide MaybeDispose, DropConnection, SweepEntry, AcquireTurn, Created;
  }

  lemma SnapshotLists(s: State, e: Event, t: TaskId, h: Handle, rest: set<Conn>)
    requires e.SnapshotArrived?
    ensures ListsExactly(s, e, t, h, rest)
  {
    hide MaybeDispose, DropConnection, SweepEntry, AcquireTurn, Created;
  }

  lemma DetachLists(s: State, e: Event, t: TaskId, h: Handle, rest: set<Conn>)
    requires e.Detach? && NamesOk(s)
    ensures ListsExactly(s, e, t, h, rest)
  {
    hide MaybeDispose, DropConnection, SweepEntry, AcquireTurn, Created;
  }

  lemma BroadcastLists(s: State, e: Event, t: TaskId, h: Handle, rest: set<Conn>)
    requires e.DetachBroadcast?
    ensures ListsExactly(s, e, t, h, rest)
  {
    hide MaybeDispose, DropConnection, SweepEntry, AcquireTurn, Created;
  }

  lemma FailureLists(s: State, e: Event, t: TaskId, h: Handle, rest: set<Conn>)
    requires e.RuntimeError? || e.TerminateFinish?
    ensures ListsExactly(s, e, t, h, rest)
  {
    hide MaybeDispose, DropConnection, SweepEntry, AcquireTurn, Created;
  }

  lemma TerminateLists(s: State, e: Event, t: TaskId, h: Handle, rest: set<Conn>)
    requires e.TerminateDisconnect?
    ensures ListsExactly(s, e, t, h, rest)
  {
    hide MaybeDispose, DropConnection, SweepEntry, AcquireTurn, Created;
  }

  lemma StepLists(s: State, e: Event, t: TaskId, h: Handle, rest: set<Conn>)
    requires NamesOk(s) && !OfTurn(e)
    ensures ListsExactly(s, e, t, h, rest)
  {
    hide ListsExactly, NamesOk, Step, SameFor;
    match e
    case SnapshotArrived(_, _, _, _) => SnapshotLists(s, e, t, h, rest);
    case Detach(_, _, _, _) => DetachLists(s, e, t, h, rest);
    case DetachBroadcast(_, _, _) => BroadcastLists(s, e, t, h, rest);
    case RuntimeError(_, _) => FailureLists(s, e, t, h, rest);
    case TerminateFinish(_, _) => FailureLists(s, e, t, h, rest);
    case TerminateDisconnect(_, _, _) => TerminateLists(s, e, t, h, rest);
    case _ =>
      ListsStay(s, e, t, h, rest);
      ListsKept(s, e, t, h, rest);
  }

  /** Who waits for what after every step. */
  lemma StepTasks(s: State, e: Event, t: TaskId, conn: Conn, id: SessionId, h: Handle, rest: set<Conn>)
    requires NamesOk(s)
    ensures TasksExactly(s, e, t, conn, id, h, rest)
  {
    hide OpeningWaits, DisposalWaits, IndexExactly, ListsExactly, NamesOk, Step, SameFor;
    if OfTurn(e) {
      TurnTasks(s, e, t, conn, id, h, rest);
    } else {
      StepLists(s, e, t, h, rest);
      if e.OpeningObserved? {
        ObservedWaits(s, e, t, conn, id, h);
        ObservedIndex(s, e, id, h);
      } else {
        IndexStays(s, e);
        WaitsStay(s, e, t, WaitingOpening(conn, id, h));
        WaitsStay(s, e, t, WaitingDisposal(conn, id, h));
        WaitsKept(s, e, t, conn, id, h);
      }
    }
  }

  /** What holds at every step of every run. */
  lemma RunsAreExact(events: seq<Event>, e: Event, t: TaskId, conn: Conn, id: SessionId, h: Handle, rest: set<Conn>)
    ensures var s := Run(Init, events);
            && (h in s.entries ==> StagesExactly(s, e, h))
            && (HasLive(s, h) ==> DisposalsExactly(s, e, h))
            && TasksExactly(s, e, t, conn, id, h, rest)
  {
    hide Inv, Step, StagesExactly, DisposalsExactly, TasksExactly, NamesOk;
    var s := Run(Init, events);
    InitInv();
    RunInv(Init, events);
    InvNames(s);
    if h in s.entries { StepStages(s, e, h); }
    if HasLive(s, h) { StepDisposals(s, e, h); }
    StepTasks(s, e, t, conn, id, h, rest);
  }
}
