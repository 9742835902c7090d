/**
 What a client keeps of the server's snapshots (packages/client/src/state.ts). A snapshot that is older than the one
 stored is dropped; which one is stored after any run is said without the order in which they came.
 */
module ClientStates {
  import opened Options

  type SessionId = string

  datatype SessionSnapshot = SessionSnapshot(id: SessionId, revision: nat, attached: bool, body: nat)

  datatype SessionSummary = SessionSummary(id: SessionId, attached: bool)

  datatype ServerSnapshot = ServerSnapshot(revision: nat, sessions: seq<SessionSummary>)

  datatype State = State(
    snapshot: Option<ServerSnapshot>,
    sessions: map<SessionId, SessionSnapshot>,
    attachedIds: set<SessionId>)

  const EMPTY := State(None, map[], {})

  datatype Event =
    | ServerSnapshotArrives(snapshot: ServerSnapshot)
    | SessionSnapshotArrives(session: SessionSnapshot)
    | Detached(id: SessionId)
    | SessionRemoved(id: SessionId)
    | Forget(id: SessionId)
    | Restore(session: SessionSnapshot)
    | ClearAttachments
    | Reset

  /** A client drops a server snapshot that is older than the one it has. */
  predicate IsStale(stored: Option<nat>, revision: nat) {
    stored.Some? && revision < stored.value
  }

  function StoredRevision(s: State): Option<nat> {
    if s.snapshot.Some? then Some(s.snapshot.value.revision) else None
  }

  /** The sessions that a server snapshot lists as attached. */
  function AttachedIn(sessions: seq<SessionSummary>): (r: set<SessionId>)
    ensures forall id :: id in r <==> SessionSummary(id, true) in sessions
  {
    set summary | summary in sessions && summary.attached :: summary.id
  }

  function OnServerSnapshot(s: State, snapshot: ServerSnapshot): State {
    if IsStale(StoredRevision(s), snapshot.revision) then s
    else s.(snapshot := Some(snapshot), attachedIds := AttachedIn(snapshot.sessions))
  }

  function OnSessionSnapshot(s: State, session: SessionSnapshot, force: bool): State {
    if !force && session.id in s.sessions && session.revision < s.sessions[session.id].revision then s
    else
      s.(sessions := s.sessions[session.id := session],
         attachedIds := if session.attached then s.attachedIds + {session.id} else s.attachedIds - {session.id})
  }

  function OnDetached(s: State, id: SessionId): State {
    var left := s.(attachedIds := s.attachedIds - {id});
    if id in s.sessions then OnSessionSnapshot(left, s.sessions[id].(attached := false), true) else left
  }

  function Step(s: State, e: Event): State {
    match e
    case ServerSnapshotArrives(snapshot) => OnServerSnapshot(s, snapshot)
    case SessionSnapshotArrives(session) => OnSessionSnapshot(s, session, false)
    case Detached(id) => OnDetached(s, id)
    case SessionRemoved(id) => s.(sessions := s.sessions - {id}, attachedIds := s.attachedIds - {id})
    case Forget(id) => s.(sessions := s.sessions - {id})
    case Restore(session) => if session.id in s.sessions then s else s.(sessions := s.sessions[session.id := session])
    case ClearAttachments => s.(attachedIds := {})
    case Reset => EMPTY
  }

  function Run(s: State, events: seq<Event>): State {
    if events == [] then s else Step(Run(s, events[..|events| - 1]), events[|events| - 1])
  }

  /** Event `i` brought the newest server snapshot since the last reset, and no later one is as new. */
  ghost predicate IsNewest(events: seq<Event>, i: int) {
    && 0 <= i < |events| && events[i].ServerSnapshotArrives?
    && (forall j | i < j < |events| :: !events[j].Reset?)
    && (forall j | 0 <= j < |events| && events[j].ServerSnapshotArrives? && SinceReset(events, j) ::
          events[j].snapshot.revision <= events[i].snapshot.revision
          && (j > i ==> events[j].snapshot.revision < events[i].snapshot.revision))
  }

  ghost predicate SinceReset(events: seq<Event>, i: int) {
    forall j | 0 <= j && i < j < |events| :: !events[j].Reset?
  }

  ghost predicate NoSnapshot(events: seq<Event>) {
    forall i | 0 <= i < |events| && events[i].ServerSnapshotArrives? :: !SinceReset(events, i)
  }

  ghost predicate StoredOk(stored: Option<ServerSnapshot>, events: seq<Event>) {
    if stored.None? then NoSnapshot(events) else exists i :: IsNewest(events, i) && events[i].snapshot == stored.value
  }

  /** The stored server snapshot is the last among the newest since the last reset, in whatever order they came. */
  lemma {:induction false} StoredIsNewest(events: seq<Event>)
    ensures StoredOk(Run(EMPTY, events).snapshot, events)
    decreases |events|
  {
    hide Step, StoredOk;
    if events != [] {
      var before, e := events[..|events| - 1], events[|events| - 1];
      var s := Run(EMPTY, before);
      StoredIsNewest(before);
      KeepsUnlessSnapshot(s, e);
      if s.snapshot.None? {
        FirstSnapshot(s, events);
      } else {
        NextSnapshot(s, events);
      }
    } else {
      NothingStored();
    }
  }

  lemma NothingStored()
    ensures StoredOk(None, [])
  {}

  lemma FirstSnapshot(s: State, events: seq<Event>)
    requires events != [] && s.snapshot.None? && StoredOk(None, events[..|events| - 1])
    ensures StoredOk(Step(s, events[|events| - 1]).snapshot, events)
  {
    SinceResetBefore(events);
    if events[|events| - 1].ServerSnapshotArrives? {
      assert IsNewest(events, |events| - 1);
    }
  }

  lemma NextSnapshot(s: State, events: seq<Event>)
    requires events != [] && s.snapshot.Some? && StoredOk(s.snapshot, events[..|events| - 1])
    ensures StoredOk(Step(s, events[|events| - 1]).snapshot, events)
  {
    var before, e := events[..|events| - 1], events[|events| - 1];
    var i :| IsNewest(before, i) && before[i].snapshot == s.snapshot.value;
    hide IsNewest;
    if !e.Reset? {
      NewestGoesOn(events, i);
      InRange(before, i);
      KeepsUnlessSnapshot(s, e);
    } else {
      ResetForgets(events);
    }
  }

  lemma InRange(events: seq<Event>, i: int)
    requires IsNewest(events, i)
    ensures 0 <= i < |events|
  {}

  lemma ResetForgets(events: seq<Event>)
    requires events != [] && events[|events| - 1].Reset?
    ensures NoSnapshot(events)
  {}

  lemma KeepsUnlessSnapshot(s: State, e: Event)
    ensures e.Reset? || e.ServerSnapshotArrives? || Step(s, e).snapshot == s.snapshot
  {}

  lemma SinceResetBefore(events: seq<Event>)
    requires events != []
    ensures var before, e := events[..|events| - 1], events[|events| - 1];
            forall i | 0 <= i < |before| :: SinceReset(events, i) <==> SinceReset(before, i) && !e.Reset?
  {
    var before, e := events[..|events| - 1], events[|events| - 1];
    forall i | 0 <= i < |before|
      ensures SinceReset(events, i) <==> SinceReset(before, i) && !e.Reset?
    {
      assert forall j | i < j < |before| :: before[j] == events[j];
      if SinceReset(before, i) && !e.Reset? {
        assert forall j | i < j < |events| :: j < |before| || events[j] == e;
      }
      if SinceReset(events, i) {
        assert !events[|events| - 1].Reset?;
      }
    }
  }

  /** One more event leaves the newest snapshot in place, or brings one at least as new. */
  lemma NewestGoesOn(events: seq<Event>, i: int)
    requires events != [] && !events[|events| - 1].Reset? && IsNewest(events[..|events| - 1], i)
    ensures var e := events[|events| - 1];
            if e.ServerSnapshotArrives? && e.snapshot.revision >= events[i].snapshot.revision then
              IsNewest(events, |events| - 1)
            else IsNewest(events, i)
  {
    SinceResetBefore(events);
    var before, e := events[..|events| - 1], events[|events| - 1];
    assert SinceReset(before, i);
    assert forall j | 0 <= j < |before| :: before[j] == events[j];
    assert SinceReset(events, i);
  }

  // ----- what only grows -----

  predicate RevisionKept(before: Option<ServerSnapshot>, after: Option<ServerSnapshot>) {
    before.Some? ==> after.Some? && before.value.revision <= after.value.revision
  }

  /** Events that take a session's snapshot away or put an older one back. */
  predicate LetsGo(e: Event, id: SessionId) {
    e.Reset? || (e.SessionRemoved? && e.id == id) || (e.Forget? && e.id == id)
  }

  predicate SessionKept(before: State, after: State, id: SessionId) {
    id in before.sessions ==> id in after.sessions && before.sessions[id].revision <= after.sessions[id].revision
  }

  /** Every stored session snapshot is found under its own id. */
  predicate KeyedById(s: State) {
    forall id | id in s.sessions :: s.sessions[id].id == id
  }

  lemma StepKeepsRevisions(s: State, e: Event, id: SessionId)
    requires KeyedById(s)
    ensures e.Reset? || RevisionKept(s.snapshot, Step(s, e).snapshot)
    ensures LetsGo(e, id) || SessionKept(s, Step(s, e), id)
    ensures KeyedById(Step(s, e))
  {}

  /** Until a reset the stored revision never decreases, and a session's only when its snapshot is let go. */
  lemma {:induction false} RevisionsNeverDecrease(s: State, events: seq<Event>, id: SessionId)
    requires KeyedById(s)
    ensures (forall i | 0 <= i < |events| :: !events[i].Reset?) ==> RevisionKept(s.snapshot, Run(s, events).snapshot)
    ensures (forall i | 0 <= i < |events| :: !LetsGo(events[i], id)) ==> SessionKept(s, Run(s, events), id)
    ensures KeyedById(Run(s, events))
    decreases |events|
  {
    hide Step, KeyedById, LetsGo;
    if events != [] {
      var before := events[..|events| - 1];
      RevisionsNeverDecrease(s, before, id);
      assert forall i | 0 <= i < |before| :: before[i] == events[i];
      StepKeepsRevisions(Run(s, before), events[|events| - 1], id);
    }
  }

  // ----- the fields of the client -----

  class ClientState {
    var snapshot: Option<ServerSnapshot>
    var sessionSnapshots: map<SessionId, SessionSnapshot>
    var attachedSessionIds: set<SessionId>

    function View(): State
      reads this
    {
      State(snapshot, sessionSnapshots, attachedSessionIds)
    }

    constructor ()
      ensures View() == EMPTY
    {
      snapshot, sessionSnapshots, attachedSessionIds := None, map[], {};
    }

    method ApplyServerSnapshot(incoming: ServerSnapshot)
      modifies this
      ensures View() == OnServerSnapshot(old(View()), incoming)
    {
      if snapshot.Some? && incoming.revision < snapshot.value.revision {
        return;
      }
      snapshot := Some(incoming);
      attachedSessionIds := {};
      for i := 0 to |incoming.sessions|
        invariant attachedSessionIds == AttachedIn(incoming.sessions[..i])
        invariant snapshot == Some(incoming) && sessionSnapshots == old(sessionSnapshots)
      {
        if incoming.sessions[i].attached {
          attachedSessionIds := attachedSessionIds + {incoming.sessions[i].id};
        }
        assert incoming.sessions[..i + 1] == incoming.sessions[..i] + [incoming.sessions[i]];
      }
      assert incoming.sessions[..|incoming.sessions|] == incoming.sessions;
    }

    method ApplySessionSnapshot(session: SessionSnapshot, force: bool)
      modifies this`sessionSnapshots, this`attachedSessionIds
      ensures View() == OnSessionSnapshot(old(View()), session, force)
    {
      if !force && session.id in sessionSnapshots && session.revision < sessionSnapshots[session.id].revision {
        return;
      }
      sessionSnapshots := sessionSnapshots[session.id := session];
      if session.attached {
        attachedSessionIds := attachedSessionIds + {session.id};
      } else {
        attachedSessionIds := attachedSessionIds - {session.id};
      }
    }

    method ApplyDetached(id: SessionId)
      modifies this`sessionSnapshots, this`attachedSessionIds
      ensures View() == OnDetached(old(View()), id)
    {
      attachedSessionIds := attachedSessionIds - {id};
      if id in sessionSnapshots {
        ApplySessionSnapshot(sessionSnapshots[id].(attached := false), true);
      }
    }

    method Apply(e: Event)
      modifies this
      ensures View() == Step(old(View()), e)
    {
      match e
      case ServerSnapshotArrives(incoming) => ApplyServerSnapshot(incoming);
      case SessionSnapshotArrives(session) => ApplySessionSnapshot(session, false);
      case Detached(id) => ApplyDetached(id);
      case SessionRemoved(id) =>
        sessionSnapshots := sessionSnapshots - {id};
        attachedSessionIds := attachedSessionIds - {id};
      case Forget(id) => sessionSnapshots := sessionSnapshots - {id};
      case Restore(session) =>
        if session.id !in sessionSnapshots {
          sessionSnapshots := sessionSnapshots[session.id := session];
        }
      case ClearAttachments => attachedSessionIds := {};
      case Reset =>
        snapshot, sessionSnapshots, attachedSessionIds := None, map[], {};
    }
  }
}
