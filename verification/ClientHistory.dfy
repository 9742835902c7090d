/**
 What a client believes of its sessions after any run of events (packages/client/src/state.ts), said of the events alone
 and without the state they pass through: a session is attached if the last word about it says so.
 */
module ClientHistories {
  import opened Options
  import opened ClientStates

  // ----- which snapshot of a session is stored -----

  /** The snapshot of session `id` that an event carries. */
  function Carries(e: Event, id: SessionId): Option<SessionSnapshot> {
    match e
    case SessionSnapshotArrives(session) => if session.id == id then Some(session) else None
    case Restore(session) => if session.id == id then Some(session) else None
    case _ => None
  }

  /** Nothing after event `i` takes the snapshot of session `id` away. */
  ghost predicate SinceLetGo(events: seq<Event>, i: int, id: SessionId) {
    forall j | 0 <= j && i < j < |events| :: !LetsGo(events[j], id)
  }

  /** No event before `i` has brought a snapshot of session `id` that is still there. */
  ghost predicate FirstToCome(events: seq<Event>, i: int, id: SessionId)
    requires 0 <= i < |events|
  {
    forall j | 0 <= j < i && Carries(events[j], id).Some? :: !SinceLetGo(events[..i], j, id)
  }

  /** Event `i` brings a snapshot of session `id`; putting one back counts only where there is none. */
  ghost predicate Brings(events: seq<Event>, i: int, id: SessionId) {
    && 0 <= i < |events| && Carries(events[i], id).Some?
    && (events[i].Restore? ==> FirstToCome(events, i, id))
  }

  /** Event `i` brings a snapshot of session `id` that is not let go any more. */
  ghost predicate Counts(events: seq<Event>, i: int, id: SessionId) {
    Brings(events, i, id) && SinceLetGo(events, i, id)
  }

  /** Event `i` brought the newest snapshot of session `id` since it was last let go, and no later one is as new. */
  ghost predicate IsNewestOf(events: seq<Event>, i: int, id: SessionId) {
    && Counts(events, i, id)
    && (forall j | Counts(events, j, id) ::
          Carries(events[j], id).value.revision <= Carries(events[i], id).value.revision
          && (j > i ==> Carries(events[j], id).value.revision < Carries(events[i], id).value.revision))
  }

  /** It is stored as it came, but for the mark that a detach removes. */
  ghost predicate AsItCame(stored: SessionSnapshot, events: seq<Event>, i: int, id: SessionId)
    requires Brings(events, i, id)
  {
    var came := Carries(events[i], id).value;
    stored == if exists j :: i < j < |events| && events[j] == Detached(id) then came.(attached := false) else came
  }

  ghost predicate StoredSessionOk(s: State, events: seq<Event>, id: SessionId) {
    if id in s.sessions
    then exists i :: IsNewestOf(events, i, id) && AsItCame(s.sessions[id], events, i, id)
    else forall i :: !Counts(events, i, id)
  }

  /** What was said of the events so far still holds with one event more. */
  lemma OneMore(events: seq<Event>, id: SessionId)
    requires events != []
    ensures var before, e := events[..|events| - 1], events[|events| - 1];
            forall i | 0 <= i < |before| ::
              (SinceLetGo(events, i, id) <==> SinceLetGo(before, i, id) && !LetsGo(e, id))
              && (Brings(events, i, id) <==> Brings(before, i, id))
  {
    var before, e := events[..|events| - 1], events[|events| - 1];
    assert forall i | 0 <= i < |before| :: events[i] == before[i] && events[..i] == before[..i];
    hide LetsGo;
    forall i | 0 <= i < |before|
      ensures SinceLetGo(events, i, id) <==> SinceLetGo(before, i, id) && !LetsGo(e, id)
    {
      if SinceLetGo(events, i, id) {
        assert !LetsGo(events[|events| - 1], id);
        assert forall j | i < j < |before| :: before[j] == events[j];
      }
      if SinceLetGo(before, i, id) && !LetsGo(e, id) {
        assert forall j | i < j < |events| :: j < |before| || events[j] == e;
      }
    }
  }

  /** Where a snapshot came and has not been let go, one has been stored. */
  lemma {:induction false} SomebodyBrought(events: seq<Event>, j: nat, id: SessionId) returns (i: nat)
    requires j < |events| && Carries(events[j], id).Some? && SinceLetGo(events, j, id)
    ensures Counts(events, i, id)
    decreases j
  {
    i := j;
    if events[j].Restore? && !FirstToCome(events, j, id) {
      var k :| 0 <= k < j && Carries(events[k], id).Some? && SinceLetGo(events[..j], k, id);
      forall m | k < m < |events| ensures !LetsGo(events[m], id) {
        assert m < j ==> events[..j][m] == events[m];
      }
      i := SomebodyBrought(events, k, id);
    }
  }

  /** The newest stays the newest unless one as new comes or it is let go. */
  lemma NewestStays(events: seq<Event>, i: int, id: SessionId)
    requires events != [] && IsNewestOf(events[..|events| - 1], i, id) && !LetsGo(events[|events| - 1], id)
    ensures var n := |events| - 1;
            && 0 <= i < n && Brings(events, i, id) && events[i] == events[..n][i]
            && if Brings(events, n, id) && Carries(events[n], id).value.revision >= Carries(events[i], id).value.revision
               then IsNewestOf(events, n, id)
               else IsNewestOf(events, i, id)
  {
    var before := events[..|events| - 1];
    assert forall j | 0 <= j < |before| :: events[j] == before[j];
    StillCount(events, id);
    assert Counts(events, i, id);
    hide Counts, Brings, LetsGo, Carries;
  }

  lemma StillCount(events: seq<Event>, id: SessionId)
    requires events != [] && !LetsGo(events[|events| - 1], id)
    ensures var n := |events| - 1;
            && (forall i | 0 <= i < n :: Counts(events, i, id) <==> Counts(events[..n], i, id))
            && (Counts(events, n, id) <==> Brings(events, n, id))
            && (forall i | Counts(events, i, id) :: 0 <= i <= n && Brings(events, i, id))
            && (forall i | Counts(events[..n], i, id) :: 0 <= i < n && Brings(events[..n], i, id) && Brings(events, i, id))
  {
    OneMore(events, id);
    assert SinceLetGo(events, |events| - 1, id);
    hide SinceLetGo, LetsGo;
  }

  lemma CameAsBefore(stored: SessionSnapshot, events: seq<Event>, i: int, id: SessionId)
    requires events != [] && Brings(events[..|events| - 1], i, id) && Brings(events, i, id)
    requires AsItCame(stored, events[..|events| - 1], i, id)
    ensures AsItCame(if events[|events| - 1] == Detached(id) then stored.(attached := false) else stored, events, i, id)
  {
    var before, e := events[..|events| - 1], events[|events| - 1];
    hide FirstToCome;
    assert forall j | 0 <= j < |before| :: events[j] == before[j];
    if e == Detached(id) {
      assert i < |before| && events[|before|] == Detached(id);
    } else if exists j :: i < j < |before| && before[j] == Detached(id) {
      var j :| i < j < |before| && before[j] == Detached(id);
      assert events[j] == Detached(id);
    }
  }

  lemma LetGoSession(s: State, events: seq<Event>, id: SessionId)
    requires events != [] && LetsGo(events[|events| - 1], id)
    ensures StoredSessionOk(Step(s, events[|events| - 1]), events, id)
  {
    forall i ensures !Counts(events, i, id) {
      if Brings(events, i, id) { assert i < |events| - 1 && LetsGo(events[|events| - 1], id); }
    }
    hide Counts;
  }

  lemma FirstSession(s: State, events: seq<Event>, id: SessionId)
    requires events != [] && id !in s.sessions && StoredSessionOk(s, events[..|events| - 1], id) && KeyedById(s)
    requires !LetsGo(events[|events| - 1], id)
    ensures StoredSessionOk(Step(s, events[|events| - 1]), events, id)
  {
    var n := |events| - 1;
    var before, e := events[..n], events[n];
    OneMore(events, id);
    NothingLeft(before, id);
    forall j | 0 <= j < n && Carries(events[j], id).Some? ensures !SinceLetGo(before, j, id) {
      assert events[j] == before[j];
    }
    assert FirstToCome(events, n, id);
    StepOfSession(s, e, id);
    StillCount(events, id);
    hide LetsGo, FirstToCome, SinceLetGo, Counts;
    if Carries(e, id).Some? {
      assert Brings(events, n, id) && Counts(events, n, id);
      assert IsNewestOf(events, n, id);
      assert AsItCame(Step(s, e).sessions[id], events, n, id);
    }
  }

  lemma NothingLeft(events: seq<Event>, id: SessionId)
    requires forall i :: !Counts(events, i, id)
    ensures forall j | 0 <= j < |events| && Carries(events[j], id).Some? :: !SinceLetGo(events, j, id)
  {
    forall j | 0 <= j < |events| && Carries(events[j], id).Some?
      ensures !SinceLetGo(events, j, id)
    {
      if SinceLetGo(events, j, id) {
        var i := SomebodyBrought(events, j, id);
      }
    }
  }

  /** What a step makes of the snapshot of one session. */
  lemma StepOfSession(s: State, e: Event, id: SessionId)
    requires KeyedById(s) && !LetsGo(e, id)
    ensures var after := Step(s, e).sessions; var came := Carries(e, id);
            if id !in s.sessions then (id in after <==> came.Some?) && (came.Some? ==> after[id] == came.value)
            else
              id in after
              && after[id] == if e.SessionSnapshotArrives? && came.Some? && came.value.revision >= s.sessions[id].revision
                              then came.value
                              else if e == Detached(id) then s.sessions[id].(attached := false)
                              else s.sessions[id]
  {}

  lemma NextSession(s: State, events: seq<Event>, id: SessionId)
    requires events != [] && id in s.sessions && StoredSessionOk(s, events[..|events| - 1], id) && KeyedById(s)
    requires !LetsGo(events[|events| - 1], id)
    ensures StoredSessionOk(Step(s, events[|events| - 1]), events, id)
  {
    var n := |events| - 1;
    var before, e := events[..n], events[n];
    var i :| IsNewestOf(before, i, id) && AsItCame(s.sessions[id], before, i, id);
    NewestStays(events, i, id);
    NotTheFirst(events, i, id);
    CameAsBefore(s.sessions[id], events, i, id);
    StepOfSession(s, e, id);
    assert s.sessions[id].revision == Carries(events[i], id).value.revision;
    hide LetsGo, FirstToCome, IsNewestOf, Step;
    if e.SessionSnapshotArrives? && Carries(e, id).Some? && Carries(e, id).value.revision >= s.sessions[id].revision {
      assert Brings(events, n, id);
      assert AsItCame(Step(s, e).sessions[id], events, n, id);
    }
  }

  /** A snapshot that is there keeps another from being put back. */
  lemma NotTheFirst(events: seq<Event>, i: int, id: SessionId)
    requires events != [] && IsNewestOf(events[..|events| - 1], i, id)
    ensures events[|events| - 1].Restore? ==> !Brings(events, |events| - 1, id)
  {
    assert events[i] == events[..|events| - 1][i];
  }

  /** Which snapshot of a session is stored after a run, and how, in whatever order they came. */
  lemma {:induction false} StoredSessionIsNewest(events: seq<Event>, id: SessionId)
    ensures StoredSessionOk(Run(EMPTY, events), events, id)
    decreases |events|
  {
    hide Step, StoredSessionOk, KeyedById, LetsGo;
    if events == [] {
      NoSession(id);
    } else {
      var before := events[..|events| - 1];
      var s := Run(EMPTY, before);
      StoredSessionIsNewest(before, id);
      EmptyKeyed();
      RevisionsNeverDecrease(EMPTY, before, id);
      if LetsGo(events[|events| - 1], id) {
        LetGoSession(s, events, id);
      } else if id in s.sessions {
        NextSession(s, events, id);
      } else {
        FirstSession(s, events, id);
      }
    }
  }

  lemma NoSession(id: SessionId)
    ensures StoredSessionOk(EMPTY, [], id)
  {}

  lemma EmptyKeyed()
    ensures KeyedById(EMPTY)
  {}

  // ----- which sessions count as attached -----

  /**
   What event `i` says of session `id` being attached. A snapshot has a say only if it is the newest when it comes;
   putting a snapshot back has none.
   */
  ghost function Says(events: seq<Event>, i: nat, id: SessionId): Option<bool>
    requires i < |events|
  {
    match events[i]
    case ServerSnapshotArrives(snapshot) =>
      if IsNewest(events[..i + 1], i) then Some(SessionSummary(id, true) in snapshot.sessions) else None
    case SessionSnapshotArrives(session) =>
      if session.id == id && IsNewestOf(events[..i + 1], i, id) then Some(session.attached) else None
    case Detached(d) => if d == id then Some(false) else None
    case SessionRemoved(d) => if d == id then Some(false) else None
    case ClearAttachments => Some(false)
    case Reset => Some(false)
    case _ => None
  }

  /** Somebody has said that the session is attached, and nobody has said otherwise since. */
  ghost predicate LastWord(events: seq<Event>, id: SessionId) {
    exists i :: Stands(events, i, id)
  }

  lemma SaidBefore(events: seq<Event>, i: nat, id: SessionId)
    requires events != [] && i < |events| - 1
    ensures Says(events, i, id) == Says(events[..|events| - 1], i, id)
  {
    assert events[..i + 1] == events[..|events| - 1][..i + 1];
    hide IsNewest, IsNewestOf;
  }

  /** The word of event `i` stands. */
  ghost predicate Stands(events: seq<Event>, i: int, id: SessionId) {
    && 0 <= i < |events| && Says(events, i, id) == Some(true)
    && forall j | i < j < |events| :: Says(events, j, id) != Some(false)
  }

  lemma StandsBefore(events: seq<Event>, i: int, id: SessionId)
    requires events != [] && i < |events| - 1
    ensures Stands(events, i, id)
            <==> Stands(events[..|events| - 1], i, id) && Says(events, |events| - 1, id) != Some(false)
  {
    forall j: nat | j < |events| - 1 ensures Says(events, j, id) == Says(events[..|events| - 1], j, id) {
      SaidBefore(events, j, id);
    }
    var before, n := events[..|events| - 1], |events| - 1;
    hide Says;
    if Stands(events, i, id) {
      assert Says(events, n, id) != Some(false);
      assert Says(before, i, id) == Some(true);
      forall j | i < j < n ensures Says(before, j, id) != Some(false) {
        assert Says(events, j, id) != Some(false);
      }
    }
    if Stands(before, i, id) && Says(events, n, id) != Some(false) {
      forall j | i < j < |events| ensures Says(events, j, id) != Some(false) {
        assert j < n ==> Says(before, j, id) != Some(false);
      }
    }
  }

  lemma LastWordIs(events: seq<Event>, id: SessionId)
    requires events != []
    ensures var word := Says(events, |events| - 1, id);
            LastWord(events, id) <==> if word.Some? then word.value else LastWord(events[..|events| - 1], id)
  {
    var before, n := events[..|events| - 1], |events| - 1;
    assert Stands(events, n, id) <==> Says(events, n, id) == Some(true);
    forall i: int | i < n
      ensures Stands(events, i, id) <==> Stands(before, i, id) && Says(events, n, id) != Some(false)
    {
      StandsBefore(events, i, id);
    }
    assert forall i | Stands(events, i, id) :: i <= n;
    assert forall i | Stands(before, i, id) :: i < n;
    hide Stands, Says;
  }

  /** A server snapshot is the newest when it comes unless the stored one is newer. */
  lemma HeardOfServer(s: State, events: seq<Event>)
    requires events != [] && StoredOk(s.snapshot, events[..|events| - 1]) && events[|events| - 1].ServerSnapshotArrives?
    ensures IsNewest(events, |events| - 1)
            <==> !(s.snapshot.Some? && events[|events| - 1].snapshot.revision < s.snapshot.value.revision)
  {
    SinceResetBefore(events);
    var before, n := events[..|events| - 1], |events| - 1;
    if s.snapshot.Some? {
      var i :| IsNewest(before, i) && before[i].snapshot == s.snapshot.value;
      assert SinceReset(before, i);
      assert SinceReset(events, i);
      assert forall j | 0 <= j < n :: events[j] == before[j];
    } else {
      assert forall j | 0 <= j < n :: events[j] == before[j];
    }
  }

  /** A session snapshot is the newest of its session when it comes unless the stored one is newer. */
  lemma HeardOfSession(s: State, events: seq<Event>, id: SessionId)
    requires events != [] && StoredSessionOk(s, events[..|events| - 1], id)
    requires events[|events| - 1].SessionSnapshotArrives? && events[|events| - 1].session.id == id
    ensures IsNewestOf(events, |events| - 1, id)
            <==> !(id in s.sessions && events[|events| - 1].session.revision < s.sessions[id].revision)
  {
    var before, n := events[..|events| - 1], |events| - 1;
    StillCount(events, id);
    assert Brings(events, n, id) && Counts(events, n, id);
    if id in s.sessions {
      var i :| IsNewestOf(before, i, id) && AsItCame(s.sessions[id], before, i, id);
      NewestStays(events, i, id);
      assert Counts(events, i, id);
    } else {
      assert forall j | Counts(events, j, id) :: j == n;
    }
    hide Counts, Brings;
  }

  lemma StepListens(s: State, events: seq<Event>, id: SessionId)
    requires events != [] && KeyedById(s)
    requires StoredOk(s.snapshot, events[..|events| - 1]) && StoredSessionOk(s, events[..|events| - 1], id)
    ensures var word := Says(events, |events| - 1, id);
            id in Step(s, events[|events| - 1]).attachedIds <==> if word.Some? then word.value else id in s.attachedIds
  {
    var e := events[|events| - 1];
    assert events[..|events| - 1 + 1] == events;
    if e.ServerSnapshotArrives? { HeardOfServer(s, events); }
    if e.SessionSnapshotArrives? && e.session.id == id { HeardOfSession(s, events, id); }
    hide StoredOk, StoredSessionOk, IsNewest, IsNewestOf;
  }

  /** A session counts as attached exactly if the last word about it, in the run so far, says so. */
  lemma {:induction false} AttachedByTheLastWord(events: seq<Event>, id: SessionId)
    ensures id in Run(EMPTY, events).attachedIds <==> LastWord(events, id)
    decreases |events|
  {
    hide Step, LastWord, Says, KeyedById, StoredOk, StoredSessionOk;
    if events == [] {
      NothingSaid(id);
    } else {
      var before := events[..|events| - 1];
      AttachedByTheLastWord(before, id);
      StoredIsNewest(before);
      StoredSessionIsNewest(before, id);
      EmptyKeyed();
      RevisionsNeverDecrease(EMPTY, before, id);
      StepListens(Run(EMPTY, before), events, id);
      LastWordIs(events, id);
    }
  }

  lemma NothingSaid(id: SessionId)
    ensures !LastWord([], id)
  {}
}
