/**
 Who gets a lease on a session, who loses one, and what is asked of the server on the way (packages/client/src/client.ts),
 said of the tokens reserved and the promises they wait for. The results are equivalences over every step of a ledger
 whose bookkeeping is right, and name neither the test that refuses an acquisition nor the steps.
 */
module SessionGrants {
  import opened Options
  import opened SessionLeases

  /** The tokens reserved and not yet given back. */
  function Held(l: Ledger): (r: set<Token>)
    ensures forall t :: t in r <==> 0 <= t < |l.leases| && Reserved(l.leases[t], l.generation)
  {
    ReservedTokens(l.leases, l.generation)
  }

  /** An exclusive token is held by somebody. */
  predicate Locked(l: Ledger) {
    exists t :: t in Held(l) && l.leases[t].mode == Exclusive
  }

  /** A session may be shared with everybody but an exclusive holder, and held exclusively by who is alone. */
  predicate Available(l: Ledger, mode: Mode) {
    !Locked(l) && (mode == Exclusive ==> Held(l) == {})
  }

  predicate PromiseIs(l: Ledger, p: PromiseId, outcome: Outcome) {
    p < |l.promises| && l.promises[p].outcome == outcome
  }

  // ----- who comes -----

  /** The mode of the lease that a step asks for. */
  function Wants(e: Event): Option<Mode> {
    match e
    case Acquire(mode) => Some(mode)
    case Created => Some(Exclusive)
    case _ => None
  }

  predicate Comes(l: Ledger, e: Event) {
    Wants(e).Some? && Available(l, Wants(e).value)
  }

  /** The record of an exclusive lease agrees with the tokens. */
  lemma LockedOnRecord(l: Ledger)
    requires Inv(l)
    ensures l.exclusive.Some? <==> Locked(l)
    ensures l.count == 0 <==> Held(l) == {}
  {
    hide PhasesOk, EntriesOk, Wanted, DetachFirst;
    if l.exclusive.Some? {
      assert l.exclusive.value in Held(l);
    }
  }

  /** What an acquisition leaves alone: the other tokens. */
  predicate Joined(before: Ledger, after: Ledger, mode: Mode) {
    && |after.leases| == |before.leases| + 1
    && after.leases[..|before.leases|] == before.leases
    && after.leases[|before.leases|].mode == mode
    && after.generation == before.generation
  }

  lemma AcquisitionJoins(l: Ledger, mode: Mode, phase: Phase, connected: bool)
    ensures Joined(l, Reserve(l, mode, phase), mode) && Reserve(l, mode, phase).leases[|l.leases|].phase == phase
    ensures Joined(l, AfterDetach(Reserve(l, mode, phase), |l.leases|, connected), mode)
    ensures BeingAcquired(AfterDetach(Reserve(l, mode, phase), |l.leases|, connected).leases[|l.leases|].phase)
            || AfterDetach(Reserve(l, mode, phase), |l.leases|, connected).leases[|l.leases|].phase == Active(l.generation)
  {}

  lemma JoinedHeld(before: Ledger, after: Ledger, mode: Mode)
    requires Joined(before, after, mode) && Reserved(after.leases[|before.leases|], before.generation)
    ensures Held(after) == Held(before) + {|before.leases|}
  {
    hide Reserved;
    assert forall t | 0 <= t < |before.leases| :: after.leases[t] == after.leases[..|before.leases|][t];
  }

  /** The test on the count and on the record is the test on the tokens. */
  lemma RefusedExactly(l: Ledger, mode: Mode)
    requires Inv(l)
    ensures Refused(l, mode) <==> !Available(l, mode)
  {
    hide Inv;
    LockedOnRecord(l);
  }

  /**
   An acquisition is refused, and then changes nothing, exactly if an exclusive token is held or it wants to be alone
   and is not; otherwise exactly one token more is held, of the mode asked for.
   */
  lemma GrantedExactly(l: Ledger, e: Event, connected: bool)
    requires Inv(l) && Wants(e).Some?
    ensures var after := Step(l, e, connected);
            if Available(l, Wants(e).value)
            then Joined(l, after, Wants(e).value) && Held(after) == Held(l) + {|l.leases|}
            else after == l
  {
    hide Inv, Joined, Available, Refused, Held, AfterDetach, Reserve;
    var mode := Wants(e).value;
    RefusedExactly(l, mode);
    if Available(l, mode) {
      if e.Created? {
        AcquisitionJoins(l, mode, Active(l.generation), connected);
      } else if l.detachment.Some? {
        AcquisitionJoins(l, mode, AwaitDetach(l.detachment.value), connected);
      } else {
        AcquisitionJoins(l, mode, Acquiring, connected);
      }
      JoinedHeld(l, Step(l, e, connected), mode);
    }
  }

  // ----- who goes -----

  /** A step of one token: no other lease is touched. */
  predicate Moved(before: Ledger, after: Ledger, t: Token) {
    && t < |before.leases| == |after.leases|
    && (forall u | 0 <= u < |before.leases| && u != t :: after.leases[u] == before.leases[u])
    && after.leases[t].mode == before.leases[t].mode
    && after.generation == before.generation
  }

  lemma MovedHeld(before: Ledger, after: Ledger, t: Token)
    requires Moved(before, after, t)
    ensures Held(after) == Held(before) - {t} + if Reserved(after.leases[t], before.generation) then {t} else {}
  {
    hide Reserved;
  }

  /** A handle that works: its lease is active and the session known to be attached. */
  predicate Usable(l: Ledger, t: Token, connected: bool) {
    ActiveHandle(l, t) && l.attached && connected
  }

  /** What its owner waited for ends its lease: the attach failed, or the detach succeeded or is given up. */
  predicate GivesUp(l: Ledger, phase: Phase) {
    match phase
    case AwaitReconcile(r) => PromiseIs(l, r, Settled(false))
    case AwaitAttach(a) => PromiseIs(l, a, Settled(false))
    case Releasing(_, d, _) => PromiseIs(l, d, Settled(true))
    case ReleaseFailed(_, relinquish) => relinquish
    case _ => false
  }

  /** A token is given back. */
  predicate Goes(l: Ledger, e: Event, connected: bool, t: Token)
    requires t in Held(l)
  {
    match e
    case Resume(u) => u == t && GivesUp(l, l.leases[t].phase)
    case Release(u, _) => u == t && Usable(l, t, connected) && Held(l) != {t}
    case Removed => !BeingAcquired(l.leases[t].phase)
    case Dropped => !BeingAcquired(l.leases[t].phase)
    case _ => false
  }

  lemma SetMoves(l: Ledger, t: Token, phase: Phase)
    requires t < |l.leases|
    ensures Moved(l, Set(l, t, phase), t) && Set(l, t, phase).leases[t].phase == phase
    ensures Moved(l, Drop(l, t), t) && Drop(l, t).leases[t].phase == Released
  {}

  lemma StartMoves(l: Ledger, t: Token, kind: Kind, phase: Phase, connected: bool)
    requires t < |l.leases|
    ensures Moved(l, Start(l, t, kind, phase, connected), t)
    ensures Start(l, t, kind, phase, connected).leases[t].phase == phase
  {
    WithEntryOnly(Set(Send(l, kind, connected), t, phase), kind, Some(|l.promises|));
  }

  lemma AcquiringMoves(l: Ledger, t: Token, reconciled: bool, connected: bool)
    requires t < |l.leases|
    ensures Moved(l, AfterCleanup(l, t, reconciled, connected), t)
    ensures Reserved(AfterCleanup(l, t, reconciled, connected).leases[t], l.generation)
    ensures Moved(l, AfterDetach(l, t, connected), t) && Reserved(AfterDetach(l, t, connected).leases[t], l.generation)
  {
    hide Set, Start, Moved;
    SetMoves(l, t, Active(l.generation));
    StartMoves(l, t, AttachRequest, AwaitAttach(|l.promises|), connected);
    StartMoves(l, t, CleanupDetach, AwaitReconcile(|l.promises|), connected);
    if l.attachment.Some? { SetMoves(l, t, AwaitAttach(l.attachment.value)); }
    if l.reconciliation.Some? { SetMoves(l, t, AwaitReconcile(l.reconciliation.value)); }
  }

  /** Forgetting an entry moves nothing. */
  lemma MovedFrom(l: Ledger, rest: Ledger, after: Ledger, t: Token)
    requires rest.leases == l.leases && rest.generation == l.generation && Moved(rest, after, t)
    ensures Moved(l, after, t)
  {}

  lemma ResumeMoves(l: Ledger, t: Token, connected: bool)
    requires t < |l.leases|
    ensures var after := DoResume(l, t, connected);
            Moved(l, after, t)
            && (Reserved(after.leases[t], l.generation)
                <==> Reserved(l.leases[t], l.generation) && !GivesUp(l, l.leases[t].phase))
  {
    hide AfterDetach, AfterCleanup, Moved, Set, Drop;
    AcquiringMoves(l, t, false, connected);
    AcquiringMoves(l, t, true, connected);
    SetMoves(l, t, l.leases[t].phase);
    match l.leases[t].phase
    case AwaitAttach(a) =>
      var rest := l.(attachment := Without(l.attachment, a));
      SetMoves(rest, t, Active(l.generation));
      MovedFrom(l, rest, Set(rest, t, Active(l.generation)), t);
      MovedFrom(l, rest, Drop(rest, t), t);
      Unmoved(l, t);
    case Releasing(generation, d, relinquish) =>
      var rest := l.(detachment := Without(l.detachment, d));
      SetMoves(rest, t, ReleaseFailed(generation, relinquish));
      MovedFrom(l, rest, Set(rest, t, ReleaseFailed(generation, relinquish)), t);
      MovedFrom(l, rest, Drop(rest, t), t);
      Unmoved(l, t);
    case ReleaseFailed(generation, relinquish) =>
      SetMoves(l, t, Released);
      SetMoves(l, t, Active(generation));
      MovedTo(l, Drop(l, t), Drop(l, t).(cleanup := true), t);
    case _ => Unmoved(l, t);
  }

  lemma Unmoved(l: Ledger, t: Token)
    requires t < |l.leases|
    ensures Moved(l, l, t)
  {}

  lemma MovedTo(l: Ledger, rest: Ledger, after: Ledger, t: Token)
    requires rest.leases == after.leases && rest.generation == after.generation && Moved(l, rest, t)
    ensures Moved(l, after, t)
  {}

  lemma LastIsAlone(l: Ledger, t: Token)
    requires Inv(l) && t in Held(l)
    ensures l.count <= 1 <==> Held(l) == {t}
  {
    hide ExclusiveOk, PhasesOk, EntriesOk, Wanted, DetachFirst;
    if l.count <= 1 { Alone(Held(l), t); }
    assert |{t}| == 1;
  }

  lemma ReleaseMoves(l: Ledger, t: Token, relinquish: bool, connected: bool)
    requires Inv(l) && t < |l.leases|
    ensures var after := DoRelease(l, t, relinquish, connected);
            Moved(l, after, t)
            && (t in Held(l) ==>
                  (Reserved(after.leases[t], l.generation) <==> !Goes(l, Release(t, relinquish), connected, t)))
            && (t !in Held(l) ==> !Reserved(after.leases[t], l.generation))
  {
    if t in Held(l) { LastIsAlone(l, t); }
    hide Inv;
  }

  lemma InvalidatedHeld(l: Ledger)
    requires PhasesOk(l.leases, l.generation, l.promises)
    ensures Held(Invalidate(l)) == set t | t in Held(l) && BeingAcquired(l.leases[t].phase)
  {
    forall t | 0 <= t < |l.leases|
      ensures Reserved(l.leases[t], l.generation + 1) <==> BeingAcquired(l.leases[t].phase)
    {
      assert PhaseOk(l.leases[t].phase, l.generation, l.promises);
    }
  }

  /** The leases go on as they are. */
  lemma UntouchedHeld(before: Ledger, after: Ledger)
    requires after.leases == before.leases && after.generation == before.generation
    ensures Held(after) == Held(before)
  {}

  lemma KeepsAll(l: Ledger, e: Event, connected: bool)
    requires e.Respond? || e.Continue? || e.Observed?
    ensures Step(l, e, connected).leases == l.leases && Step(l, e, connected).generation == l.generation
  {}

  lemma StrayToken(l: Ledger, t: Token, connected: bool)
    requires t >= |l.leases|
    ensures DoResume(l, t, connected) == l && forall relinquish :: DoRelease(l, t, relinquish, connected) == l
  {}

  ghost predicate HeldAsSaid(l: Ledger, e: Event, connected: bool, after: Ledger) {
    && |after.leases| == |l.leases| + (if Comes(l, e) then 1 else 0)
    && (forall t | 0 <= t < |l.leases| :: after.leases[t].mode == l.leases[t].mode)
    && Held(after) == (set t | t in Held(l) && !Goes(l, e, connected, t)) + if Comes(l, e) then {|l.leases|} else {}
  }

  lemma JoinedAsSaid(l: Ledger, e: Event, connected: bool, after: Ledger)
    requires Comes(l, e) && Joined(l, after, Wants(e).value) && Held(after) == Held(l) + {|l.leases|}
    ensures HeldAsSaid(l, e, connected, after)
  {
    hide Held, Available;
    forall t | 0 <= t < |l.leases| ensures after.leases[t] == l.leases[t] {
      assert after.leases[t] == after.leases[..|l.leases|][t];
    }
  }

  lemma RefusedAsSaid(l: Ledger, e: Event, connected: bool)
    requires Wants(e).Some? && !Comes(l, e)
    ensures HeldAsSaid(l, e, connected, l)
  {
    hide Held, Available;
  }

  lemma AcquiredAsSaid(l: Ledger, e: Event, connected: bool)
    requires Inv(l) && Wants(e).Some?
    ensures HeldAsSaid(l, e, connected, Step(l, e, connected))
  {
    hide Inv, Step, Available, Joined, Held, HeldAsSaid;
    GrantedExactly(l, e, connected);
    if Comes(l, e) {
      JoinedAsSaid(l, e, connected, Step(l, e, connected));
    } else {
      RefusedAsSaid(l, e, connected);
    }
  }

  lemma MovedAsSaid(l: Ledger, e: Event, connected: bool, t: Token, after: Ledger)
    requires (e.Resume? || e.Release?) && e.token == t && Moved(l, after, t)
    requires Reserved(after.leases[t], l.generation) <==> t in Held(l) && !Goes(l, e, connected, t)
    ensures HeldAsSaid(l, e, connected, after)
  {
    MovedHeld(l, after, t);
    hide Held, GivesUp, Usable, Reserved;
  }

  /** Losing the connection, or the session, leaves only those who have not got their handle yet. */
  lemma DropsHolders(l: Ledger, e: Event, connected: bool)
    requires Inv(l) && (e.Removed? || e.Dropped?)
    ensures var after := Step(l, e, connected);
            after.leases == l.leases && Held(after) == set t | t in Held(l) && BeingAcquired(l.leases[t].phase)
  {
    LockedOnRecord(l);
    hide ExclusiveOk, EntriesOk, Wanted, DetachFirst;
    InvalidatedHeld(l);
    hide PhasesOk, Held, Rejected;
    UntouchedHeld(if e.Removed? || l.count > 0 then Invalidate(l) else l, Step(l, e, connected));
  }

  lemma InvalidatedAsSaid(l: Ledger, e: Event, connected: bool)
    requires Inv(l) && (e.Removed? || e.Dropped?)
    ensures HeldAsSaid(l, e, connected, Step(l, e, connected))
  {
    hide Inv, Step, Held;
    DropsHolders(l, e, connected);
  }

  /** Exactly the tokens that go are given back, and exactly the one that comes is added. */
  lemma HeldExactly(l: Ledger, e: Event, connected: bool)
    requires Inv(l)
    ensures HeldAsSaid(l, e, connected, Step(l, e, connected))
  {
    hide Inv, HeldAsSaid, DoResume, DoRelease, Moved, Held, Usable, GivesUp;
    match e
    case Acquire(_) => AcquiredAsSaid(l, e, connected);
    case Created => AcquiredAsSaid(l, e, connected);
    case Resume(t) =>
      if t < |l.leases| {
        ResumeMoves(l, t, connected);
        MovedAsSaid(l, e, connected, t, Step(l, e, connected));
      } else {
        StrayToken(l, t, connected);
        NothingHappens(l, e, connected);
      }
    case Release(t, relinquish) =>
      if t < |l.leases| {
        ReleaseMoves(l, t, relinquish, connected);
        MovedAsSaid(l, e, connected, t, Step(l, e, connected));
      } else {
        StrayToken(l, t, connected);
        NothingHappens(l, e, connected);
      }
    case Removed => InvalidatedAsSaid(l, e, connected);
    case Dropped => InvalidatedAsSaid(l, e, connected);
    case _ =>
      KeepsAll(l, e, connected);
      KeptAsSaid(l, e, connected);
  }

  lemma NothingHappens(l: Ledger, e: Event, connected: bool)
    requires (e.Resume? || e.Release?) && e.token >= |l.leases|
    ensures HeldAsSaid(l, e, connected, l)
  {}

  lemma KeptAsSaid(l: Ledger, e: Event, connected: bool)
    requires e.Respond? || e.Continue? || e.Observed?
    ensures HeldAsSaid(l, e, connected, Step(l, e, connected))
  {
    KeepsAll(l, e, connected);
    UntouchedHeld(l, Step(l, e, connected));
    hide Step, Held;
  }

  // ----- what an acquisition waits for -----

  /** Token `t` gets past any detach of its session in this step. */
  predicate Past(l: Ledger, e: Event, t: Token) {
    if t < |l.leases| then e == Resume(t) && l.leases[t].phase.AwaitDetach? && IsSettled(l, l.leases[t].phase.detachment)
    else t == |l.leases| && e.Acquire? && Comes(l, e) && l.detachment.None?
  }

  /** Token `t` has seen the cleanup it waited for succeed. */
  predicate Cleansed(l: Ledger, e: Event, t: Token) {
    && t < |l.leases| && e == Resume(t) && l.leases[t].phase.AwaitReconcile?
    && PromiseIs(l, l.leases[t].phase.reconciliation, Settled(true))
  }

  predicate NeedsAttach(l: Ledger, e: Event, t: Token) {
    (Past(l, e, t) && !l.cleanup && !l.attached) || Cleansed(l, e, t)
  }

  predicate NeedsCleanup(l: Ledger, e: Event, t: Token) {
    Past(l, e, t) && l.cleanup
  }

  predicate NeedsDetach(l: Ledger, e: Event, t: Token) {
    t == |l.leases| && e.Acquire? && Comes(l, e) && l.detachment.Some?
  }

  /** Token `t` gets its handle, or gets it back. */
  predicate Begins(l: Ledger, e: Event, t: Token) {
    || (Past(l, e, t) && !l.cleanup && l.attached)
    || (t == |l.leases| && e.Created? && Comes(l, e))
    || (t < |l.leases| && e == Resume(t) && match l.leases[t].phase {
                                              case AwaitAttach(a) => PromiseIs(l, a, Settled(true))
                                              case ReleaseFailed(g, relinquish) => g == l.generation && !relinquish
                                              case _ => false
                                            })
  }

  /** The detach that a release sent has failed. */
  predicate FailsToDetach(l: Ledger, e: Event, t: Token) {
    t < |l.leases| && e == Resume(t) && l.leases[t].phase.Releasing?
    && PromiseIs(l, l.leases[t].phase.detachment, Settled(false))
  }

  /** The last holder releases its handle. */
  predicate Detaches(l: Ledger, e: Event, connected: bool, t: Token) {
    e.Release? && e.token == t && Usable(l, t, connected) && Held(l) == {t}
  }

  /** A lease ends: it is given back, or was overtaken by an invalidation. */
  predicate Ends(l: Ledger, e: Event, connected: bool, t: Token) {
    t < |l.leases|
    && ((e == Resume(t) && (GivesUp(l, l.leases[t].phase) || (l.leases[t].phase.ReleaseFailed? && Overtaken(l, t))))
        || (e.Release? && e.token == t && Usable(l, t, connected) && Held(l) != {t}))
  }

  predicate Overtaken(l: Ledger, t: Token) {
    t < |l.leases| && l.leases[t].phase.ReleaseFailed? && l.leases[t].phase.generation != l.generation
  }

  /** What token `t` does next, by what it has seen. */
  ghost predicate PhaseAsSaid(l: Ledger, e: Event, connected: bool, t: Token, after: Ledger)
    requires t < |after.leases|
  {
    var phase := after.leases[t].phase;
    && (Begins(l, e, t) ==> phase == Active(l.generation))
    && (NeedsAttach(l, e, t) ==> after.attachment.Some? && phase == AwaitAttach(after.attachment.value))
    && (NeedsCleanup(l, e, t) ==> after.reconciliation.Some? && phase == AwaitReconcile(after.reconciliation.value))
    && (NeedsDetach(l, e, t) ==> l.detachment.Some? && phase == AwaitDetach(l.detachment.value))
    && (FailsToDetach(l, e, t) ==>
          phase == ReleaseFailed(l.leases[t].phase.generation, l.leases[t].phase.relinquish))
    && (Detaches(l, e, connected, t) ==> phase == Releasing(l.generation, |l.promises|, e.relinquish))
    && (Ends(l, e, connected, t) ==> phase == Released)
    && (t < |l.leases| && !Begins(l, e, t) && !NeedsAttach(l, e, t) && !NeedsCleanup(l, e, t)
        && !FailsToDetach(l, e, t) && !Detaches(l, e, connected, t) && !Ends(l, e, connected, t) ==>
          phase == l.leases[t].phase)
  }

  lemma AcquirePhases(l: Ledger, e: Event, connected: bool)
    requires Inv(l) && Wants(e).Some?
    ensures var after := Step(l, e, connected);
            forall t | 0 <= t < |after.leases| :: PhaseAsSaid(l, e, connected, t, after)
  {
    hide Inv, Available, Refused, Held;
    var mode := Wants(e).value;
    RefusedExactly(l, mode);
    if Available(l, mode) {
      GrantedExactly(l, e, connected);
      var after := Step(l, e, connected);
      forall t | 0 <= t < |l.leases| ensures after.leases[t] == l.leases[t] {
        assert after.leases[t] == after.leases[..|l.leases|][t];
      }
    }
  }

  lemma CleanPhase(l: Ledger, t: Token, reconciled: bool, connected: bool)
    requires t < |l.leases|
    ensures var after := AfterCleanup(l, t, reconciled, connected);
            t < |after.leases|
            && if !reconciled && l.attached then after.leases[t].phase == Active(l.generation)
               else after.attachment.Some? && after.leases[t].phase == AwaitAttach(after.attachment.value)
  {}

  lemma DetachedPhase(l: Ledger, t: Token, connected: bool)
    requires t < |l.leases|
    ensures var after := AfterDetach(l, t, connected);
            t < |after.leases|
            && if l.cleanup
               then after.reconciliation.Some? && after.leases[t].phase == AwaitReconcile(after.reconciliation.value)
               else if l.attached then after.leases[t].phase == Active(l.generation)
               else after.attachment.Some? && after.leases[t].phase == AwaitAttach(after.attachment.value)
  {
    hide AfterCleanup;
    CleanPhase(l, t, false, connected);
  }

  /** An acquisition goes on after its detach or its cleanup. */
  lemma AcquirerPhase(l: Ledger, t: Token, connected: bool)
    requires t < |l.leases| && (Past(l, Resume(t), t) || Cleansed(l, Resume(t), t))
    ensures var after := DoResume(l, t, connected);
            t < |after.leases| && PhaseAsSaid(l, Resume(t), connected, t, after)
  {
    hide Comes, Held, AfterDetach, AfterCleanup, Usable;
    DetachedPhase(l, t, connected);
    CleanPhase(l, t, true, connected);
  }

  lemma ResumePhase(l: Ledger, t: Token, connected: bool)
    requires t < |l.leases|
    ensures var after := DoResume(l, t, connected);
            t < |after.leases| && PhaseAsSaid(l, Resume(t), connected, t, after)
  {
    if Past(l, Resume(t), t) || Cleansed(l, Resume(t), t) {
      AcquirerPhase(l, t, connected);
    } else {
      OtherPhase(l, t, connected);
    }
  }

  lemma OtherPhase(l: Ledger, t: Token, connected: bool)
    requires t < |l.leases| && !Past(l, Resume(t), t) && !Cleansed(l, Resume(t), t)
    ensures var after := DoResume(l, t, connected);
            t < |after.leases| && PhaseAsSaid(l, Resume(t), connected, t, after)
  {
    hide Comes, Held, AfterDetach, AfterCleanup, Usable, Set, Drop;
    var phase := l.leases[t].phase;
    if phase.Releasing? {
      SetMoves(l.(detachment := Without(l.detachment, phase.detachment)), t,
               ReleaseFailed(phase.generation, phase.relinquish));
    } else if phase.AwaitAttach? {
      SetMoves(l.(attachment := Without(l.attachment, phase.attachment)), t, Active(l.generation));
    } else {
      SetMoves(l, t, Active(l.generation));
      SetMoves(l, t, Released);
    }
  }

  lemma OtherPhases(l: Ledger, e: Event, connected: bool, t: Token, after: Ledger)
    requires (e.Resume? || e.Release?) && e.token != t && t < |l.leases| <= |after.leases|
    requires after.leases[t] == l.leases[t]
    ensures PhaseAsSaid(l, e, connected, t, after)
  {
    hide Held;
  }

  lemma ReleasePhase(l: Ledger, t: Token, relinquish: bool, connected: bool)
    requires Inv(l) && t < |l.leases|
    ensures var after := DoRelease(l, t, relinquish, connected);
            t < |after.leases| && PhaseAsSaid(l, Release(t, relinquish), connected, t, after)
  {
    if t in Held(l) { LastIsAlone(l, t); }
    hide Inv;
  }

  /** Every token does next what it should, in every step. */
  lemma PhasesExactly(l: Ledger, e: Event, connected: bool)
    requires Inv(l)
    ensures var after := Step(l, e, connected);
            forall t | 0 <= t < |after.leases| :: PhaseAsSaid(l, e, connected, t, after)
  {
    hide Inv, DoResume, DoRelease, Moved, Held, Usable, GivesUp, Available, PhaseAsSaid;
    var after := Step(l, e, connected);
    if Wants(e).Some? {
      AcquirePhases(l, e, connected);
    } else if (e.Resume? || e.Release?) && e.token < |l.leases| {
      if e.Resume? {
        ResumeMoves(l, e.token, connected);
        ResumePhase(l, e.token, connected);
      } else {
        ReleaseMoves(l, e.token, e.relinquish, connected);
        ReleasePhase(l, e.token, e.relinquish, connected);
      }
      MovedElsewhere(l, after, e.token);
      forall t | 0 <= t < |after.leases| && t != e.token ensures PhaseAsSaid(l, e, connected, t, after) {
        OtherPhases(l, e, connected, t, after);
      }
    } else {
      LeasesStay(l, e, connected);
      forall t | 0 <= t < |after.leases| ensures PhaseAsSaid(l, e, connected, t, after) {
        NoPhases(l, e, connected, t, after);
      }
    }
  }

  lemma MovedElsewhere(before: Ledger, after: Ledger, t: Token)
    requires Moved(before, after, t)
    ensures |after.leases| == |before.leases|
    ensures forall u | 0 <= u < |before.leases| && u != t :: after.leases[u] == before.leases[u]
  {}

  predicate Moves(l: Ledger, e: Event) {
    Wants(e).Some? || ((e.Resume? || e.Release?) && e.token < |l.leases|)
  }

  lemma LeasesStay(l: Ledger, e: Event, connected: bool)
    requires !Moves(l, e)
    ensures Step(l, e, connected).leases == l.leases
  {}

  lemma NoPhases(l: Ledger, e: Event, connected: bool, t: Token, after: Ledger)
    requires !Moves(l, e) && after.leases == l.leases && t < |l.leases|
    ensures PhaseAsSaid(l, e, connected, t, after)
  {
    hide Held;
  }

  // ----- what is asked of the server, and what is known of the session -----

  /** The token that a step may move on. */
  function Mover(l: Ledger, e: Event): Token {
    match e
    case Resume(t) => t
    case Release(t, _) => t
    case _ => |l.leases|
  }

  /** A request is sent: for an attach or a cleanup that nobody else waits for, or for the last detach. */
  predicate Asks(l: Ledger, e: Event, connected: bool, kind: Kind) {
    match kind
    case AttachRequest => NeedsAttach(l, e, Mover(l, e)) && l.attachment.None?
    case CleanupDetach => NeedsCleanup(l, e, Mover(l, e)) && l.reconciliation.None?
    case LeaseDetach => Detaches(l, e, connected, Mover(l, e))
  }

  /** The entry of a request that has settled is removed by who waited for it. */
  predicate Forgets(l: Ledger, e: Event, kind: Kind) {
    match kind
    case AttachRequest =>
      e.Resume? && e.token < |l.leases| && l.leases[e.token].phase.AwaitAttach?
      && IsSettled(l, l.leases[e.token].phase.attachment) && l.attachment == Some(l.leases[e.token].phase.attachment)
    case LeaseDetach =>
      e.Resume? && e.token < |l.leases| && l.leases[e.token].phase.Releasing?
      && IsSettled(l, l.leases[e.token].phase.detachment) && l.detachment == Some(l.leases[e.token].phase.detachment)
    case CleanupDetach =>
      e.Continue? && e.promise < |l.promises| && l.promises[e.promise].kind == CleanupDetach
      && (l.promises[e.promise].outcome == Answered(false) || l.promises[e.promise].outcome == Cleaned)
  }

  function OutcomeAfter(l: Ledger, e: Event, p: PromiseId): Outcome
    requires p < |l.promises|
  {
    var outcome := l.promises[p].outcome;
    match outcome
    case Pending =>
      if e.Respond? && e.promise == p then Answered(e.ok) else if e.Dropped? then Answered(false) else outcome
    case Answered(ok) =>
      if e != Continue(p) then outcome else if l.promises[p].kind == CleanupDetach && ok then Cleaned else Settled(ok)
    case Cleaned => if e == Continue(p) then Settled(true) else outcome
    case Settled(_) => outcome
  }

  ghost predicate RequestsAsSaid(l: Ledger, e: Event, connected: bool, after: Ledger) {
    && (|after.promises| == |l.promises| || |after.promises| == |l.promises| + 1)
    && (forall p | 0 <= p < |l.promises| ::
          after.promises[p] == Promise(l.promises[p].kind, OutcomeAfter(l, e, p)))
    && (|after.promises| > |l.promises| ==> Asks(l, e, connected, after.promises[|l.promises|].kind))
    && (forall kind ::
          if Asks(l, e, connected, kind)
          then |after.promises| == |l.promises| + 1
               && after.promises[|l.promises|] == Promise(kind, if connected then Pending else Answered(false))
               && EntryOf(after, kind) == Some(|l.promises|)
          else EntryOf(after, kind) == if Forgets(l, e, kind) then None else EntryOf(l, kind))
  }

  /** A failed detach of a lease that was disposed of leaves a note; a successful cleanup removes it. */
  predicate CleanupAsSaid(l: Ledger, e: Event, after: Ledger) {
    after.cleanup <==> (
      || (e.Resume? && e.token < |l.leases| && l.leases[e.token].phase.ReleaseFailed?
          && l.leases[e.token].phase.relinquish && !Overtaken(l, e.token))
      || (l.cleanup && !e.Removed? && !e.Dropped?
          && !(e.Continue? && e.promise < |l.promises| && l.promises[e.promise] == Promise(CleanupDetach, Answered(true)))))
  }

  /** The session counts as attached by what the server said last, and not without a connection. */
  predicate AttachedAsSaid(l: Ledger, e: Event, after: Ledger) {
    after.attached <==>
      match e
      case Respond(p, true, attached) =>
        if PromiseIs(l, p, Pending) then l.promises[p].kind == AttachRequest && attached else l.attached
      case Observed(attached) => attached
      case Removed => false
      case Dropped => false
      case _ => l.attached
  }

  predicate GenerationAsSaid(l: Ledger, e: Event, after: Ledger) {
    after.generation == l.generation + if e.Removed? || (e.Dropped? && Held(l) != {}) then 1 else 0
  }

  ghost predicate KnownAsSaid(l: Ledger, e: Event, connected: bool, after: Ledger) {
    RequestsAsSaid(l, e, connected, after) && CleanupAsSaid(l, e, after) && AttachedAsSaid(l, e, after)
    && GenerationAsSaid(l, e, after)
  }

  /** Nothing is sent. */
  lemma Quiet(l: Ledger, e: Event, connected: bool, after: Ledger)
    requires Wants(e).Some? || e.Resume? || e.Release?
    requires forall kind :: !Asks(l, e, connected, kind)
    requires forall kind :: EntryOf(after, kind) == if Forgets(l, e, kind) then None else EntryOf(l, kind)
    requires after.promises == l.promises && after.attached == l.attached && after.generation == l.generation
    requires CleanupAsSaid(l, e, after)
    ensures KnownAsSaid(l, e, connected, after)
  {
    hide Asks, Forgets, CleanupAsSaid, Held;
  }

  /** One request is sent. */
  lemma Asked(l: Ledger, e: Event, connected: bool, after: Ledger, asked: Kind)
    requires Wants(e).Some? || e.Resume? || e.Release?
    requires forall kind :: (Asks(l, e, connected, kind) <==> kind == asked) && !Forgets(l, e, kind)
    requires after.promises == l.promises + [Promise(asked, if connected then Pending else Answered(false))]
    requires forall kind :: EntryOf(after, kind) == if kind == asked then Some(|l.promises|) else EntryOf(l, kind)
    requires after.attached == l.attached && after.generation == l.generation && after.cleanup == l.cleanup
    requires !(e.Resume? && e.token < |l.leases| && l.leases[e.token].phase.ReleaseFailed?)
    ensures KnownAsSaid(l, e, connected, after)
  {
    hide Asks, Forgets, Held;
  }

  /** What going on with an acquisition changes beside its lease. */
  predicate WentOn(l: Ledger, after: Ledger, connected: bool, asks: bool, kind: Kind) {
    && after.cleanup == l.cleanup && after.attached == l.attached && after.generation == l.generation
    && (if asks
        then after.promises == l.promises + [Promise(kind, if connected then Pending else Answered(false))]
        else after.promises == l.promises)
    && forall k :: EntryOf(after, k) == if asks && k == kind then Some(|l.promises|) else EntryOf(l, k)
  }

  lemma GoesOnFrom(l: Ledger, t: Token, connected: bool)
    requires t < |l.leases|
    ensures forall reconciled ::
              WentOn(l, AfterCleanup(l, t, reconciled, connected), connected,
                     (reconciled || !l.attached) && l.attachment.None?, AttachRequest)
    ensures if l.cleanup
            then WentOn(l, AfterDetach(l, t, connected), connected, l.reconciliation.None?, CleanupDetach)
            else WentOn(l, AfterDetach(l, t, connected), connected, !l.attached && l.attachment.None?, AttachRequest)
  {}

  lemma AcquireKnows(l: Ledger, e: Event, connected: bool)
    requires Inv(l) && Wants(e).Some?
    ensures KnownAsSaid(l, e, connected, Step(l, e, connected))
  {
    hide Inv, Available, Refused, AfterDetach, KnownAsSaid, CleanupAsSaid;
    var mode, after := Wants(e).value, Step(l, e, connected);
    RefusedExactly(l, mode);
    assert CleanupAsSaid(l, e, after) by { AcquireKeepsNote(l, e, connected); }
    if e.Acquire? && Available(l, mode) && l.detachment.None? {
      GoesOnFrom(Reserve(l, mode, Acquiring), |l.leases|, connected);
      if l.cleanup && l.reconciliation.None? {
        Asked(l, e, connected, after, CleanupDetach);
      } else if !l.cleanup && !l.attached && l.attachment.None? {
        Asked(l, e, connected, after, AttachRequest);
      } else {
        Quiet(l, e, connected, after);
      }
    } else {
      Quiet(l, e, connected, after);
    }
  }

  lemma AcquireKeepsNote(l: Ledger, e: Event, connected: bool)
    requires Wants(e).Some?
    ensures CleanupAsSaid(l, e, Step(l, e, connected))
  {}

  lemma AnswersAskNothing(l: Ledger, e: Event, connected: bool)
    requires e.Respond? || e.Continue? || e.Observed?
    ensures forall kind :: !Asks(l, e, connected, kind)
  {}

  lemma ResponseSettles(l: Ledger, p: PromiseId, ok: bool, attached: bool)
    ensures var after := DoRespond(l, p, ok, attached).promises;
            && |after| == |l.promises|
            && forall q | 0 <= q < |l.promises| ::
                 after[q] == Promise(l.promises[q].kind, OutcomeAfter(l, Respond(p, ok, attached), q))
  {}

  lemma ResponseMarks(l: Ledger, p: PromiseId, ok: bool, attached: bool)
    ensures var after := DoRespond(l, p, ok, attached);
            && after.generation == l.generation && after.cleanup == l.cleanup
            && AttachedAsSaid(l, Respond(p, ok, attached), after) && forall kind :: EntryOf(after, kind) == EntryOf(l, kind)
  {}

  lemma ResponseKnows(l: Ledger, p: PromiseId, ok: bool, attached: bool, connected: bool)
    ensures KnownAsSaid(l, Respond(p, ok, attached), connected, DoRespond(l, p, ok, attached))
  {
    hide Held, Asks, OutcomeAfter, AttachedAsSaid, DoRespond;
    AnswersAskNothing(l, Respond(p, ok, attached), connected);
    ResponseSettles(l, p, ok, attached);
    ResponseMarks(l, p, ok, attached);
  }

  lemma ContinuationSettles(l: Ledger, p: PromiseId)
    ensures var after := DoContinue(l, p).promises;
            && |after| == |l.promises|
            && forall q | 0 <= q < |l.promises| :: after[q] == Promise(l.promises[q].kind, OutcomeAfter(l, Continue(p), q))
  {}

  lemma ContinuationForgets(l: Ledger, p: PromiseId, kind: Kind)
    requires OnlyCleanupsCleaned(l.promises)
    ensures EntryOf(DoContinue(l, p), kind) == if Forgets(l, Continue(p), kind) then None else EntryOf(l, kind)
  {}

  lemma ContinuationMarks(l: Ledger, p: PromiseId)
    ensures var after := DoContinue(l, p);
            after.generation == l.generation && after.attached == l.attached && CleanupAsSaid(l, Continue(p), after)
  {}

  lemma ContinuationKnows(l: Ledger, p: PromiseId, connected: bool)
    requires OnlyCleanupsCleaned(l.promises)
    ensures KnownAsSaid(l, Continue(p), connected, DoContinue(l, p))
  {
    hide Held, Asks, Forgets, OutcomeAfter, CleanupAsSaid, DoContinue, OnlyCleanupsCleaned;
    AnswersAskNothing(l, Continue(p), connected);
    ContinuationSettles(l, p);
    ContinuationMarks(l, p);
    forall kind ensures EntryOf(DoContinue(l, p), kind) == if Forgets(l, Continue(p), kind) then None else EntryOf(l, kind) {
      ContinuationForgets(l, p, kind);
    }
  }

  lemma ObservationKnows(l: Ledger, attached: bool, connected: bool)
    ensures KnownAsSaid(l, Observed(attached), connected, l.(attached := attached))
  {
    hide Held, Asks;
    AnswersAskNothing(l, Observed(attached), connected);
  }

  lemma RemovalKnows(l: Ledger, connected: bool)
    ensures KnownAsSaid(l, Removed, connected, Step(l, Removed, connected))
  {
    hide Held;
  }

  lemma DropKnows(l: Ledger, connected: bool)
    requires l.count == 0 <==> Held(l) == {}
    ensures KnownAsSaid(l, Dropped, connected, Step(l, Dropped, connected))
  {
    hide Held;
  }

  lemma ReleaseKnows(l: Ledger, t: Token, relinquish: bool, connected: bool)
    requires Inv(l)
    ensures KnownAsSaid(l, Release(t, relinquish), connected, DoRelease(l, t, relinquish, connected))
  {
    if t in Held(l) { LastIsAlone(l, t); }
    var e, after := Release(t, relinquish), DoRelease(l, t, relinquish, connected);
    assert t < |l.leases| && l.leases[t].phase == Active(l.generation) ==> t in Held(l);
    hide Inv, KnownAsSaid, Held;
    if Detaches(l, e, connected, t) {
      Asked(l, e, connected, after, LeaseDetach);
    } else {
      Quiet(l, e, connected, after);
    }
  }

  /** An acquisition goes on after its detach or its cleanup. */
  lemma AcquirerKnows(l: Ledger, t: Token, connected: bool)
    requires t < |l.leases| && (Past(l, Resume(t), t) || Cleansed(l, Resume(t), t))
    ensures KnownAsSaid(l, Resume(t), connected, DoResume(l, t, connected))
  {
    hide Held, KnownAsSaid, Comes, AfterDetach, AfterCleanup, Usable;
    var e, after := Resume(t), DoResume(l, t, connected);
    GoesOnFrom(l, t, connected);
    if NeedsAttach(l, e, t) && l.attachment.None? {
      Asked(l, e, connected, after, AttachRequest);
    } else if NeedsCleanup(l, e, t) && l.reconciliation.None? {
      Asked(l, e, connected, after, CleanupDetach);
    } else {
      Quiet(l, e, connected, after);
    }
  }

  lemma ResumeKnows(l: Ledger, t: Token, connected: bool)
    ensures KnownAsSaid(l, Resume(t), connected, DoResume(l, t, connected))
  {
    hide Held, KnownAsSaid, Comes, AfterDetach, AfterCleanup, Usable;
    if t < |l.leases| && (Past(l, Resume(t), t) || Cleansed(l, Resume(t), t)) {
      AcquirerKnows(l, t, connected);
    } else {
      Quiet(l, Resume(t), connected, DoResume(l, t, connected));
    }
  }

  /** Every step asks what it should, and knows what it was told. */
  lemma RequestsExactly(l: Ledger, e: Event, connected: bool)
    requires Inv(l)
    ensures KnownAsSaid(l, e, connected, Step(l, e, connected))
  {
    hide KnownAsSaid, Inv, DoResume, DoRelease;
    match e
    case Acquire(_) => AcquireKnows(l, e, connected);
    case Created => AcquireKnows(l, e, connected);
    case Resume(t) => ResumeKnows(l, t, connected);
    case Release(t, relinquish) => ReleaseKnows(l, t, relinquish, connected);
    case Removed => RemovalKnows(l, connected);
    case Dropped =>
      LockedOnRecord(l);
      DropKnows(l, connected);
    case Respond(p, ok, attached) => ResponseKnows(l, p, ok, attached, connected);
    case Continue(p) =>
      CleanedOfInv(l);
      ContinuationKnows(l, p, connected);
    case Observed(attached) => ObservationKnows(l, attached, connected);
  }

  lemma CleanedOfInv(l: Ledger)
    requires Inv(l)
    ensures OnlyCleanupsCleaned(l.promises)
  {}

  // ----- sharing a session -----

  function Repeat(e: Event, n: nat, connected: bool): (r: seq<(Event, bool)>)
    ensures |r| == n
  {
    seq(n, _ => (e, connected))
  }

  /** These leases are shared, held, and in this phase. */
  predicate AllShared(l: Ledger, from: nat, phase: Phase) {
    forall t | from <= t < |l.leases| :: l.leases[t] == Lease(Shared, phase)
  }

  /** What a shared acquisition does while nobody holds the session exclusively and nothing has to be undone first. */
  lemma ShareOnce(l: Ledger, connected: bool)
    requires Inv(l) && !Locked(l) && l.detachment.None? && !l.cleanup
    ensures var after := Step(l, Acquire(Shared), connected); var t := |l.leases|;
            && Joined(l, after, Shared) && Held(after) == Held(l) + {t} && Inv(after) && !Locked(after)
            && after.detachment.None? && !after.cleanup && after.attached == l.attached
            && (if l.attached then after.leases[t].phase == Active(l.generation) && after.promises == l.promises
                else after.attachment.Some? && after.leases[t].phase == AwaitAttach(after.attachment.value))
            && (l.attachment.Some? ==> after.promises == l.promises && after.attachment == l.attachment)
            && (!l.attached && l.attachment.None? ==>
                  after.attachment == Some(|l.promises|)
                  && after.promises == l.promises + [Promise(AttachRequest, if connected then Pending else Answered(false))])
  {
    var e := Acquire(Shared);
    var after := Step(l, e, connected);
    hide Inv, Step, Held, Joined;
    assert Available(l, Shared) && Comes(l, e);
    GrantedExactly(l, e, connected);
    AcquireKeeps(l, Shared, connected);
    StepOfAcquire(l, Shared, connected);
    ShareAsks(l, connected);
    StaysUnlocked(l, after);
  }

  lemma StepOfAcquire(l: Ledger, mode: Mode, connected: bool)
    ensures Step(l, Acquire(mode), connected) == DoAcquire(l, mode, connected)
  {}

  lemma StaysUnlocked(l: Ledger, after: Ledger)
    requires !Locked(l) && Joined(l, after, Shared) && Held(after) == Held(l) + {|l.leases|}
    ensures !Locked(after)
  {
    hide Held;
    forall t | t in Held(after) ensures after.leases[t].mode == Shared {
      assert t < |l.leases| ==> after.leases[t] == after.leases[..|l.leases|][t];
    }
  }

  lemma ShareAsks(l: Ledger, connected: bool)
    requires Inv(l) && !Locked(l) && l.detachment.None? && !l.cleanup
    ensures var after := Step(l, Acquire(Shared), connected); var t := |l.leases|;
            && t < |after.leases| && after.detachment.None? && !after.cleanup && after.attached == l.attached
            && (if l.attached then after.leases[t].phase == Active(l.generation) && after.promises == l.promises
                else after.attachment.Some? && after.leases[t].phase == AwaitAttach(after.attachment.value))
            && (l.attachment.Some? ==> after.promises == l.promises && after.attachment == l.attachment)
            && (!l.attached && l.attachment.None? ==>
                  after.attachment == Some(|l.promises|)
                  && after.promises == l.promises + [Promise(AttachRequest, if connected then Pending else Answered(false))])
  {
    assert Available(l, Shared);
    RefusedExactly(l, Shared);
    hide Inv, Held, Available, Refused;
  }

  /** However many ask to share an attached session, all of them get a handle at once and nothing is sent. */
  lemma {:induction false} AttachedSharedByAll(l: Ledger, n: nat, connected: bool)
    requires Inv(l) && !Locked(l) && l.detachment.None? && !l.cleanup && l.attached
    ensures var after := Run(l, Repeat(Acquire(Shared), n, connected));
            && |after.leases| == |l.leases| + n && after.leases[..|l.leases|] == l.leases
            && AllShared(after, |l.leases|, Active(after.generation))
            && after.generation == l.generation && after.promises == l.promises && after.attached
    decreases n
  {
    hide Inv, Step, Locked, Held;
    if n > 0 {
      var events := Repeat(Acquire(Shared), n, connected);
      var next := Step(l, Acquire(Shared), connected);
      assert events[0] == (Acquire(Shared), connected) && events[1..] == Repeat(Acquire(Shared), n - 1, connected);
      ShareOnce(l, connected);
      AttachedSharedByAll(next, n - 1, connected);
      var after := Run(l, events);
      PrefixOfPrefix(l.leases, next.leases, after.leases);
    }
  }

  lemma PrefixOfPrefix(a: seq<Lease>, b: seq<Lease>, c: seq<Lease>)
    requires |a| + 1 == |b| <= |c| && b[..|a|] == a && c[..|b|] == b
    ensures c[..|a|] == a && c[|a|] == b[|a|]
  {
    assert c[..|a|] == c[..|b|][..|a|];
    assert c[|a|] == c[..|b|][|a|];
  }

  /** Everybody from token `from` on waits for the attach `p`, and nobody holds the session exclusively. */
  ghost predicate Together(l: Ledger, from: nat, p: PromiseId) {
    && Inv(l) && !Locked(l) && l.detachment.None? && !l.cleanup && !l.attached && l.attachment == Some(p)
    && from <= |l.leases| && AllShared(l, from, AwaitAttach(p))
  }

  lemma {:induction false} MoreWait(l: Ledger, n: nat, from: nat, p: PromiseId)
    requires Together(l, from, p)
    ensures var after := Run(l, Repeat(Acquire(Shared), n, true));
            Together(after, from, p) && |after.leases| == |l.leases| + n && after.promises == l.promises
            && after.generation == l.generation
    decreases n
  {
    hide Inv, Step, Locked, Held;
    if n > 0 {
      var events := Repeat(Acquire(Shared), n, true);
      assert events[0] == (Acquire(Shared), true) && events[1..] == Repeat(Acquire(Shared), n - 1, true);
      var next := Step(l, Acquire(Shared), true);
      ShareOnce(l, true);
      assert forall t | 0 <= t < |l.leases| :: next.leases[t] == next.leases[..|l.leases|][t];
      MoreWait(next, n - 1, from, p);
    }
  }

  function ResumeEach(from: nat, n: nat): (r: seq<(Event, bool)>)
    ensures |r| == n
  {
    seq(n, i requires 0 <= i < n => (Resume(from + i), true))
  }

  /** Once their attach has succeeded, each of them gets its handle when it is resumed. */
  lemma {:induction false} EachBegins(l: Ledger, from: nat, n: nat, p: PromiseId)
    requires PromiseIs(l, p, Settled(true)) && from + n == |l.leases|
    requires forall t | from <= t < |l.leases| :: l.leases[t] == Lease(Shared, AwaitAttach(p))
    ensures var after := Run(l, ResumeEach(from, n));
            && |after.leases| == |l.leases| && after.leases[..from] == l.leases[..from]
            && AllShared(after, from, Active(after.generation))
            && after.generation == l.generation && after.promises == l.promises && after.attached == l.attached
    decreases n
  {
    hide Step;
    if n > 0 {
      var events := ResumeEach(from, n);
      assert events[0] == (Resume(from), true) && events[1..] == ResumeEach(from + 1, n - 1);
      var next := Step(l, Resume(from), true);
      OneBegins(l, from, p);
      EachBegins(next, from + 1, n - 1, p);
      var after := Run(l, events);
      assert after.leases[from] == after.leases[..from + 1][from] == next.leases[from];
      assert after.leases[..from] == after.leases[..from + 1][..from] == next.leases[..from];
    }
  }

  lemma OneBegins(l: Ledger, t: Token, p: PromiseId)
    requires PromiseIs(l, p, Settled(true)) && t < |l.leases| && l.leases[t] == Lease(Shared, AwaitAttach(p))
    ensures var after := Step(l, Resume(t), true);
            && after.leases == l.leases[t := Lease(Shared, Active(l.generation))]
            && after.generation == l.generation && after.promises == l.promises && after.attached == l.attached
  {
    ResumePhase(l, t, true);
  }

  lemma {:induction false} RunOn(l: Ledger, a: seq<(Event, bool)>, b: seq<(Event, bool)>)
    ensures Run(l, a + b) == Run(Run(l, a), b)
    decreases |a|
  {
    hide Step;
    if a == [] {
      assert a + b == b;
    } else {
      assert (a + b)[0] == a[0] && (a + b)[1..] == a[1..] + b;
      RunOn(Step(l, a[0].0, a[0].1), a[1..], b);
    }
  }

  /** The first of them sends the attach that all others wait for. */
  lemma FirstAttaches(l: Ledger, n: nat)
    requires Inv(l) && !Locked(l) && l.detachment.None? && !l.cleanup && !l.attached && l.attachment.None? && n > 0
    ensures var after := Run(l, Repeat(Acquire(Shared), n, true)); var p := |l.promises|;
            Together(after, |l.leases|, p) && |after.leases| == |l.leases| + n
            && after.promises == l.promises + [Promise(AttachRequest, Pending)] && after.generation == l.generation
  {
    hide Inv, Step, Locked, Held;
    var events := Repeat(Acquire(Shared), n, true);
    assert events[0] == (Acquire(Shared), true) && events[1..] == Repeat(Acquire(Shared), n - 1, true);
    ShareOnce(l, true);
    MoreWait(Step(l, Acquire(Shared), true), n - 1, |l.leases|, |l.promises|);
  }

  lemma AttachAnswered(l: Ledger, p: PromiseId)
    requires p < |l.promises| && l.promises[p] == Promise(AttachRequest, Pending)
    ensures var after := Run(l, [(Respond(p, true, true), true), (Continue(p), true)]);
            after == l.(attached := true, promises := l.promises[p := Promise(AttachRequest, Settled(true))])
  {
    var next := l.(attached := true, promises := l.promises[p := Promise(AttachRequest, Answered(true))]);
    assert DoRespond(l, p, true, true) == next;
    assert next.promises[p := Promise(AttachRequest, Settled(true))]
        == l.promises[p := Promise(AttachRequest, Settled(true))];
    TwoSteps(l, (Respond(p, true, true), true), (Continue(p), true));
  }

  lemma TwoSteps(l: Ledger, a: (Event, bool), b: (Event, bool))
    ensures Run(l, [a, b]) == Step(Step(l, a.0, a.1), b.0, b.1)
  {
    hide Step;
    assert [a, b][1..] == [b] && [b][1..] == [];
    assert Run(l, [a, b]) == Run(Step(l, a.0, a.1), [b]);
  }

  /**
   However many ask to share a session that is not attached, one attach is sent for all of them, and when it succeeds
   all of them get a handle.
   */
  lemma OneAttachServesAll(l: Ledger, n: nat)
    requires Inv(l) && !Locked(l) && l.detachment.None? && !l.cleanup && !l.attached && l.attachment.None? && n > 0
    ensures var p := |l.promises|;
            var answered := [(Respond(p, true, true), true), (Continue(p), true)];
            var after := Run(l, Repeat(Acquire(Shared), n, true) + (answered + ResumeEach(|l.leases|, n)));
            && |after.leases| == |l.leases| + n && AllShared(after, |l.leases|, Active(after.generation))
            && after.attached && after.promises == l.promises + [Promise(AttachRequest, Settled(true))]
  {
    hide Inv, Step, Locked, Held;
    var p := |l.promises|;
    var asked := Repeat(Acquire(Shared), n, true);
    var answered := [(Respond(p, true, true), true), (Continue(p), true)];
    var waiting := Run(l, asked);
    FirstAttaches(l, n);
    AttachAnswered(waiting, p);
    var attached := Run(waiting, answered);
    assert attached.promises == l.promises + [Promise(AttachRequest, Settled(true))];
    EachBegins(attached, |l.leases|, n, p);
    RunOn(l, asked, answered + ResumeEach(|l.leases|, n));
    RunOn(waiting, answered, ResumeEach(|l.leases|, n));
  }

  /** A failed detach gives the handle back, or leaves the cleanup to the next acquisition. */
  lemma FailedRelease(l: Ledger, t: Token, connected: bool)
    requires Inv(l) && t < |l.leases| && l.leases[t].phase.Releasing?
    requires PromiseIs(l, l.leases[t].phase.detachment, Settled(false))
    ensures var phase := l.leases[t].phase;
            var after := Step(Step(l, Resume(t), connected), Resume(t), connected);
            && t < |after.leases|
            && (ActiveHandle(after, t) <==> phase.generation == l.generation && !phase.relinquish)
            && (!ActiveHandle(after, t) ==> after.leases[t].phase == Released)
            && (after.cleanup <==> l.cleanup || (phase.generation == l.generation && phase.relinquish))
  {
    hide Inv, Held;
    ResumePhase(l, t, connected);
  }

  /** After every admissible run the next step grants, gives back, sends and records exactly what it should. */
  lemma RunsAreExact(events: seq<(Event, bool)>, e: Event, connected: bool)
    requires AdmissibleRun(EMPTY, events)
    ensures var l := Run(EMPTY, events);
            var after := Step(l, e, connected);
            && HeldAsSaid(l, e, connected, after) && KnownAsSaid(l, e, connected, after)
            && (forall t | 0 <= t < |after.leases| :: PhaseAsSaid(l, e, connected, t, after))
  {
    hide Inv, Step, HeldAsSaid, KnownAsSaid, PhaseAsSaid;
    EmptyInv();
    RunInv(EMPTY, events);
    var l := Run(EMPTY, events);
    HeldExactly(l, e, connected);
    RequestsExactly(l, e, connected);
    PhasesExactly(l, e, connected);
  }
}
