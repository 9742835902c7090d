/**
 The lease bookkeeping of packages/client/src/client.ts over the maps the client keeps for all its sessions. Each
 method is one stretch of code between two `await`s; its contract says that it takes the ledger of its session
 through the step of that name and leaves the ledgers of all other sessions alone.
 */
module SessionLeaseTables {
  import opened Options
  import opened SessionLeases
  import Grants = SessionGrants

  type SessionId = string

  function Lookup<V>(m: map<SessionId, V>, sid: SessionId): Option<V> {
    if sid in m then Some(m[sid]) else None
  }

  function Default<V>(m: map<SessionId, V>, sid: SessionId, absent: V): V {
    if sid in m then m[sid] else absent
  }

  /** What happens to a client: something that concerns one session, or the connection coming and going. */
  datatype ClientEvent = On(sid: SessionId, event: Event) | Connect | Disconnect

  function ConnectedAfter(e: ClientEvent, connected: bool): bool {
    match e
    case On(_, _) => connected
    case Connect => true
    case Disconnect => false
  }

  /** What one event means for one session. */
  function SeenOf(e: ClientEvent, sid: SessionId, connected: bool): seq<(Event, bool)> {
    match e
    case On(s, event) => if s == sid && !event.Dropped? then [(event, connected)] else []
    case Connect => []
    case Disconnect => if connected then [(Dropped, connected)] else []
  }

  /** What a run means for one session, and whether the client is connected when it happens. */
  function Seen(events: seq<ClientEvent>, sid: SessionId, connected: bool): seq<(Event, bool)>
    decreases |events|
  {
    if events == [] then []
    else SeenOf(events[0], sid, connected) + Seen(events[1..], sid, ConnectedAfter(events[0], connected))
  }

  lemma RunSeen(l: Ledger, events: seq<ClientEvent>, sid: SessionId, connected: bool)
    requires events != []
    ensures Run(l, Seen(events, sid, connected))
            == Run(Run(l, SeenOf(events[0], sid, connected)),
                   Seen(events[1..], sid, ConnectedAfter(events[0], connected)))
  {
    hide Step;
    var first, rest := SeenOf(events[0], sid, connected), Seen(events[1..], sid, ConnectedAfter(events[0], connected));
    if first == [] {
      assert first + rest == rest;
    } else {
      assert (first + rest)[1..] == rest && first[1..] == [];
    }
  }

  /** The test of an acquisition is about the tokens, while the bookkeeping is right. */
  lemma TestOfTokens(l: Ledger, mode: Mode)
    ensures Inv(l) ==> (Refused(l, mode) <==> !Grants.Available(l, mode))
  {
    hide Inv, Refused, Grants.Available;
    if Inv(l) { Grants.RefusedExactly(l, mode); }
  }

  class LeaseTable {
    var counts: map<SessionId, nat>
    var exclusiveLeases: map<SessionId, Token>
    var generations: map<SessionId, nat>
    var attachments: map<SessionId, PromiseId>
    var detachments: map<SessionId, PromiseId>
    var reconciliations: map<SessionId, PromiseId>
    var cleanupRequired: set<SessionId>
    var attachedSessionIds: set<SessionId>
    var leases: map<SessionId, seq<Lease>>
    var promises: map<SessionId, seq<Promise>>
    var connected: bool

    /** A count that falls to zero is deleted. */
    ghost predicate Valid()
      reads this
    {
      forall sid | sid in counts :: counts[sid] > 0
    }

    function LedgerOf(sid: SessionId): Ledger
      reads this
    {
      Ledger(Default(counts, sid, 0), Lookup(exclusiveLeases, sid), Default(generations, sid, 0),
             Lookup(attachments, sid), Lookup(detachments, sid), Lookup(reconciliations, sid),
             sid in cleanupRequired, sid in attachedSessionIds,
             Default(leases, sid, []), Default(promises, sid, []))
    }

    twostate predicate OthersKept(sid: SessionId)
      reads this
    {
      connected == old(connected) && forall s | s != sid :: LedgerOf(s) == old(LedgerOf(s))
    }

    constructor ()
      ensures Valid() && !connected && forall sid :: LedgerOf(sid) == EMPTY
    {
      counts, exclusiveLeases, generations := map[], map[], map[];
      attachments, detachments, reconciliations := map[], map[], map[];
      cleanupRequired, attachedSessionIds := {}, {};
      leases, promises := map[], map[];
      connected := false;
    }

    /** The state of one lease, kept in the closures of its handle. */
    method SetPhase(sid: SessionId, t: Token, phase: Phase)
      requires Valid() && t < |LedgerOf(sid).leases|
      modifies this`leases
      ensures Valid() && OthersKept(sid) && LedgerOf(sid) == Set(old(LedgerOf(sid)), t, phase)
    {
      leases := leases[sid := leases[sid][t := leases[sid][t].(phase := phase)]];
    }

    method Request(sid: SessionId, kind: Kind) returns (p: PromiseId)
      requires Valid()
      modifies this`promises
      ensures Valid() && OthersKept(sid) && LedgerOf(sid) == Send(old(LedgerOf(sid)), kind, connected)
      ensures p == |old(LedgerOf(sid)).promises|
    {
      var sent := Default(promises, sid, []);
      p := |sent|;
      promises := promises[sid := sent + [Promise(kind, if connected then Pending else Answered(false))]];
    }

    method SetCount(sid: SessionId, count: nat)
      requires Valid()
      modifies this`counts
      ensures Valid() && OthersKept(sid) && LedgerOf(sid) == old(LedgerOf(sid)).(count := count)
    {
      counts := if count == 0 then counts - {sid} else counts[sid := count];
    }

    method SetExclusive(sid: SessionId, t: Option<Token>)
      requires Valid()
      modifies this`exclusiveLeases
      ensures Valid() && OthersKept(sid) && LedgerOf(sid) == old(LedgerOf(sid)).(exclusive := t)
    {
      exclusiveLeases := if t.Some? then exclusiveLeases[sid := t.value] else exclusiveLeases - {sid};
    }

    method AddLease(sid: SessionId, lease: Lease)
      requires Valid()
      modifies this`leases
      ensures Valid() && OthersKept(sid)
      ensures LedgerOf(sid) == old(LedgerOf(sid)).(leases := old(LedgerOf(sid)).leases + [lease])
    {
      leases := leases[sid := Default(leases, sid, []) + [lease]];
    }

    /** Deletes an entry of `attachments` or `detachments` if it is still this promise. */
    method Forget(sid: SessionId, kind: Kind, p: PromiseId)
      requires Valid()
      modifies this`attachments, this`detachments, this`reconciliations
      ensures Valid() && OthersKept(sid)
      ensures LedgerOf(sid) == WithEntry(old(LedgerOf(sid)), kind, Without(EntryOf(old(LedgerOf(sid)), kind), p))
    {
      match kind
      case AttachRequest =>
        if Lookup(attachments, sid) == Some(p) {
          attachments := attachments - {sid};
        }
      case LeaseDetach =>
        if Lookup(detachments, sid) == Some(p) {
          detachments := detachments - {sid};
        }
      case CleanupDetach =>
        if Lookup(reconciliations, sid) == Some(p) {
          reconciliations := reconciliations - {sid};
        }
    }

    method RequireCleanup(sid: SessionId)
      requires Valid()
      modifies this`cleanupRequired
      ensures Valid() && OthersKept(sid) && LedgerOf(sid) == old(LedgerOf(sid)).(cleanup := true)
    {
      cleanupRequired := cleanupRequired + {sid};
    }

    lemma OnRecord(sid: SessionId)
      requires Valid()
      ensures sid in counts <==> LedgerOf(sid).count > 0
      ensures sid in exclusiveLeases <==> LedgerOf(sid).exclusive.Some?
    {}

    method ReserveSessionLease(sid: SessionId, mode: Mode, phase: Phase) returns (token: Option<Token>)
      requires Valid()
      modifies this`counts, this`exclusiveLeases, this`leases
      ensures Valid() && OthersKept(sid)
      ensures token.None? <==> if mode == Exclusive then sid in old(counts) else sid in old(exclusiveLeases)
      ensures old(Inv(LedgerOf(sid))) ==> (token.Some? <==> Grants.Available(old(LedgerOf(sid)), mode))
      ensures token.None? ==> LedgerOf(sid) == old(LedgerOf(sid))
      ensures token.Some? ==> token.value == |old(LedgerOf(sid)).leases|
                              && LedgerOf(sid) == Reserve(old(LedgerOf(sid)), mode, phase)
    {
      hide LedgerOf, Valid, Inv, Grants.Available;
      OnRecord(sid);
      TestOfTokens(LedgerOf(sid), mode);
      var l := LedgerOf(sid);
      if mode == Exclusive && l.count > 0 {
        return None;
      }
      if mode == Shared && l.exclusive.Some? {
        return None;
      }
      SetCount(sid, l.count + 1);
      if mode == Exclusive {
        SetExclusive(sid, Some(|l.leases|));
      }
      AddLease(sid, Lease(mode, phase));
      token := Some(|l.leases|);
    }

    method ReleaseSessionLease(sid: SessionId, t: Token)
      requires Valid() && t < |LedgerOf(sid).leases|
      modifies this`counts, this`exclusiveLeases, this`leases
      ensures Valid() && OthersKept(sid) && LedgerOf(sid) == Drop(old(LedgerOf(sid)), t)
    {
      hide LedgerOf, Valid;
      var l := LedgerOf(sid);
      SetCount(sid, if l.count <= 1 then 0 else l.count - 1);
      if l.exclusive == Some(t) {
        SetExclusive(sid, None);
      }
      SetPhase(sid, t, Released);
    }

    /** The rest of an acquisition after its wait for a detach. */
    method Reconcile(sid: SessionId, t: Token)
      requires Valid() && t < |LedgerOf(sid).leases|
      modifies this`promises, this`leases, this`attachments, this`reconciliations
      ensures Valid() && OthersKept(sid) && LedgerOf(sid) == AfterDetach(old(LedgerOf(sid)), t, connected)
    {
      if sid !in cleanupRequired {
        Attach(sid, t, false);
        return;
      }
      if sid !in reconciliations {
        var reconciliation := Request(sid, CleanupDetach);
        reconciliations := reconciliations[sid := reconciliation];
      }
      SetPhase(sid, t, AwaitReconcile(reconciliations[sid]));
    }

    /** The rest of an acquisition after any cleanup. */
    method Attach(sid: SessionId, t: Token, reconciled: bool)
      requires Valid() && t < |LedgerOf(sid).leases|
      modifies this`promises, this`leases, this`attachments
      ensures Valid() && OthersKept(sid) && LedgerOf(sid) == AfterCleanup(old(LedgerOf(sid)), t, reconciled, connected)
    {
      if reconciled || sid !in attachedSessionIds {
        if sid !in attachments {
          var attachment := Request(sid, AttachRequest);
          attachments := attachments[sid := attachment];
        }
        SetPhase(sid, t, AwaitAttach(attachments[sid]));
      } else {
        SetPhase(sid, t, Active(Default(generations, sid, 0)));
      }
    }

    method AcquireSession(sid: SessionId, mode: Mode) returns (token: Option<Token>)
      requires Valid()
      modifies this
      ensures Valid() && OthersKept(sid) && LedgerOf(sid) == DoAcquire(old(LedgerOf(sid)), mode, connected)
      ensures old(Inv(LedgerOf(sid))) ==> (token.Some? <==> Grants.Available(old(LedgerOf(sid)), mode))
      ensures token.Some? ==> token.value == |old(LedgerOf(sid)).leases|
    {
      hide Inv, Grants.Available;
      if sid in detachments {
        token := ReserveSessionLease(sid, mode, AwaitDetach(detachments[sid]));
      } else {
        token := ReserveSessionLease(sid, mode, Acquiring);
        if token.Some? {
          Reconcile(sid, token.value);
        }
      }
    }

    method CreateSession(sid: SessionId) returns (token: Option<Token>)
      requires Valid()
      modifies this
      ensures Valid() && OthersKept(sid) && LedgerOf(sid) == DoCreated(old(LedgerOf(sid)))
      ensures old(Inv(LedgerOf(sid))) ==> (token.Some? <==> Grants.Available(old(LedgerOf(sid)), Exclusive))
    {
      hide Inv, Grants.Available;
      token := ReserveSessionLease(sid, Exclusive, Active(Default(generations, sid, 0)));
    }

    /** Continues an acquisition or a release once what it waits for has settled. */
    method ResumeLease(sid: SessionId, t: Token)
      requires Valid()
      modifies this
      ensures Valid() && OthersKept(sid) && LedgerOf(sid) == DoResume(old(LedgerOf(sid)), t, connected)
    {
      hide LedgerOf, Valid, AfterDetach, AfterCleanup, Drop;
      var l := LedgerOf(sid);
      if t >= |l.leases| {
        return;
      }
      match l.leases[t].phase
      case AwaitDetach(d) =>
        if IsSettled(l, d) {
          Reconcile(sid, t);
        }
      case AwaitReconcile(r) =>
        if IsSettled(l, r) {
          if l.promises[r].outcome.ok {
            Attach(sid, t, true);
          } else {
            ReleaseSessionLease(sid, t);
          }
        }
      case AwaitAttach(a) =>
        if IsSettled(l, a) {
          Forget(sid, AttachRequest, a);
          if l.promises[a].outcome.ok {
            SetPhase(sid, t, Active(l.generation));
          } else {
            ReleaseSessionLease(sid, t);
          }
        }
      case Releasing(generation, d, relinquish) =>
        if IsSettled(l, d) {
          Forget(sid, LeaseDetach, d);
          if l.promises[d].outcome.ok {
            ReleaseSessionLease(sid, t);
          } else {
            SetPhase(sid, t, ReleaseFailed(generation, relinquish));
          }
        }
      case ReleaseFailed(generation, relinquish) =>
        if l.generation != generation {
          SetPhase(sid, t, Released);
        } else if relinquish {
          ReleaseSessionLease(sid, t);
          RequireCleanup(sid);
        } else {
          SetPhase(sid, t, Active(generation));
        }
      case _ =>
    }

    /** `detach` and `dispose` of a handle. */
    method ReleaseHandle(sid: SessionId, t: Token, relinquish: bool)
      requires Valid()
      modifies this
      ensures Valid() && OthersKept(sid) && LedgerOf(sid) == DoRelease(old(LedgerOf(sid)), t, relinquish, connected)
    {
      var generation := Default(generations, sid, 0);
      if t >= |Default(leases, sid, [])| || leases[sid][t].phase != Active(generation)
         || sid !in attachedSessionIds || !connected {
        return;
      }
      var count := Default(counts, sid, 0);
      if count <= 1 {
        var detachment := Request(sid, LeaseDetach);
        detachments := detachments[sid := detachment];
        SetPhase(sid, t, Releasing(generation, detachment, relinquish));
      } else {
        ReleaseSessionLease(sid, t);
      }
    }

    method HandleResponse(sid: SessionId, p: PromiseId, ok: bool, attached: bool)
      requires Valid()
      modifies this`promises, this`attachedSessionIds
      ensures Valid() && OthersKept(sid) && LedgerOf(sid) == DoRespond(old(LedgerOf(sid)), p, ok, attached)
    {
      var sent := Default(promises, sid, []);
      if p >= |sent| || !sent[p].outcome.Pending? {
        return;
      }
      if ok {
        if sent[p].kind == AttachRequest && attached {
          attachedSessionIds := attachedSessionIds + {sid};
        } else {
          attachedSessionIds := attachedSessionIds - {sid};
        }
      }
      promises := promises[sid := sent[p := sent[p].(outcome := Answered(ok))]];
    }

    method RunContinuation(sid: SessionId, p: PromiseId)
      requires Valid()
      modifies this`promises, this`cleanupRequired, this`reconciliations
      ensures Valid() && OthersKept(sid) && LedgerOf(sid) == DoContinue(old(LedgerOf(sid)), p)
    {
      var sent := Default(promises, sid, []);
      if p >= |sent| || sent[p].outcome.Pending? || sent[p].outcome.Settled? {
        return;
      }
      var outcome := sent[p].outcome;
      if outcome.Cleaned? {
        reconciliations := reconciliations - {sid};
        outcome := Settled(true);
      } else if sent[p].kind == CleanupDetach {
        if outcome.ok {
          cleanupRequired := cleanupRequired - {sid};
          outcome := Cleaned;
        } else {
          reconciliations := reconciliations - {sid};
          outcome := Settled(false);
        }
      } else {
        outcome := Settled(outcome.ok);
      }
      promises := promises[sid := sent[p := sent[p].(outcome := outcome)]];
    }

    method ObserveSession(sid: SessionId, attached: bool)
      requires Valid()
      modifies this`attachedSessionIds
      ensures Valid() && OthersKept(sid) && LedgerOf(sid) == old(LedgerOf(sid)).(attached := attached)
    {
      attachedSessionIds := if attached then attachedSessionIds + {sid} else attachedSessionIds - {sid};
    }

    method InvalidateSessionLeases(sid: SessionId)
      requires Valid()
      modifies this`counts, this`exclusiveLeases, this`cleanupRequired, this`generations
      ensures Valid() && OthersKept(sid) && LedgerOf(sid) == Invalidate(old(LedgerOf(sid)))
      ensures counts == old(counts) - {sid}
    {
      counts := counts - {sid};
      exclusiveLeases := exclusiveLeases - {sid};
      cleanupRequired := cleanupRequired - {sid};
      generations := generations[sid := Default(generations, sid, 0) + 1];
    }

    /** The event `session_removed`. */
    method RemoveSession(sid: SessionId)
      requires Valid()
      modifies this
      ensures Valid() && OthersKept(sid) && LedgerOf(sid) == Step(old(LedgerOf(sid)), Removed, connected)
    {
      InvalidateSessionLeases(sid);
      attachedSessionIds := attachedSessionIds - {sid};
    }

    /** Invalidates the leases of every session that has a count, and requires no cleanup any more. */
    method InvalidateAllSessionLeases()
      requires Valid()
      modifies this`counts, this`exclusiveLeases, this`cleanupRequired, this`generations
      ensures Valid() && connected == old(connected)
      ensures forall sid :: LedgerOf(sid) == (if old(LedgerOf(sid)).count > 0 then Invalidate(old(LedgerOf(sid)))
                                              else old(LedgerOf(sid)).(cleanup := false))
    {
      var todo := counts.Keys;
      while todo != {}
        invariant Valid() && connected == old(connected) && todo <= old(counts.Keys)
        invariant forall sid :: LedgerOf(sid) == (if sid in old(counts) && sid !in todo then Invalidate(old(LedgerOf(sid)))
                                                  else old(LedgerOf(sid)))
      {
        hide LedgerOf;
        var sid :| sid in todo;
        InvalidateSessionLeases(sid);
        todo := todo - {sid};
      }
      cleanupRequired := {};
    }

    method RejectPendingRequests()
      requires Valid()
      modifies this`promises
      ensures Valid() && connected == old(connected)
      ensures forall sid :: LedgerOf(sid) == old(LedgerOf(sid)).(promises := Rejected(old(LedgerOf(sid)).promises))
    {
      promises := map sid | sid in promises :: Rejected(promises[sid]);
    }

    /** The connection is lost. */
    method LoseConnection()
      requires Valid()
      modifies this
      ensures Valid() && !connected
      ensures forall sid :: LedgerOf(sid) == if old(connected) then Step(old(LedgerOf(sid)), Dropped, old(connected))
                                             else old(LedgerOf(sid))
    {
      hide Rejected, DoAcquire, DoCreated, DoResume, DoRelease, DoRespond, DoContinue;
      if !connected {
        return;
      }
      connected := false;
      attachedSessionIds := {};
      InvalidateAllSessionLeases();
      RejectPendingRequests();
    }

    method Dispatch(e: ClientEvent)
      requires Valid()
      modifies this
      ensures Valid() && connected == ConnectedAfter(e, old(connected))
      ensures forall sid :: LedgerOf(sid) == Run(old(LedgerOf(sid)), SeenOf(e, sid, old(connected)))
    {
      match e
      case On(sid, event) =>
        DispatchTo(sid, event);
        hide LedgerOf, Step;
      case Connect =>
        connected := true;
      case Disconnect =>
        LoseConnection();
        hide LedgerOf, Step;
    }

    method DispatchTo(sid: SessionId, event: Event)
      requires Valid()
      modifies this
      ensures Valid() && OthersKept(sid)
      ensures LedgerOf(sid) == if event.Dropped? then old(LedgerOf(sid)) else Step(old(LedgerOf(sid)), event, connected)
    {
      hide LedgerOf, DoAcquire, DoCreated, DoResume, DoRelease, DoRespond, DoContinue, Invalidate;
      match event
      case Acquire(mode) => var _ := AcquireSession(sid, mode);
      case Created => var _ := CreateSession(sid);
      case Resume(t) => ResumeLease(sid, t);
      case Release(t, relinquish) => ReleaseHandle(sid, t, relinquish);
      case Respond(p, ok, attached) => HandleResponse(sid, p, ok, attached);
      case Continue(p) => RunContinuation(sid, p);
      case Observed(attached) => ObserveSession(sid, attached);
      case Removed => RemoveSession(sid);
      case Dropped =>
    }

    /** Any interleaving of the events of all sessions takes each ledger through the steps that concern it. */
    method Serve(events: seq<ClientEvent>)
      requires Valid()
      modifies this
      ensures Valid()
      ensures forall sid :: LedgerOf(sid) == Run(old(LedgerOf(sid)), Seen(events, sid, old(connected)))
      decreases |events|
    {
      hide LedgerOf, Step, Run, SeenOf, ConnectedAfter;
      if events != [] {
        Dispatch(events[0]);
        Serve(events[1..]);
        forall sid
          ensures LedgerOf(sid) == Run(old(LedgerOf(sid)), Seen(events, sid, old(connected)))
        {
          RunSeen(old(LedgerOf(sid)), events, sid, old(connected));
        }
      } else {
        RunNothing();
      }
    }
  }

  lemma RunNothing()
    ensures forall l: Ledger :: Run(l, []) == l
  {}
}
