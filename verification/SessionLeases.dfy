/**
 The leases a client holds on one session (packages/client/src/client.ts): shared and exclusive tokens with a
 reference count, and the attach and detach requests made on their behalf.

 A `Ledger` is everything the client keeps about one session. `Step` is one stretch of code between two `await`s, so
 a run is any sequence of events: any interleaving of acquisitions, releases, responses and resumptions.
 A token that waits for a promise may be resumed at any time after the promise has settled.
 */
module SessionLeases {
  import opened Options

  type Token = nat
  type PromiseId = nat

  datatype Mode = Shared | Exclusive

  datatype Kind = AttachRequest | LeaseDetach | CleanupDetach

  /** `Answered` is a response that has arrived and not yet been passed on to those who wait for the promise. */
  datatype Outcome = Pending | Answered(ok: bool) | Cleaned | Settled(ok: bool)

  datatype Promise = Promise(kind: Kind, outcome: Outcome)

  /** `Acquiring` is a token taken by an acquisition that has not come to an `await` yet. */
  datatype Phase =
    | Acquiring
    | AwaitDetach(detachment: PromiseId)
    | AwaitReconcile(reconciliation: PromiseId)
    | AwaitAttach(attachment: PromiseId)
    | Active(generation: nat)
    | Releasing(generation: nat, detachment: PromiseId, relinquish: bool)
    | ReleaseFailed(generation: nat, relinquish: bool)
    | Released

  datatype Lease = Lease(mode: Mode, phase: Phase)

  datatype Ledger = Ledger(
    count: nat,
    exclusive: Option<Token>,
    generation: nat,
    attachment: Option<PromiseId>,
    detachment: Option<PromiseId>,
    reconciliation: Option<PromiseId>,
    cleanup: bool,
    attached: bool,
    leases: seq<Lease>,
    promises: seq<Promise>)

  const EMPTY := Ledger(0, None, 0, None, None, None, false, false, [], [])

  datatype Event =
    | Acquire(mode: Mode)
    | Created
    | Resume(token: Token)
    | Release(token: Token, relinquish: bool)
    | Respond(promise: PromiseId, ok: bool, attached: bool)
    | Continue(promise: PromiseId)
    | Observed(attached: bool)
    | Removed
    | Dropped

  // ----- the steps -----

  function Set(l: Ledger, t: Token, phase: Phase): Ledger
    requires t < |l.leases|
  {
    l.(leases := l.leases[t := l.leases[t].(phase := phase)])
  }

  /** A request is refused at once when there is no connection. */
  function Send(l: Ledger, kind: Kind, connected: bool): Ledger {
    l.(promises := l.promises + [Promise(kind, if connected then Pending else Answered(false))])
  }

  predicate Refused(l: Ledger, mode: Mode) {
    (mode == Exclusive && l.count > 0) || (mode == Shared && l.exclusive.Some?)
  }

  /** Takes a token; `phase` is where its owner goes next. */
  function Reserve(l: Ledger, mode: Mode, phase: Phase): Ledger {
    l.(count := l.count + 1,
       exclusive := if mode == Exclusive then Some(|l.leases|) else l.exclusive,
       leases := l.leases + [Lease(mode, phase)])
  }

  /** Gives a token back. */
  function Drop(l: Ledger, t: Token): Ledger
    requires t < |l.leases|
  {
    Set(l, t, Released).(
      count := if l.count <= 1 then 0 else l.count - 1,
      exclusive := if l.exclusive == Some(t) then None else l.exclusive)
  }

  function WithEntry(l: Ledger, kind: Kind, entry: Option<PromiseId>): Ledger {
    match kind
    case AttachRequest => l.(attachment := entry)
    case LeaseDetach => l.(detachment := entry)
    case CleanupDetach => l.(reconciliation := entry)
  }

  /** Sends a request, records its promise, and makes token `t` wait in the phase given for it. */
  function Start(l: Ledger, t: Token, kind: Kind, phase: Phase, connected: bool): Ledger
    requires t < |l.leases|
  {
    WithEntry(Set(Send(l, kind, connected), t, phase), kind, Some(|l.promises|))
  }

  /** The part of an acquisition after any detachment: clean up first if a relinquished lease left something behind. */
  function AfterDetach(l: Ledger, t: Token, connected: bool): Ledger
    requires t < |l.leases|
  {
    if !l.cleanup then AfterCleanup(l, t, false, connected)
    else if l.reconciliation.Some? then Set(l, t, AwaitReconcile(l.reconciliation.value))
    else Start(l, t, CleanupDetach, AwaitReconcile(|l.promises|), connected)
  }

  /** The last part of an acquisition: join or start an attachment unless the session is known to be attached. */
  function AfterCleanup(l: Ledger, t: Token, reconciled: bool, connected: bool): Ledger
    requires t < |l.leases|
  {
    if !reconciled && l.attached then Set(l, t, Active(l.generation))
    else if l.attachment.Some? then Set(l, t, AwaitAttach(l.attachment.value))
    else Start(l, t, AttachRequest, AwaitAttach(|l.promises|), connected)
  }

  function DoAcquire(l: Ledger, mode: Mode, connected: bool): Ledger {
    if Refused(l, mode) then l
    else if l.detachment.Some? then Reserve(l, mode, AwaitDetach(l.detachment.value))
    else AfterDetach(Reserve(l, mode, Acquiring), |l.leases|, connected)
  }

  function DoCreated(l: Ledger): Ledger {
    if Refused(l, Exclusive) then l else Reserve(l, Exclusive, Active(l.generation))
  }

  function Without(entry: Option<PromiseId>, p: PromiseId): Option<PromiseId> {
    if entry == Some(p) then None else entry
  }

  predicate IsSettled(l: Ledger, p: PromiseId) {
    p < |l.promises| && l.promises[p].outcome.Settled?
  }

  function DoResume(l: Ledger, t: Token, connected: bool): Ledger {
    if t >= |l.leases| then l
    else
      match l.leases[t].phase
      case AwaitDetach(d) =>
        if IsSettled(l, d) then AfterDetach(l, t, connected) else l
      case AwaitReconcile(r) =>
        if !IsSettled(l, r) then l
        else if l.promises[r].outcome.ok then AfterCleanup(l, t, true, connected) else Drop(l, t)
      case AwaitAttach(a) =>
        if !IsSettled(l, a) then l
        else
          var rest := l.(attachment := Without(l.attachment, a));
          if l.promises[a].outcome.ok then Set(rest, t, Active(l.generation)) else Drop(rest, t)
      case Releasing(generation, d, relinquish) =>
        if !IsSettled(l, d) then l
        else
          var rest := l.(detachment := Without(l.detachment, d));
          if l.promises[d].outcome.ok then Drop(rest, t) else Set(rest, t, ReleaseFailed(generation, relinquish))
      case ReleaseFailed(generation, relinquish) =>
        if generation != l.generation then Set(l, t, Released)
        else if relinquish then Drop(l, t).(cleanup := true)
        else Set(l, t, Active(generation))
      case _ => l
  }

  /** A handle may be released only while its lease is active; the last lease sends a detach first. */
  predicate CanRelease(l: Ledger, t: Token, connected: bool) {
    t < |l.leases| && l.leases[t].phase == Active(l.generation) && l.attached && connected
  }

  function DoRelease(l: Ledger, t: Token, relinquish: bool, connected: bool): Ledger {
    if !CanRelease(l, t, connected) then l
    else if l.count <= 1 then
      Start(l, t, LeaseDetach, Releasing(l.generation, |l.promises|, relinquish), connected)
    else Drop(l, t)
  }

  function Resolve(l: Ledger, p: PromiseId, outcome: Outcome): Ledger
    requires p < |l.promises|
  {
    l.(promises := l.promises[p := l.promises[p].(outcome := outcome)])
  }

  /** The response to a request, with what it says about the session being attached. */
  function DoRespond(l: Ledger, p: PromiseId, ok: bool, attached: bool): Ledger {
    if p < |l.promises| && l.promises[p].outcome.Pending? then
      var r := Resolve(l, p, Answered(ok));
      if !ok then r else if l.promises[p].kind == AttachRequest then r.(attached := attached) else r.(attached := false)
    else l
  }

  /** The handlers chained to a request, up to the promise that leases wait for. */
  function DoContinue(l: Ledger, p: PromiseId): Ledger {
    if p >= |l.promises| then l
    else
      match l.promises[p].outcome
      case Answered(ok) =>
        if l.promises[p].kind != CleanupDetach then Resolve(l, p, Settled(ok))
        else if ok then Resolve(l, p, Cleaned).(cleanup := false)
        else Resolve(l, p, Settled(false)).(reconciliation := None)
      case Cleaned => Resolve(l, p, Settled(true)).(reconciliation := None)
      case _ => l
  }

  /** Every lease of the session loses its meaning. */
  function Invalidate(l: Ledger): Ledger {
    l.(count := 0, exclusive := None, cleanup := false, generation := l.generation + 1)
  }

  function Rejected(promises: seq<Promise>): (r: seq<Promise>)
    ensures |r| == |promises|
  {
    seq(|promises|, i requires 0 <= i < |promises| =>
      if promises[i].outcome.Pending? then promises[i].(outcome := Answered(false)) else promises[i])
  }

  /** The connection is lost: attachments are forgotten, leases with a count are invalidated, requests rejected. */
  function DoDropped(l: Ledger): Ledger {
    var r := if l.count > 0 then Invalidate(l) else l.(cleanup := false);
    r.(attached := false, promises := Rejected(l.promises))
  }

  function Step(l: Ledger, e: Event, connected: bool): Ledger {
    match e
    case Acquire(mode) => DoAcquire(l, mode, connected)
    case Created => DoCreated(l)
    case Resume(t) => DoResume(l, t, connected)
    case Release(t, relinquish) => DoRelease(l, t, relinquish, connected)
    case Respond(p, ok, attached) => DoRespond(l, p, ok, attached)
    case Continue(p) => DoContinue(l, p)
    case Observed(attached) => l.(attached := attached)
    case Removed => Invalidate(l).(attached := false)
    case Dropped => DoDropped(l)
  }

  // ----- the invariant -----

  /** Reserved and not yet given back: on its way in, held, or on its way out. */
  predicate Reserved(lease: Lease, generation: nat) {
    match lease.phase
    case Acquiring => true
    case AwaitDetach(_) => true
    case AwaitReconcile(_) => true
    case AwaitAttach(_) => true
    case Active(g) => g == generation
    case Releasing(g, _, _) => g == generation
    case ReleaseFailed(g, _) => g == generation
    case Released => false
  }

  function ReservedTokens(leases: seq<Lease>, generation: nat): set<Token> {
    set t | 0 <= t < |leases| && Reserved(leases[t], generation)
  }

  /** In the middle of an acquisition. */
  predicate BeingAcquired(phase: Phase) {
    phase.Acquiring? || phase.AwaitDetach? || phase.AwaitReconcile? || phase.AwaitAttach?
  }

  /** Whatever happens now, the request has failed for those who wait for it. */
  predicate CannotSucceed(outcome: Outcome) {
    outcome == Answered(false) || outcome == Settled(false)
  }

  /** Not settled; a lease detach that can only fail counts no more. */
  predicate Outstanding(promise: Promise) {
    !promise.outcome.Settled? && (promise.kind == LeaseDetach ==> promise.outcome != Answered(false))
  }

  /** An exclusive token is the only reserved one, and it is the one on record. */
  predicate ExclusiveOk(leases: seq<Lease>, generation: nat, exclusive: Option<Token>) {
    && (exclusive.Some? ==>
          exclusive.value < |leases| && leases[exclusive.value].mode == Exclusive
          && ReservedTokens(leases, generation) == {exclusive.value})
    && (forall t | 0 <= t < |leases| && Reserved(leases[t], generation) && leases[t].mode == Exclusive ::
          exclusive == Some(t))
  }

  /** What a token waits for is a promise of the kind it takes it for; a release of an older generation can only fail. */
  predicate PhaseOk(phase: Phase, generation: nat, promises: seq<Promise>) {
    match phase
    case Acquiring => true
    case AwaitDetach(d) => d < |promises| && promises[d].kind == LeaseDetach
    case AwaitReconcile(r) => r < |promises| && promises[r].kind == CleanupDetach
    case AwaitAttach(a) => a < |promises| && promises[a].kind == AttachRequest
    case Active(g) => g <= generation
    case Releasing(g, d, _) =>
      g <= generation && d < |promises| && promises[d].kind == LeaseDetach
      && (g == generation || CannotSucceed(promises[d].outcome))
    case ReleaseFailed(g, _) => g <= generation
    case Released => true
  }

  predicate PhasesOk(leases: seq<Lease>, generation: nat, promises: seq<Promise>) {
    forall t | 0 <= t < |leases| :: PhaseOk(leases[t].phase, generation, promises)
  }

  function EntryOf(l: Ledger, kind: Kind): Option<PromiseId> {
    match kind
    case AttachRequest => l.attachment
    case LeaseDetach => l.detachment
    case CleanupDetach => l.reconciliation
  }

  predicate EntryOk(entry: Option<PromiseId>, kind: Kind, promises: seq<Promise>) {
    && (entry.Some? ==> entry.value < |promises| && promises[entry.value].kind == kind)
    && (forall p | 0 <= p < |promises| && promises[p].kind == kind && Outstanding(promises[p]) :: entry == Some(p))
  }

  predicate Waits(phase: Phase, p: PromiseId) {
    phase == AwaitReconcile(p) || phase == AwaitAttach(p) || (phase.Releasing? && phase.detachment == p)
  }

  /** A promise still open has someone who waits for it. */
  predicate Wanted(leases: seq<Lease>, promises: seq<Promise>) {
    forall p | 0 <= p < |promises| && !promises[p].outcome.Settled? ::
      exists t :: 0 <= t < |leases| && Waits(leases[t].phase, p)
  }

  /** While a release waits for its detach, every other reserved token waits for that detach too. */
  predicate DetachFirst(leases: seq<Lease>, generation: nat, promises: seq<Promise>) {
    forall t, u | 0 <= t < |leases| && 0 <= u < |leases| && t != u
                  && DetachOpen(leases[t].phase, promises) && Reserved(leases[u], generation) ::
      leases[u].phase == AwaitDetach(leases[t].phase.detachment)
  }

  predicate DetachOpen(phase: Phase, promises: seq<Promise>) {
    phase.Releasing? && phase.detachment < |promises| && Outstanding(promises[phase.detachment])
  }

  predicate EntriesOk(l: Ledger) {
    EntryOk(l.attachment, AttachRequest, l.promises) && EntryOk(l.detachment, LeaseDetach, l.promises)
    && EntryOk(l.reconciliation, CleanupDetach, l.promises) && OnlyCleanupsCleaned(l.promises)
  }

  predicate OnlyCleanupsCleaned(promises: seq<Promise>) {
    forall p | 0 <= p < |promises| && promises[p].outcome == Cleaned :: promises[p].kind == CleanupDetach
  }

  ghost predicate Inv(l: Ledger) {
    && l.count == |ReservedTokens(l.leases, l.generation)|
    && ExclusiveOk(l.leases, l.generation, l.exclusive)
    && PhasesOk(l.leases, l.generation, l.promises)
    && EntriesOk(l)
    && Wanted(l.leases, l.promises)
    && DetachFirst(l.leases, l.generation, l.promises)
  }

  // ----- every step keeps it -----

  lemma ReservedAfterSet(leases: seq<Lease>, t: Token, lease: Lease, generation: nat)
    requires t < |leases|
    ensures ReservedTokens(leases[t := lease], generation)
            == ReservedTokens(leases, generation) - {t} + if Reserved(lease, generation) then {t} else {}
    ensures t in ReservedTokens(leases, generation) <==> Reserved(leases[t], generation)
  {}

  /** The only member of a set of one. */
  lemma Alone<T>(s: set<T>, t: T)
    requires t in s && |s| <= 1
    ensures s == {t}
  {
    if exists u :: u in s && u != t {
      var u :| u in s && u != t;
      assert |{t, u}| <= |s| by { Smaller({t, u}, s); }
    }
  }

  lemma {:induction false} Smaller<T>(a: set<T>, b: set<T>)
    requires a <= b
    ensures |a| <= |b|
  {
    if a != {} {
      var x :| x in a;
      Smaller(a - {x}, b - {x});
    }
  }

  /** Nothing that is still open depends on token `t` waiting for it. */
  predicate Free(leases: seq<Lease>, promises: seq<Promise>, t: Token)
    requires t < |leases|
  {
    forall p | 0 <= p < |promises| && !promises[p].outcome.Settled? :: !Waits(leases[t].phase, p)
  }

  /** No other token is waiting for its detach. */
  predicate NoOther(leases: seq<Lease>, promises: seq<Promise>, t: Token) {
    forall u | 0 <= u < |leases| && u != t :: !DetachOpen(leases[u].phase, promises)
  }

  /** A reserved token that does not wait behind an open detach is the only one that could have sent one. */
  lemma NoOtherDetach(l: Ledger, t: Token)
    requires Inv(l) && t < |l.leases| && Reserved(l.leases[t], l.generation)
    requires l.leases[t].phase.AwaitDetach? ==> IsSettled(l, l.leases[t].phase.detachment)
    ensures NoOther(l.leases, l.promises, t)
  {
    hide ReservedTokens, ExclusiveOk, PhasesOk, EntriesOk, Wanted;
    forall u | 0 <= u < |l.leases| && u != t
      ensures !DetachOpen(l.leases[u].phase, l.promises)
    {
      assert DetachFirst(l.leases, l.generation, l.promises);
    }
  }

  lemma WantedAfterSet(leases: seq<Lease>, promises: seq<Promise>, t: Token, lease: Lease)
    requires Wanted(leases, promises) && t < |leases| && Free(leases, promises, t)
    ensures Wanted(leases[t := lease], promises)
  {
    var after := leases[t := lease];
    forall p | 0 <= p < |promises| && !promises[p].outcome.Settled?
      ensures exists u :: 0 <= u < |after| && Waits(after[u].phase, p)
    {
      var u :| 0 <= u < |leases| && Waits(leases[u].phase, p);
      assert after[u] == leases[u];
    }
  }

  lemma DetachFirstAfterSet(leases: seq<Lease>, generation: nat, promises: seq<Promise>, t: Token, lease: Lease)
    requires DetachFirst(leases, generation, promises) && t < |leases|
    requires !DetachOpen(lease.phase, promises)
    requires !Reserved(lease, generation) || NoOther(leases, promises, t)
    ensures DetachFirst(leases[t := lease], generation, promises)
  {}

  lemma ExclusiveAfterSet(leases: seq<Lease>, generation: nat, exclusive: Option<Token>, t: Token, phase: Phase)
    requires ExclusiveOk(leases, generation, exclusive) && t < |leases| && Reserved(leases[t], generation)
    ensures var lease := leases[t].(phase := phase);
            ExclusiveOk(leases[t := lease], generation,
                        if Reserved(lease, generation) || exclusive != Some(t) then exclusive else None)
  {
    var lease := leases[t].(phase := phase);
    hide ReservedTokens;
    ReservedAfterSet(leases, t, lease, generation);
  }

  lemma PhasesAfterSet(leases: seq<Lease>, generation: nat, promises: seq<Promise>, t: Token, lease: Lease)
    requires PhasesOk(leases, generation, promises) && t < |leases| && PhaseOk(lease.phase, generation, promises)
    ensures PhasesOk(leases[t := lease], generation, promises)
  {
    hide PhaseOk;
  }

  /** A token moves on without being given back. */
  lemma SetKeeps(l: Ledger, t: Token, phase: Phase)
    requires Inv(l) && t < |l.leases| && Reserved(l.leases[t], l.generation)
    requires Free(l.leases, l.promises, t) && NoOther(l.leases, l.promises, t)
    requires Reserved(l.leases[t].(phase := phase), l.generation)
    requires PhaseOk(phase, l.generation, l.promises) && !DetachOpen(phase, l.promises)
    ensures Inv(Set(l, t, phase))
  {
    hide ReservedTokens, ExclusiveOk, PhasesOk, Wanted, DetachFirst, Free, NoOther, EntryOk;
    var lease := l.leases[t].(phase := phase);
    ReservedAfterSet(l.leases, t, lease, l.generation);
    assert ReservedTokens(l.leases[t := lease], l.generation) == ReservedTokens(l.leases, l.generation);
    ExclusiveAfterSet(l.leases, l.generation, l.exclusive, t, phase);
    PhasesAfterSet(l.leases, l.generation, l.promises, t, lease);
    WantedAfterSet(l.leases, l.promises, t, lease);
    DetachFirstAfterSet(l.leases, l.generation, l.promises, t, lease);
  }

  /** A token on its way out that an invalidation has overtaken. */
  predicate Stale(l: Ledger, t: Token) {
    t < |l.leases|
    && match l.leases[t].phase
       case Releasing(g, d, _) => g < l.generation && IsSettled(l, d)
       case ReleaseFailed(g, _) => g < l.generation
       case _ => false
  }

  /** A release of an older generation goes on without touching what is counted now. */
  lemma StaleSetKeeps(l: Ledger, t: Token, phase: Phase)
    requires Inv(l) && Stale(l, t)
    requires phase == Released || (phase.ReleaseFailed? && phase.generation < l.generation)
    ensures Inv(Set(l, t, phase))
  {
    hide ReservedTokens, ExclusiveOk, PhasesOk, Wanted, DetachFirst, NoOther, EntryOk;
    var lease := l.leases[t].(phase := phase);
    ReservedAfterSet(l.leases, t, lease, l.generation);
    assert ReservedTokens(l.leases[t := lease], l.generation) == ReservedTokens(l.leases, l.generation);
    ExclusiveAfterStaleSet(l, t, lease);
    PhasesAfterSet(l.leases, l.generation, l.promises, t, lease);
    WantedAfterSet(l.leases, l.promises, t, lease);
    DetachFirstAfterSet(l.leases, l.generation, l.promises, t, lease);
  }

  lemma ExclusiveAfterStaleSet(l: Ledger, t: Token, lease: Lease)
    requires ExclusiveOk(l.leases, l.generation, l.exclusive) && t < |l.leases|
    requires !Reserved(l.leases[t], l.generation) && !Reserved(lease, l.generation)
    ensures ExclusiveOk(l.leases[t := lease], l.generation, l.exclusive)
  {
    hide ReservedTokens, Reserved;
    ReservedAfterSet(l.leases, t, lease, l.generation);
    assert ReservedTokens(l.leases[t := lease], l.generation) == ReservedTokens(l.leases, l.generation);
  }

  lemma DropKeeps(l: Ledger, t: Token)
    requires Inv(l) && t < |l.leases| && Reserved(l.leases[t], l.generation)
    requires Free(l.leases, l.promises, t)
    ensures Inv(Drop(l, t))
  {
    hide ReservedTokens, ExclusiveOk, PhasesOk, Wanted, DetachFirst, Free, NoOther, EntryOk;
    var lease := l.leases[t].(phase := Released);
    ReservedAfterSet(l.leases, t, lease, l.generation);
    ExclusiveAfterSet(l.leases, l.generation, l.exclusive, t, Released);
    PhasesAfterSet(l.leases, l.generation, l.promises, t, lease);
    WantedAfterSet(l.leases, l.promises, t, lease);
    DetachFirstAfterSet(l.leases, l.generation, l.promises, t, lease);
  }

  predicate NoneOpen(kind: Kind, promises: seq<Promise>) {
    forall p | 0 <= p < |promises| && promises[p].kind == kind :: !Outstanding(promises[p])
  }

  lemma PhasesAfterSend(leases: seq<Lease>, generation: nat, promises: seq<Promise>, promise: Promise)
    requires PhasesOk(leases, generation, promises)
    ensures PhasesOk(leases, generation, promises + [promise])
  {}

  lemma WantedAfterStart(leases: seq<Lease>, promises: seq<Promise>, t: Token, lease: Lease, promise: Promise)
    requires Wanted(leases, promises) && t < |leases| && Free(leases, promises, t)
    requires Waits(lease.phase, |promises|)
    ensures Wanted(leases[t := lease], promises + [promise])
  {
    var after, sent := leases[t := lease], promises + [promise];
    WantedAfterSet(leases, promises, t, lease);
    forall p | 0 <= p < |sent| && !sent[p].outcome.Settled?
      ensures exists u :: 0 <= u < |after| && Waits(after[u].phase, p)
    {
      if p == |promises| {
        assert Waits(after[t].phase, p);
      } else {
        assert sent[p] == promises[p];
      }
    }
  }

  lemma DetachFirstAfterStart(leases: seq<Lease>, generation: nat, promises: seq<Promise>, t: Token, lease: Lease,
                              promise: Promise)
    requires t < |leases| && PhasesOk(leases, generation, promises) && NoOther(leases, promises, t)
    requires lease.phase.Releasing? ==> ReservedTokens(leases, generation) <= {t}
    ensures DetachFirst(leases[t := lease], generation, promises + [promise])
  {
    var after, sent := leases[t := lease], promises + [promise];
    forall u | 0 <= u < |leases| && u != t
      ensures !DetachOpen(after[u].phase, sent)
    {
      assert PhaseOk(leases[u].phase, generation, promises) && !DetachOpen(leases[u].phase, promises);
    }
    if lease.phase.Releasing? {
      forall u | 0 <= u < |leases| && u != t
        ensures !Reserved(after[u], generation)
      {
        assert u !in ReservedTokens(leases, generation);
      }
    }
  }

  lemma EntriesAfterStart(l: Ledger, t: Token, kind: Kind, phase: Phase, connected: bool)
    requires EntriesOk(l) && t < |l.leases| && NoneOpen(kind, l.promises)
    ensures EntriesOk(Start(l, t, kind, phase, connected))
  {
    hide EntryOk;
    var promise := Promise(kind, if connected then Pending else Answered(false));
    EntryAfterSend(l.attachment, AttachRequest, l.promises, promise);
    EntryAfterSend(l.detachment, LeaseDetach, l.promises, promise);
    EntryAfterSend(l.reconciliation, CleanupDetach, l.promises, promise);
  }

  lemma EntryAfterSend(entry: Option<PromiseId>, kind: Kind, promises: seq<Promise>, promise: Promise)
    requires EntryOk(entry, kind, promises) && (promise.kind == kind ==> NoneOpen(kind, promises))
    ensures EntryOk(if promise.kind == kind then Some(|promises|) else entry, kind, promises + [promise])
  {}

  /** A token moves on by sending a request and waiting for it. */
  lemma StartKeeps(l: Ledger, t: Token, kind: Kind, phase: Phase, connected: bool)
    requires Inv(l) && t < |l.leases| && Reserved(l.leases[t], l.generation)
    requires Free(l.leases, l.promises, t) && NoOther(l.leases, l.promises, t) && NoneOpen(kind, l.promises)
    requires Waits(phase, |l.promises|) && Reserved(l.leases[t].(phase := phase), l.generation)
    requires PhaseOk(phase, l.generation, l.promises + [Promise(kind, Pending)])
    requires phase.Releasing? ==> ReservedTokens(l.leases, l.generation) <= {t}
    ensures Inv(Start(l, t, kind, phase, connected))
  {
    hide ReservedTokens, ExclusiveOk, PhasesOk, Wanted, DetachFirst, Free, NoOther, EntriesOk, NoneOpen, WithEntry;
    WithEntryOnly(Set(Send(l, kind, connected), t, phase), kind, Some(|l.promises|));
    var lease := l.leases[t].(phase := phase);
    var promise := Promise(kind, if connected then Pending else Answered(false));
    ReservedAfterSet(l.leases, t, lease, l.generation);
    assert ReservedTokens(l.leases[t := lease], l.generation) == ReservedTokens(l.leases, l.generation);
    ExclusiveAfterSet(l.leases, l.generation, l.exclusive, t, phase);
    PhasesAfterSend(l.leases, l.generation, l.promises, promise);
    PhasesAfterSet(l.leases, l.generation, l.promises + [promise], t, lease);
    WantedAfterStart(l.leases, l.promises, t, lease, promise);
    DetachFirstAfterStart(l.leases, l.generation, l.promises, t, lease, promise);
    EntriesAfterStart(l, t, kind, phase, connected);
  }

  /** Recording an entry changes nothing else that the invariant speaks of. */
  lemma WithEntryOnly(l: Ledger, kind: Kind, entry: Option<PromiseId>)
    ensures var r := WithEntry(l, kind, entry);
            r.count == l.count && r.exclusive == l.exclusive && r.generation == l.generation
            && r.leases == l.leases && r.promises == l.promises
  {}

  lemma ReservedAfterReserve(leases: seq<Lease>, lease: Lease, generation: nat)
    requires Reserved(lease, generation)
    ensures ReservedTokens(leases + [lease], generation) == ReservedTokens(leases, generation) + {|leases|}
    ensures |ReservedTokens(leases + [lease], generation)| == |ReservedTokens(leases, generation)| + 1
  {
    assert |leases| !in ReservedTokens(leases, generation);
    assert ReservedTokens(leases + [lease], generation) == ReservedTokens(leases, generation) + {|leases|};
  }

  lemma WantedAfterReserve(leases: seq<Lease>, promises: seq<Promise>, lease: Lease)
    requires Wanted(leases, promises)
    ensures Wanted(leases + [lease], promises)
  {
    var after := leases + [lease];
    forall p | 0 <= p < |promises| && !promises[p].outcome.Settled?
      ensures exists u :: 0 <= u < |after| && Waits(after[u].phase, p)
    {
      var u :| 0 <= u < |leases| && Waits(leases[u].phase, p);
      assert after[u] == leases[u];
    }
  }

  /** The phase that a new token may start in: behind every open detach. */
  predicate Behind(leases: seq<Lease>, promises: seq<Promise>, phase: Phase) {
    forall u | 0 <= u < |leases| && DetachOpen(leases[u].phase, promises) ::
      phase == AwaitDetach(leases[u].phase.detachment)
  }

  lemma DetachFirstAfterReserve(leases: seq<Lease>, generation: nat, promises: seq<Promise>, lease: Lease)
    requires DetachFirst(leases, generation, promises) && Behind(leases, promises, lease.phase)
    requires !lease.phase.Releasing?
    ensures DetachFirst(leases + [lease], generation, promises)
  {}

  lemma ReserveKeeps(l: Ledger, mode: Mode, phase: Phase)
    requires Inv(l) && !Refused(l, mode) && Behind(l.leases, l.promises, phase) && !phase.Releasing?
    requires Reserved(Lease(mode, phase), l.generation) && PhaseOk(phase, l.generation, l.promises)
    ensures Inv(Reserve(l, mode, phase))
  {
    hide ReservedTokens, ExclusiveOk, Wanted, DetachFirst, EntryOk, PhaseOk, Reserved, Behind;
    var lease := Lease(mode, phase);
    ReservedAfterReserve(l.leases, lease, l.generation);
    ExclusiveAfterReserve(l, lease);
    WantedAfterReserve(l.leases, l.promises, lease);
    DetachFirstAfterReserve(l.leases, l.generation, l.promises, lease);
  }

  lemma ExclusiveAfterReserve(l: Ledger, lease: Lease)
    requires l.count == |ReservedTokens(l.leases, l.generation)| && ExclusiveOk(l.leases, l.generation, l.exclusive)
    requires !Refused(l, lease.mode) && Reserved(lease, l.generation)
    ensures ExclusiveOk(l.leases + [lease], l.generation,
                        if lease.mode == Exclusive then Some(|l.leases|) else l.exclusive)
  {
    ReservedAfterReserve(l.leases, lease, l.generation);
    var before := ReservedTokens(l.leases, l.generation);
    if lease.mode == Exclusive {
      assert before == {};
      forall t | 0 <= t < |l.leases| ensures !Reserved(l.leases[t], l.generation) {
        assert t !in before;
      }
    }
    hide ReservedTokens;
  }

  /** An outcome moves forward: a settled promise stays settled, and one that can only fail goes on to fail. */
  predicate Later(before: Outcome, after: Outcome) {
    (before.Settled? ==> after.Settled?) && (CannotSucceed(before) ==> CannotSucceed(after))
  }

  lemma ResolveKeeps(l: Ledger, p: PromiseId, outcome: Outcome)
    requires Inv(l) && p < |l.promises| && Later(l.promises[p].outcome, outcome)
    requires outcome == Cleaned ==> l.promises[p].kind == CleanupDetach
    ensures Inv(Resolve(l, p, outcome))
  {
    assert Progress(l.promises, Resolve(l, p, outcome).promises);
    hide ReservedTokens, ExclusiveOk, PhasesOk, Wanted, DetachFirst, EntriesOk;
    KeptByResolve(l, Resolve(l, p, outcome).promises);
  }

  /** The same promises, none of them settled before and open now. */
  predicate Progress(before: seq<Promise>, after: seq<Promise>) {
    |before| == |after|
    && forall p | 0 <= p < |before| :: 
      && before[p].kind == after[p].kind && Later(before[p].outcome, after[p].outcome)
      && (after[p].outcome == Cleaned ==> after[p].kind == CleanupDetach)
  }

  lemma KeptByResolve(l: Ledger, after: seq<Promise>)
    requires Progress(l.promises, after)
    ensures PhasesOk(l.leases, l.generation, l.promises) ==> PhasesOk(l.leases, l.generation, after)
    ensures EntriesOk(l) ==> EntriesOk(l.(promises := after))
    ensures Wanted(l.leases, l.promises) ==> Wanted(l.leases, after)
    ensures DetachFirst(l.leases, l.generation, l.promises) ==> DetachFirst(l.leases, l.generation, after)
  {
    hide Waits, Reserved;
  }

  /** The entry of a settled promise may go. */
  lemma ForgetKeeps(l: Ledger, kind: Kind)
    requires Inv(l)
    requires EntryOf(l, kind).Some? ==> IsSettled(l, EntryOf(l, kind).value)
    ensures Inv(WithEntry(l, kind, None))
  {
    hide ReservedTokens, ExclusiveOk, PhasesOk, Wanted, DetachFirst;
  }

  /** What the session looks like to the client is no part of the bookkeeping. */
  lemma MarksKeep(l: Ledger, cleanup: bool, attached: bool)
    requires Inv(l)
    ensures Inv(l.(cleanup := cleanup, attached := attached))
  {
    hide ReservedTokens, ExclusiveOk, PhasesOk, Wanted, DetachFirst, EntryOk;
  }

  lemma NoneOpenWithoutEntry(l: Ledger, kind: Kind)
    requires EntriesOk(l) && EntryOf(l, kind) == None
    ensures NoneOpen(kind, l.promises)
  {}

  /** A token in the middle of an acquisition, with nothing open that it waits for. */
  ghost predicate Ready(l: Ledger, t: Token) {
    && Inv(l) && t < |l.leases| && Reserved(l.leases[t], l.generation)
    && Free(l.leases, l.promises, t) && NoOther(l.leases, l.promises, t)
  }

  lemma AfterCleanupKeeps(l: Ledger, t: Token, reconciled: bool, connected: bool)
    requires Ready(l, t)
    ensures Inv(AfterCleanup(l, t, reconciled, connected))
  {
    hide ReservedTokens, ExclusiveOk, PhasesOk, Wanted, DetachFirst, Free, NoOther, NoneOpen, Start, Set;
    if !reconciled && l.attached {
      SetKeeps(l, t, Active(l.generation));
    } else if l.attachment.Some? {
      SetKeeps(l, t, AwaitAttach(l.attachment.value));
    } else {
      NoneOpenWithoutEntry(l, AttachRequest);
      StartKeeps(l, t, AttachRequest, AwaitAttach(|l.promises|), connected);
    }
  }

  lemma AfterDetachKeeps(l: Ledger, t: Token, connected: bool)
    requires Ready(l, t)
    ensures Inv(AfterDetach(l, t, connected))
  {
    hide ReservedTokens, ExclusiveOk, PhasesOk, Wanted, DetachFirst, Free, NoOther, NoneOpen, Start, Set,
         AfterCleanup;
    if !l.cleanup {
      AfterCleanupKeeps(l, t, false, connected);
    } else if l.reconciliation.Some? {
      SetKeeps(l, t, AwaitReconcile(l.reconciliation.value));
    } else {
      NoneOpenWithoutEntry(l, CleanupDetach);
      StartKeeps(l, t, CleanupDetach, AwaitReconcile(|l.promises|), connected);
    }
  }

  /** Where a release has its detach open, that detach is the one on record. */
  lemma OpenDetachRecorded(l: Ledger, u: Token)
    requires Inv(l) && u < |l.leases| && DetachOpen(l.leases[u].phase, l.promises)
    ensures l.detachment == Some(l.leases[u].phase.detachment) && Reserved(l.leases[u], l.generation)
  {
    hide ReservedTokens, ExclusiveOk, Wanted, DetachFirst;
    assert PhaseOk(l.leases[u].phase, l.generation, l.promises);
  }

  lemma BehindOpenDetach(l: Ledger)
    requires Inv(l)
    ensures Behind(l.leases, l.promises, if l.detachment.Some? then AwaitDetach(l.detachment.value) else Acquiring)
  {
    hide Inv, Reserved;
    forall u | 0 <= u < |l.leases| && DetachOpen(l.leases[u].phase, l.promises)
      ensures l.detachment == Some(l.leases[u].phase.detachment)
    {
      OpenDetachRecorded(l, u);
    }
  }

  lemma AcquireKeeps(l: Ledger, mode: Mode, connected: bool)
    requires Inv(l)
    ensures Inv(DoAcquire(l, mode, connected))
  {
    hide ReservedTokens, ExclusiveOk, PhasesOk, Wanted, DetachFirst, AfterDetach, Refused, Behind;
    if !Refused(l, mode) {
      BehindOpenDetach(l);
      if l.detachment.Some? {
        ReserveKeeps(l, mode, AwaitDetach(l.detachment.value));
      } else {
        ReserveKeeps(l, mode, Acquiring);
        NewcomerReady(l, mode);
        AfterDetachKeeps(Reserve(l, mode, Acquiring), |l.leases|, connected);
      }
    }
  }

  lemma NewcomerReady(l: Ledger, mode: Mode)
    requires Inv(Reserve(l, mode, Acquiring))
    ensures Ready(Reserve(l, mode, Acquiring), |l.leases|)
  {
    hide Inv;
    NoOtherDetach(Reserve(l, mode, Acquiring), |l.leases|);
  }

  lemma CreatedKeeps(l: Ledger)
    requires Inv(l)
    ensures Inv(DoCreated(l))
  {
    hide ReservedTokens, PhasesOk, Wanted, EntriesOk;
    if !Refused(l, Exclusive) {
      assert l.count == 0;
      NobodyReserved(l);
      ReserveKeeps(l, Exclusive, Active(l.generation));
    }
  }

  lemma NobodyReserved(l: Ledger)
    requires Inv(l) && l.count == 0
    ensures forall u | 0 <= u < |l.leases| :: !Reserved(l.leases[u], l.generation) && !DetachOpen(l.leases[u].phase, l.promises)
  {
    hide ExclusiveOk, Wanted, DetachFirst, EntriesOk;
    var reserved := ReservedTokens(l.leases, l.generation);
    forall u | 0 <= u < |l.leases|
      ensures !Reserved(l.leases[u], l.generation) && !DetachOpen(l.leases[u].phase, l.promises)
    {
      assert u !in reserved;
      assert PhaseOk(l.leases[u].phase, l.generation, l.promises);
    }
  }

  /** A token resumed after what it waited for has settled. */
  lemma ResumedReady(l: Ledger, t: Token)
    requires Inv(l) && t < |l.leases|
    requires match l.leases[t].phase
             case AwaitDetach(d) => IsSettled(l, d)
             case AwaitReconcile(r) => IsSettled(l, r)
             case AwaitAttach(a) => IsSettled(l, a)
             case Releasing(g, d, _) => g == l.generation && IsSettled(l, d)
             case ReleaseFailed(g, _) => g == l.generation
             case Active(g) => g == l.generation
             case _ => false
    ensures Ready(l, t)
  {
    hide ReservedTokens, ExclusiveOk, Wanted, DetachFirst, EntriesOk, NoOther;
    assert PhaseOk(l.leases[t].phase, l.generation, l.promises);
    NoOtherDetach(l, t);
  }

  /** Clearing an entry once its promise has settled, if it is the one on record. */
  lemma WithoutKeeps(l: Ledger, kind: Kind, p: PromiseId)
    requires Inv(l) && IsSettled(l, p)
    ensures Inv(WithEntry(l, kind, Without(EntryOf(l, kind), p)))
  {
    hide ReservedTokens, ExclusiveOk, PhasesOk, Wanted, DetachFirst, EntryOk;
    if EntryOf(l, kind) == Some(p) {
      ForgetKeeps(l, kind);
    }
  }

  lemma ReadyAfterEntry(l: Ledger, kind: Kind, entry: Option<PromiseId>, t: Token)
    requires Ready(l, t) && Inv(WithEntry(l, kind, entry))
    ensures Ready(WithEntry(l, kind, entry), t)
  {
    hide Inv, Free, NoOther;
    WithEntryOnly(l, kind, entry);
  }

  /** A release resumed with the outcome of its detach; one of an older generation can only have failed. */
  lemma ResumedReleaseKeeps(l: Ledger, t: Token)
    requires Inv(l) && t < |l.leases| && l.leases[t].phase.Releasing? && IsSettled(l, l.leases[t].phase.detachment)
    ensures var phase := l.leases[t].phase;
            var rest := l.(detachment := Without(l.detachment, phase.detachment));
            Inv(if l.promises[phase.detachment].outcome.ok then Drop(rest, t)
                else Set(rest, t, ReleaseFailed(phase.generation, phase.relinquish)))
  {
    hide Inv, Free, NoOther, Drop, Set;
    var Releasing(generation, d, relinquish) := l.leases[t].phase;
    var rest := l.(detachment := Without(l.detachment, d));
    PhaseOfToken(l, t);
    WithoutKeeps(l, LeaseDetach, d);
    if generation != l.generation {
      StaleSetKeeps(rest, t, ReleaseFailed(generation, relinquish));
    } else {
      ResumedReady(l, t);
      ReadyAfterEntry(l, LeaseDetach, Without(l.detachment, d), t);
      if l.promises[d].outcome.ok {
        DropKeeps(rest, t);
      } else {
        SetKeeps(rest, t, ReleaseFailed(generation, relinquish));
      }
    }
  }

  lemma ResumeKeeps(l: Ledger, t: Token, connected: bool)
    requires Inv(l)
    ensures Inv(DoResume(l, t, connected))
  {
    hide Inv, Free, NoOther, AfterDetach, AfterCleanup, Drop, Set;
    if t < |l.leases| {
      match l.leases[t].phase
      case AwaitDetach(d) =>
        if IsSettled(l, d) {
          ResumedReady(l, t);
          AfterDetachKeeps(l, t, connected);
        }
      case AwaitReconcile(r) =>
        if IsSettled(l, r) {
          ResumedReady(l, t);
          if l.promises[r].outcome.ok {
            AfterCleanupKeeps(l, t, true, connected);
          } else {
            DropKeeps(l, t);
          }
        }
      case AwaitAttach(a) =>
        if IsSettled(l, a) {
          ResumedReady(l, t);
          WithoutKeeps(l, AttachRequest, a);
          ReadyAfterEntry(l, AttachRequest, Without(l.attachment, a), t);
          var rest := l.(attachment := Without(l.attachment, a));
          if l.promises[a].outcome.ok {
            SetKeeps(rest, t, Active(l.generation));
          } else {
            DropKeeps(rest, t);
          }
        }
      case Releasing(generation, d, relinquish) =>
        if IsSettled(l, d) {
          ResumedReleaseKeeps(l, t);
        }
      case ReleaseFailed(generation, relinquish) =>
        PhaseOfToken(l, t);
        if generation != l.generation {
          StaleSetKeeps(l, t, Released);
        } else {
          ResumedReady(l, t);
          if relinquish {
            DropKeeps(l, t);
            MarksKeep(Drop(l, t), true, Drop(l, t).attached);
          } else {
            SetKeeps(l, t, Active(generation));
          }
        }
      case _ =>
    }
  }

  lemma PhaseOfToken(l: Ledger, t: Token)
    requires Inv(l) && t < |l.leases|
    ensures PhaseOk(l.leases[t].phase, l.generation, l.promises)
  {}

  lemma ReleaseKeeps(l: Ledger, t: Token, relinquish: bool, connected: bool)
    requires Inv(l)
    ensures Inv(DoRelease(l, t, relinquish, connected))
  {
    hide Inv, Free, NoOther, Drop, Start;
    if CanRelease(l, t, connected) {
      ResumedReady(l, t);
      if l.count <= 1 {
        OnlyReserved(l, t);
        StartKeeps(l, t, LeaseDetach, Releasing(l.generation, |l.promises|, relinquish), connected);
      } else {
        DropKeeps(l, t);
      }
    }
  }

  /** The last reserved token leaves no lease detach open. */
  lemma OnlyReserved(l: Ledger, t: Token)
    requires Ready(l, t) && l.count <= 1 && l.leases[t].phase.Active?
    ensures ReservedTokens(l.leases, l.generation) == {t} && NoneOpen(LeaseDetach, l.promises)
  {
    hide ExclusiveOk, DetachFirst, EntryOk;
    Alone(ReservedTokens(l.leases, l.generation), t);
    forall p | 0 <= p < |l.promises| && l.promises[p].kind == LeaseDetach
      ensures !Outstanding(l.promises[p])
    {
      OpenHasWaiter(l, p);
    }
  }

  /** Someone reserved waits for an outstanding promise, in the phase that belongs to its kind. */
  lemma OpenHasWaiter(l: Ledger, p: PromiseId)
    requires Inv(l) && p < |l.promises|
    ensures !Outstanding(l.promises[p])
            || exists u :: u in ReservedTokens(l.leases, l.generation) && WaitsFor(l.leases[u].phase, l.promises[p].kind, p)
  {
    hide ExclusiveOk, DetachFirst, EntryOk;
    if Outstanding(l.promises[p]) {
      var u :| 0 <= u < |l.leases| && Waits(l.leases[u].phase, p);
      assert PhaseOk(l.leases[u].phase, l.generation, l.promises);
      assert u in ReservedTokens(l.leases, l.generation) && WaitsFor(l.leases[u].phase, l.promises[p].kind, p);
    }
  }

  predicate WaitsFor(phase: Phase, kind: Kind, p: PromiseId) {
    match kind
    case AttachRequest => phase == AwaitAttach(p)
    case LeaseDetach => phase.Releasing? && phase.detachment == p
    case CleanupDetach => phase == AwaitReconcile(p)
  }

  lemma RespondKeeps(l: Ledger, p: PromiseId, ok: bool, attached: bool)
    requires Inv(l)
    ensures Inv(DoRespond(l, p, ok, attached))
  {
    hide Inv;
    if p < |l.promises| && l.promises[p].outcome.Pending? {
      ResolveKeeps(l, p, Answered(ok));
      var r := Resolve(l, p, Answered(ok));
      MarksKeep(r, r.cleanup, attached);
      MarksKeep(r, r.cleanup, false);
    }
  }

  lemma ContinueKeeps(l: Ledger, p: PromiseId)
    requires Inv(l)
    ensures Inv(DoContinue(l, p))
  {
    hide Inv;
    if p < |l.promises| && !l.promises[p].outcome.Settled? && !l.promises[p].outcome.Pending? {
      RecordedIfOpen(l, p);
      var outcome := l.promises[p].outcome;
      if outcome.Answered? && outcome.ok && l.promises[p].kind == CleanupDetach {
        ResolveKeeps(l, p, Cleaned);
        MarksKeep(Resolve(l, p, Cleaned), false, l.attached);
      } else {
        var r := Resolve(l, p, Settled(outcome == Cleaned || outcome.ok));
        ResolveKeeps(l, p, Settled(outcome == Cleaned || outcome.ok));
        if l.promises[p].kind == CleanupDetach {
          ForgetKeeps(r, CleanupDetach);
        }
      }
    }
  }

  lemma RecordedIfOpen(l: Ledger, p: PromiseId)
    requires Inv(l) && p < |l.promises| && !l.promises[p].outcome.Settled?
    ensures Outstanding(l.promises[p]) ==> EntryOf(l, l.promises[p].kind) == Some(p)
    ensures l.promises[p].outcome == Cleaned ==> l.promises[p].kind == CleanupDetach
  {}

  // ----- losing every lease at once -----

  /** No token is being acquired, and no release waits for a detach that has succeeded or may still succeed. */
  predicate Harmless(leases: seq<Lease>, promises: seq<Promise>) {
    forall t | 0 <= t < |leases| :: Spent(leases[t].phase, promises)
  }

  predicate Spent(phase: Phase, promises: seq<Promise>) {
    !BeingAcquired(phase)
    && (phase.Releasing? ==> phase.detachment < |promises| && CannotSucceed(promises[phase.detachment].outcome))
  }

  /** What becomes of a token when all leases lose their meaning: counted no more, and past doing harm. */
  lemma SpentExact(lease: Lease, generation: nat, before: seq<Promise>, after: seq<Promise>)
    requires PhaseOk(lease.phase, generation, before) && Progress(before, after)
    ensures Spent(lease.phase, after)
            <==> !Reserved(lease, generation + 1) && PhaseOk(lease.phase, generation + 1, after)
  {}

  lemma NobodyLeft(leases: seq<Lease>, generation: nat)
    ensures |ReservedTokens(leases, generation)| == 0 <==> forall t | 0 <= t < |leases| :: !Reserved(leases[t], generation)
  {
    var reserved := ReservedTokens(leases, generation);
    if |reserved| == 0 {
      forall t | 0 <= t < |leases| ensures !Reserved(leases[t], generation) {
        assert t !in reserved;
      }
    } else {
      var t :| t in reserved;
      assert Reserved(leases[t], generation);
    }
  }

  /** Invalidating the leases, while requests may fail, keeps the bookkeeping exactly if every token is past doing harm. */
  lemma InvalidateExact(l: Ledger, after: seq<Promise>)
    requires Inv(l) && Progress(l.promises, after)
    ensures Inv(Invalidate(l).(promises := after)) <==> Harmless(l.leases, after)
  {
    hide ReservedTokens, Wanted, EntriesOk, PhaseOk, Reserved, Spent, Progress, DetachOpen;
    KeptByResolve(l, after);
    forall t | 0 <= t < |l.leases|
      ensures Spent(l.leases[t].phase, after)
              <==> !Reserved(l.leases[t], l.generation + 1) && PhaseOk(l.leases[t].phase, l.generation + 1, after)
    {
      SpentExact(l.leases[t], l.generation, l.promises, after);
    }
    NobodyLeft(l.leases, l.generation + 1);
    EntriesSurvive(l, after);
  }

  lemma EntriesSurvive(l: Ledger, after: seq<Promise>)
    ensures EntriesOk(Invalidate(l).(promises := after)) <==> EntriesOk(l.(promises := after))
  {}

  lemma IdleIsHarmless(l: Ledger, after: seq<Promise>)
    requires Inv(l) && l.count == 0 && Progress(l.promises, after)
    ensures Harmless(l.leases, after)
  {
    hide ExclusiveOk, Wanted, DetachFirst, EntriesOk;
    NobodyReserved(l);
    forall t | 0 <= t < |l.leases|
      ensures Spent(l.leases[t].phase, after)
    {
      assert PhaseOk(l.leases[t].phase, l.generation, l.promises);
    }
  }

  lemma RejectedIsProgress(l: Ledger)
    requires EntriesOk(l)
    ensures Progress(l.promises, Rejected(l.promises)) && Progress(l.promises, l.promises)
  {
    hide EntryOk;
  }

  /** Losing the connection rejects what is pending, so a release that waits for its detach can only fail. */
  predicate Admissible(l: Ledger, e: Event) {
    match e
    case Removed => Harmless(l.leases, l.promises)
    case Dropped => Harmless(l.leases, Rejected(l.promises))
    case _ => true
  }

  lemma RemovedExact(l: Ledger, connected: bool)
    requires Inv(l)
    ensures Inv(Step(l, Removed, connected)) <==> Admissible(l, Removed)
  {
    InvSettles(l);
    hide Inv, Harmless;
    InvalidateExact(l, l.promises);
    MarksExact(Invalidate(l), false, false);
  }

  lemma DroppedExact(l: Ledger, connected: bool)
    requires Inv(l)
    ensures Inv(Step(l, Dropped, connected)) <==> Admissible(l, Dropped)
  {
    InvSettles(l);
    hide Inv, Harmless, Rejected, Progress;
    var after := Rejected(l.promises);
    if l.count > 0 {
      InvalidateExact(l, after);
      MarksExact(Invalidate(l).(promises := after), false, false);
    } else {
      IdleIsHarmless(l, after);
      ProgressKeeps(l, after);
      MarksExact(l.(promises := after), false, false);
    }
  }

  lemma InvSettles(l: Ledger)
    requires Inv(l)
    ensures Progress(l.promises, Rejected(l.promises)) && Progress(l.promises, l.promises)
  {
    hide ReservedTokens, ExclusiveOk, PhasesOk, Wanted, DetachFirst;
    RejectedIsProgress(l);
  }

  lemma ProgressKeeps(l: Ledger, after: seq<Promise>)
    requires Inv(l) && Progress(l.promises, after)
    ensures Inv(l.(promises := after))
  {
    hide ReservedTokens, ExclusiveOk, PhasesOk, Wanted, DetachFirst, EntriesOk, Progress;
    KeptByResolve(l, after);
  }

  /** Every step keeps the bookkeeping, except that losing all leases does so exactly while no token can do harm. */
  lemma StepExact(l: Ledger, e: Event, connected: bool)
    requires Inv(l)
    ensures Inv(Step(l, e, connected)) <==> Admissible(l, e)
  {
    match e
    case Removed => RemovedExact(l, connected);
    case Dropped => DroppedExact(l, connected);
    case _ => OtherStepsKeep(l, e, connected);
  }

  lemma OtherStepsKeep(l: Ledger, e: Event, connected: bool)
    requires Inv(l) && !e.Removed? && !e.Dropped?
    ensures Inv(Step(l, e, connected))
  {
    hide Inv, DoAcquire, DoCreated, DoResume, DoRelease, DoRespond, DoContinue;
    match e
    case Acquire(mode) => AcquireKeeps(l, mode, connected);
    case Created => CreatedKeeps(l);
    case Resume(t) => ResumeKeeps(l, t, connected);
    case Release(t, relinquish) => ReleaseKeeps(l, t, relinquish, connected);
    case Respond(p, ok, attached) => RespondKeeps(l, p, ok, attached);
    case Continue(p) => ContinueKeeps(l, p);
    case Observed(attached) => MarksKeep(l, l.cleanup, attached);
    case _ =>
  }

  lemma MarksExact(l: Ledger, cleanup: bool, attached: bool)
    ensures Inv(l) <==> Inv(l.(cleanup := cleanup, attached := attached))
  {
    hide ReservedTokens, ExclusiveOk, PhasesOk, Wanted, DetachFirst, EntryOk;
  }

  // ----- whole runs -----

  function Run(l: Ledger, events: seq<(Event, bool)>): Ledger
    decreases |events|
  {
    if events == [] then l else Run(Step(l, events[0].0, events[0].1), events[1..])
  }

  /** Every invalidation finds all tokens past doing harm. */
  predicate AdmissibleRun(l: Ledger, events: seq<(Event, bool)>)
    decreases |events|
  {
    events == []
    || (Admissible(l, events[0].0) && AdmissibleRun(Step(l, events[0].0, events[0].1), events[1..]))
  }

  lemma {:induction false} RunInv(l: Ledger, events: seq<(Event, bool)>)
    requires Inv(l) && AdmissibleRun(l, events)
    ensures Inv(Run(l, events))
    decreases |events|
  {
    hide Inv, Step, Admissible;
    if events != [] {
      StepExact(l, events[0].0, events[0].1);
      RunInv(Step(l, events[0].0, events[0].1), events[1..]);
    }
  }

  lemma EmptyInv()
    ensures Inv(EMPTY)
  {}

  // ----- what an invalidation may cost -----

  /** What the client promises of its counts. */
  predicate CountsOk(l: Ledger) {
    l.count == |ReservedTokens(l.leases, l.generation)| && ExclusiveOk(l.leases, l.generation, l.exclusive)
  }

  predicate Undisturbed(events: seq<(Event, bool)>) {
    forall i | 0 <= i < |events| :: !events[i].0.Removed? && !events[i].0.Dropped?
  }

  /** However the client goes on, its counts stay right until leases are invalidated again. */
  ghost predicate StaysCounted(l: Ledger) {
    forall events | Undisturbed(events) :: CountsOk(Run(l, events))
  }

  lemma {:induction false} UndisturbedInv(l: Ledger, events: seq<(Event, bool)>)
    requires Inv(l) && Undisturbed(events)
    ensures CountsOk(Run(l, events))
    decreases |events|
  {
    if events == [] {
      hide PhasesOk, EntriesOk, Wanted, DetachFirst, ReservedTokens, ExclusiveOk;
    } else {
      hide Inv, CountsOk, Step;
      OtherStepsKeep(l, events[0].0, events[0].1);
      UndisturbedInv(Step(l, events[0].0, events[0].1), events[1..]);
    }
  }

  lemma StaysCountedNow(l: Ledger)
    ensures StaysCounted(l) ==> CountsOk(l)
  {
    hide CountsOk;
    assert Undisturbed([]);
    assert Run(l, []) == l;
  }

  lemma StaysCountedNext(l: Ledger, e: Event, connected: bool)
    requires !e.Removed? && !e.Dropped?
    ensures StaysCounted(l) ==> StaysCounted(Step(l, e, connected))
  {
    hide CountsOk, Step;
    if StaysCounted(l) {
      forall events | Undisturbed(events)
        ensures CountsOk(Run(Step(l, e, connected), events))
      {
        var longer := [(e, connected)] + events;
        assert longer[1..] == events;
        assert Undisturbed(longer);
        assert CountsOk(Run(l, longer));
      }
    }
  }

  lemma MiscountedAtOnce(l: Ledger, t: Token)
    requires t < |l.leases| && l.count == 0 && Reserved(l.leases[t], l.generation)
    ensures !CountsOk(l)
  {
    hide ExclusiveOk, Reserved;
    assert t in ReservedTokens(l.leases, l.generation);
  }

  /** A release of an older generation whose detach may still be reported as done. */
  predicate Intruder(l: Ledger, t: Token) {
    t < |l.leases|
    && match l.leases[t].phase
       case Releasing(g, d, _) =>
         g < l.generation && d < |l.promises| && l.promises[d].kind == LeaseDetach
         && !CannotSucceed(l.promises[d].outcome) && l.promises[d].outcome != Cleaned
       case _ => false
  }

  /** The next lease is counted, and the intruder still waits. */
  lemma AcquireBesideIntruder(l: Ledger, t: Token)
    requires Intruder(l, t) && l.count == 0 && l.exclusive == None
    ensures var after := DoAcquire(l, Shared, true);
            && after.count == 1 && after.generation == l.generation && |after.leases| == |l.leases| + 1
            && after.leases[t] == l.leases[t] && Reserved(after.leases[|l.leases|], l.generation)
            && |l.promises| <= |after.promises| && (forall d | 0 <= d < |l.promises| :: after.promises[d] == l.promises[d])
  {}

  /** What the intruder then gives back is the lease of somebody else. */
  lemma IntruderTakes(l: Ledger, t: Token)
    requires Intruder(l, t) && IsSettled(l, l.leases[t].phase.detachment) && l.count == 0 && l.exclusive == None
    ensures !StaysCounted(l)
  {
    var m := DoAcquire(l, Shared, true);
    AcquireBesideIntruder(l, t);
    var after := DoResume(m, t, true);
    assert after.count == 0 && after.leases[|l.leases|] == m.leases[|l.leases|] && after.generation == l.generation
      && |after.leases| == |m.leases| by {
      hide DoAcquire;
    }
    hide CountsOk, StaysCounted, DoAcquire, DoResume, Reserved;
    MiscountedAtOnce(after, |l.leases|);
    StaysCountedNext(l, Acquire(Shared), true);
    StaysCountedNext(m, Resume(t), true);
    StaysCountedNow(after);
  }

  /** Whatever the response to its detach still has to go through. */
  lemma IntruderBreaks(l: Ledger, t: Token)
    requires Intruder(l, t) && l.count == 0 && l.exclusive == None
    ensures !StaysCounted(l)
  {
    hide StaysCounted;
    var d := l.leases[t].phase.detachment;
    if l.promises[d].outcome.Settled? {
      IntruderTakes(l, t);
    } else if l.promises[d].outcome.Answered? {
      StaysCountedNext(l, Continue(d), true);
      AnsweredIntruder(l, t);
      IntruderTakes(DoContinue(l, d), t);
    } else {
      var m := DoRespond(l, d, true, false);
      StaysCountedNext(l, Respond(d, true, false), true);
      assert Intruder(m, t) && m.promises[d].outcome == Answered(true) && m.leases == l.leases
        && m.count == 0 && m.exclusive == None;
      StaysCountedNext(m, Continue(d), true);
      AnsweredIntruder(m, t);
      IntruderTakes(DoContinue(m, d), t);
    }
  }

  lemma AnsweredIntruder(l: Ledger, t: Token)
    requires Intruder(l, t) && l.promises[l.leases[t].phase.detachment].outcome.Answered?
    ensures var after := DoContinue(l, l.leases[t].phase.detachment);
            && Intruder(after, t) && IsSettled(after, after.leases[t].phase.detachment)
            && after.leases == l.leases && after.count == l.count && after.exclusive == l.exclusive
  {}

  /** Where an invalidation finds a token that can still do harm, that token is counted no more or takes a count. */
  lemma HarmfulBreaks(l: Ledger, after: Ledger)
    requires Inv(l) && Progress(l.promises, after.promises) && after.leases == l.leases
    requires after.generation == l.generation + 1 && after.count == 0 && after.exclusive == None
    requires !Harmless(l.leases, after.promises)
    ensures !StaysCounted(after)
  {
    hide Inv, CountsOk, StaysCounted;
    var t :| 0 <= t < |l.leases| && !Spent(l.leases[t].phase, after.promises);
    PhaseOfToken(l, t);
    if BeingAcquired(l.leases[t].phase) {
      assert Reserved(after.leases[t], after.generation);
      MiscountedAtOnce(after, t);
      StaysCountedNow(after);
    } else {
      assert Intruder(after, t);
      IntruderBreaks(after, t);
    }
  }

  /**
   Removing a session or losing the connection keeps the counts right, for good, exactly if it finds no token being
   acquired and no release whose detach has succeeded or may still succeed.
   */
  lemma InvalidationExact(l: Ledger, e: Event, connected: bool)
    requires Inv(l) && (e.Removed? || e.Dropped?)
    ensures StaysCounted(Step(l, e, connected)) <==> Admissible(l, e)
  {
    var after := Step(l, e, connected);
    if Admissible(l, e) {
      StepExact(l, e, connected);
      hide Inv, Step;
      forall events | Undisturbed(events)
        ensures CountsOk(Run(after, events))
      {
        UndisturbedInv(after, events);
      }
    } else {
      InvSettles(l);
      assert l.count > 0 || e.Removed? by {
        if l.count == 0 && e.Dropped? { IdleIsHarmless(l, Rejected(l.promises)); }
      }
      hide Inv, Harmless, Rejected, Progress, StaysCounted;
      HarmfulBreaks(l, after);
    }
  }

  /** A connection lost while every token is held or given back, or waits for a detach without an answer, does no harm. */
  lemma DropBeforeAnswer(l: Ledger)
    requires forall t | 0 <= t < |l.leases| ::
               !BeingAcquired(l.leases[t].phase)
               && (l.leases[t].phase.Releasing? ==> InFlight(l, l.leases[t].phase.detachment, LeaseDetach))
    ensures Admissible(l, Dropped)
  {}

  predicate InFlight(l: Ledger, p: PromiseId, kind: Kind) {
    p < |l.promises| && l.promises[p] == Promise(kind, Pending)
  }

  /** A handle that still works. */
  predicate ActiveHandle(l: Ledger, t: Token) {
    t < |l.leases| && l.leases[t].phase == Active(l.generation)
  }

  /** What holds after every admissible run. */
  lemma LeasesAreCounted(events: seq<(Event, bool)>)
    requires AdmissibleRun(EMPTY, events)
    ensures var l := Run(EMPTY, events);
            && l.count == |ReservedTokens(l.leases, l.generation)|
            && (forall t, u | 0 <= t < |l.leases| && 0 <= u < |l.leases| && t != u
                              && l.leases[t].mode == Exclusive && Reserved(l.leases[t], l.generation) ::
                  l.count == 1 && !ActiveHandle(l, u))
            && (forall p, q | InFlight(l, p, AttachRequest) && InFlight(l, q, AttachRequest) :: p == q)
            && (forall p, q | InFlight(l, p, AttachRequest) :: !InFlight(l, q, LeaseDetach))
  {
    EmptyInv();
    RunInv(EMPTY, events);
    var l := Run(EMPTY, events);
    ExclusiveIsAlone(l);
    OneAttach(l);
    forall p, q | InFlight(l, p, AttachRequest)
      ensures !InFlight(l, q, LeaseDetach)
    {
      AttachExcludesDetach(l, p, q);
    }
  }

  lemma ExclusiveIsAlone(l: Ledger)
    requires Inv(l)
    ensures forall t, u | 0 <= t < |l.leases| && 0 <= u < |l.leases| && t != u
                          && l.leases[t].mode == Exclusive && Reserved(l.leases[t], l.generation) ::
              l.count == 1 && !ActiveHandle(l, u)
  {
    hide PhasesOk, EntriesOk, Wanted, DetachFirst;
    forall t, u | 0 <= t < |l.leases| && 0 <= u < |l.leases| && t != u
                  && l.leases[t].mode == Exclusive && Reserved(l.leases[t], l.generation)
      ensures l.count == 1 && !ActiveHandle(l, u)
    {
      assert ReservedTokens(l.leases, l.generation) == {t};
      assert u !in ReservedTokens(l.leases, l.generation);
    }
  }

  lemma OneAttach(l: Ledger)
    requires Inv(l)
    ensures forall p, q | InFlight(l, p, AttachRequest) && InFlight(l, q, AttachRequest) :: p == q
  {
    hide ReservedTokens, ExclusiveOk, PhasesOk, Wanted, DetachFirst;
  }

  lemma AttachExcludesDetach(l: Ledger, p: PromiseId, q: PromiseId)
    requires Inv(l) && InFlight(l, p, AttachRequest)
    ensures !InFlight(l, q, LeaseDetach)
  {
    hide ExclusiveOk, EntryOk, Wanted, DetachFirst, PhasesOk;
    OpenHasWaiter(l, p);
    var u :| u in ReservedTokens(l.leases, l.generation) && WaitsFor(l.leases[u].phase, AttachRequest, p);
    NoOtherDetach(l, u);
    hide Inv;
    if q < |l.promises| {
      OpenHasWaiter(l, q);
    }
  }

  // ----- what a lease leaves behind -----

  /**
   The last lease of a session goes only after the server has detached it, or leaves a note that it must be detached,
   or was never attached because its own acquisition failed.
   */
  lemma LastLeaseDetaches(l: Ledger, e: Event, connected: bool)
    requires l.count > 0 && Step(l, e, connected).count == 0 && !e.Removed? && !e.Dropped?
    ensures e.Resume? && e.token < |l.leases|
            && match l.leases[e.token].phase
               case Releasing(_, d, _) => IsSettled(l, d) && l.promises[d].outcome.ok
               case ReleaseFailed(_, relinquish) => relinquish && Step(l, e, connected).cleanup
               case AwaitReconcile(r) => IsSettled(l, r) && !l.promises[r].outcome.ok
               case AwaitAttach(a) => IsSettled(l, a) && !l.promises[a].outcome.ok
               case _ => false
  {
    hide AfterDetach, AfterCleanup, Rejected;
    AfterDetachCounts(l, e, connected);
  }

  /** Going on with an acquisition gives nothing back. */
  lemma AfterDetachCounts(l: Ledger, e: Event, connected: bool)
    ensures forall t: nat | t < |l.leases| :: AfterDetach(l, t, connected).count == l.count
    ensures forall t: nat, reconciled | t < |l.leases| :: AfterCleanup(l, t, reconciled, connected).count == l.count
    ensures e.Acquire? && !Refused(l, e.mode) ==> DoAcquire(l, e.mode, connected).count == l.count + 1
  {}

  /** The request that a step sends, if any. */
  predicate Sends(l: Ledger, e: Event, connected: bool, kind: Kind) {
    var after := Step(l, e, connected).promises;
    |after| == |l.promises| + 1 && after[|l.promises|].kind == kind
  }

  /** What going on with an acquisition sends, if anything. */
  lemma AcquisitionSends(l: Ledger, t: Token, connected: bool)
    requires t < |l.leases|
    ensures |AfterDetach(l, t, connected).promises| == |l.promises| + 1 ==>
              AfterDetach(l, t, connected).promises[|l.promises|].kind == if l.cleanup then CleanupDetach else AttachRequest
    ensures forall reconciled | |AfterCleanup(l, t, reconciled, connected).promises| == |l.promises| + 1 ::
              AfterCleanup(l, t, reconciled, connected).promises[|l.promises|].kind == AttachRequest
  {}

  lemma ResumeSends(l: Ledger, t: Token, connected: bool)
    ensures |DoResume(l, t, connected).promises| == |l.promises| + 1 ==>
              var kind := DoResume(l, t, connected).promises[|l.promises|].kind;
              t < |l.leases| && kind != LeaseDetach
              && (kind == AttachRequest && l.cleanup ==>
                    l.leases[t].phase.AwaitReconcile? && IsSettled(l, l.leases[t].phase.reconciliation)
                    && l.promises[l.leases[t].phase.reconciliation].outcome.ok)
  {
    hide AfterDetach, AfterCleanup;
    if t < |l.leases| {
      AcquisitionSends(l, t, connected);
    }
  }

  lemma AcquireSends(l: Ledger, mode: Mode, connected: bool)
    ensures |DoAcquire(l, mode, connected).promises| == |l.promises| + 1 ==>
              DoAcquire(l, mode, connected).promises[|l.promises|].kind == if l.cleanup then CleanupDetach else AttachRequest
  {
    hide AfterDetach;
    AcquisitionSends(Reserve(l, mode, Acquiring), |l.leases|, connected);
  }

  lemma DetachIsSent(l: Ledger, e: Event, connected: bool)
    ensures Sends(l, e, connected, LeaseDetach) <==> e.Release? && CanRelease(l, e.token, connected) && l.count <= 1
  {
    hide Rejected, DoAcquire, DoResume;
    if e.Acquire? { AcquireSends(l, e.mode, connected); }
    if e.Resume? { ResumeSends(l, e.token, connected); }
  }

  /** A session is detached by the release of the only reserved token and by no other step. */
  lemma OnlyTheLastDetaches(l: Ledger, e: Event, connected: bool)
    requires Inv(l)
    ensures Sends(l, e, connected, LeaseDetach)
            <==> e.Release? && CanRelease(l, e.token, connected)
                 && ReservedTokens(l.leases, l.generation) == {e.token}
  {
    hide Sends, Step, ExclusiveOk, PhasesOk, EntriesOk, Wanted, DetachFirst;
    DetachIsSent(l, e, connected);
    if e.Release? && CanRelease(l, e.token, connected) {
      var reserved := ReservedTokens(l.leases, l.generation);
      assert e.token in reserved;
      if l.count <= 1 {
        Alone(reserved, e.token);
      } else {
        assert |{e.token}| == 1;
      }
    }
  }

  /** A session that requires cleanup is attached again only by a lease that has seen its cleanup succeed. */
  lemma CleanupBeforeAttach(l: Ledger, e: Event, connected: bool)
    requires l.cleanup && Sends(l, e, connected, AttachRequest)
    ensures e.Resume? && e.token < |l.leases| && l.leases[e.token].phase.AwaitReconcile?
            && IsSettled(l, l.leases[e.token].phase.reconciliation)
            && l.promises[l.leases[e.token].phase.reconciliation].outcome.ok
  {
    hide Rejected, DoAcquire, DoResume;
    if e.Acquire? { AcquireSends(l, e.mode, connected); }
    if e.Resume? { ResumeSends(l, e.token, connected); }
  }

  // ----- where it fails -----

  /** A session is removed while its only lease waits for its detach, and acquired again. */
  const STALE_RELEASE: seq<(Event, bool)> := [
    (Acquire(Shared), true), (Respond(0, true, true), true), (Continue(0), true), (Resume(0), true),
    (Release(0, false), true), (Removed, true), (Acquire(Shared), true), (Respond(1, true, false), true)]

  /** The old release goes on, and someone else acquires the session for itself. */
  const INTRUSION: seq<(Event, bool)> := [
    (Continue(1), true), (Resume(0), true), (Acquire(Exclusive), true), (Resume(1), true)]

  const BOTH_ATTACH: seq<(Event, bool)> := [
    (Respond(2, true, true), true), (Continue(2), true), (Resume(1), true), (Resume(2), true)]

  const ACQUIRED_AGAIN := Ledger(1, None, 1, None, Some(1), None, false, false,
    [Lease(Shared, Releasing(0, 1, false)), Lease(Shared, AwaitDetach(1))],
    [Promise(AttachRequest, Settled(true)), Promise(LeaseDetach, Answered(true))])

  lemma StaleReleaseRuns()
    ensures Run(EMPTY, STALE_RELEASE) == ACQUIRED_AGAIN
  {
    var a := Promise(AttachRequest, Settled(true));
    var l1 := Ledger(1, None, 0, Some(0), None, None, false, false, [Lease(Shared, AwaitAttach(0))], [Promise(AttachRequest, Pending)]);
    var l2 := l1.(attached := true, promises := [Promise(AttachRequest, Answered(true))]);
    var l3 := l2.(promises := [a]);
    var l4 := l3.(attachment := None, leases := [Lease(Shared, Active(0))]);
    var l5 := l4.(detachment := Some(1), leases := [Lease(Shared, Releasing(0, 1, false))],
                  promises := [a, Promise(LeaseDetach, Pending)]);
    var l6 := l5.(count := 0, generation := 1, attached := false);
    var l7 := l6.(count := 1, leases := [Lease(Shared, Releasing(0, 1, false)), Lease(Shared, AwaitDetach(1))]);
    hide Run;
    assert Step(EMPTY, Acquire(Shared), true) == l1;
    assert Step(l1, Respond(0, true, true), true) == l2;
    assert Step(l2, Continue(0), true) == l3;
    assert Step(l3, Resume(0), true) == l4;
    assert Step(l4, Release(0, false), true) == l5;
    assert Step(l5, Removed, true) == l6;
    assert Step(l6, Acquire(Shared), true) == l7;
    assert Step(l7, Respond(1, true, false), true) == ACQUIRED_AGAIN;
    hide Step;
    FollowsSteps([EMPTY, l1, l2, l3, l4, l5, l6, l7, ACQUIRED_AGAIN], STALE_RELEASE, 0);
  }

  const BOTH_INSIDE := Ledger(1, Some(2), 1, Some(2), None, None, false, false,
    [Lease(Shared, Released), Lease(Shared, AwaitAttach(2)), Lease(Exclusive, AwaitAttach(2))],
    [Promise(AttachRequest, Settled(true)), Promise(LeaseDetach, Settled(true)), Promise(AttachRequest, Pending)])

  lemma IntrusionRuns()
    ensures Run(ACQUIRED_AGAIN, INTRUSION) == BOTH_INSIDE
  {
    var a, f := Promise(AttachRequest, Settled(true)), Promise(LeaseDetach, Settled(true));
    var gone, waiting := Lease(Shared, Released), Lease(Shared, AwaitDetach(1));
    var l1 := ACQUIRED_AGAIN.(promises := [a, f]);
    var l2 := l1.(count := 0, detachment := None, leases := [gone, waiting]);
    var l3 := l2.(count := 1, exclusive := Some(2), attachment := Some(2),
                  promises := [a, f, Promise(AttachRequest, Pending)],
                  leases := [gone, waiting, Lease(Exclusive, AwaitAttach(2))]);
    hide Run;
    assert Step(ACQUIRED_AGAIN, Continue(1), true) == l1;
    assert Step(l1, Resume(0), true) == l2;
    assert Step(l2, Acquire(Exclusive), true) == l3;
    assert Step(l3, Resume(1), true) == BOTH_INSIDE;
    hide Step;
    FollowsSteps([ACQUIRED_AGAIN, l1, l2, l3, BOTH_INSIDE], INTRUSION, 0);
  }

  const BOTH_ACTIVE := BOTH_INSIDE.(
    attached := true, attachment := None,
    leases := [Lease(Shared, Released), Lease(Shared, Active(1)), Lease(Exclusive, Active(1))],
    promises := [Promise(AttachRequest, Settled(true)), Promise(LeaseDetach, Settled(true)), Promise(AttachRequest, Settled(true))])

  lemma BothAttachRuns()
    ensures Run(BOTH_INSIDE, BOTH_ATTACH) == BOTH_ACTIVE
  {
    var a, f := Promise(AttachRequest, Settled(true)), Promise(LeaseDetach, Settled(true));
    var l1 := BOTH_INSIDE.(attached := true, promises := [a, f, Promise(AttachRequest, Answered(true))]);
    var l2 := l1.(promises := [a, f, a]);
    var l3 := l2.(attachment := None, leases := [Lease(Shared, Released), Lease(Shared, Active(1)), Lease(Exclusive, AwaitAttach(2))]);
    hide Run;
    assert Step(BOTH_INSIDE, Respond(2, true, true), true) == l1;
    assert Step(l1, Continue(2), true) == l2;
    assert Step(l2, Resume(1), true) == l3;
    assert Step(l3, Resume(2), true) == BOTH_ACTIVE;
    hide Step;
    FollowsSteps([BOTH_INSIDE, l1, l2, l3, BOTH_ACTIVE], BOTH_ATTACH, 0);
  }

  /**
   A removal that finds a release in transit lets that release give back a lease of the next generation: a shared and
   an exclusive handle end up active on the same session.
   */
  lemma StaleReleaseBreaksExclusion()
    ensures var l := Run(Run(Run(EMPTY, STALE_RELEASE), INTRUSION), BOTH_ATTACH);
            && ActiveHandle(l, 1) && ActiveHandle(l, 2) && l.leases[2].mode == Exclusive && l.attached
            && l.count == 1 && ReservedTokens(l.leases, l.generation) == {1, 2}
  {
    hide Run;
    StaleReleaseRuns();
    IntrusionRuns();
    BothAttachRuns();
  }

  lemma {:induction false} FollowsSteps(states: seq<Ledger>, events: seq<(Event, bool)>, i: nat)
    requires |states| == |events| + 1 && i <= |events|
    requires forall k | 0 <= k < |events| :: Step(states[k], events[k].0, events[k].1) == states[k + 1]
    ensures Run(states[i], events[i..]) == states[|events|]
    decreases |events| - i
  {
    hide Step;
    if i < |events| {
      FollowsSteps(states, events, i + 1);
      assert events[i..][1..] == events[i + 1..];
    }
  }
}
