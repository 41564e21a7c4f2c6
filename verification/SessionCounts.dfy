/**
  Every step keeps the counts: service usage, session usage and service_ref.
 */
module SessionCounts {
  import opened Counting
  import opened Sessions
  import opened SessionInvariants

  // ----- service usage

  function ServiceDelta(op: ServiceOp, v: nat): int {
    match op
    case KeepService => 0
    case GetService(w) => if w == v then 1 else 0
    case PutService(w) => if w == v then -1 else 0
    case NewService(w, _) => if w == v then 1 else 0
  }

  function SlotDelta(m: map<(nat, nat), Slot>, op: SlotOp, v: nat): int {
    match op
    case KeepSlot => 0
    case SetSlot(k, slot) => (if slot.svc == v then 1 else 0) - (if k in m && m[k].svc == v then 1 else 0)
    case ClearSlot(k) => -(if k in m && m[k].svc == v then 1 else 0)
  }

  lemma SlotCountMoves(m: map<(nat, nat), Slot>, op: SlotOp, v: nat)
    requires op.ClearSlot? ==> op.k in m
    ensures Count(DoSlot(m, op), SlotOf(v)) == Count(m, SlotOf(v)) + SlotDelta(m, op, v)
  {
    match op {
      case KeepSlot =>
      case SetSlot(k, slot) =>
        if k in m { CountReplace(m, k, slot, SlotOf(v)); } else { CountAdd(m, k, slot, SlotOf(v)); }
      case ClearSlot(k) => CountRemove(m, k, SlotOf(v));
    }
  }

  /** The references a step takes or drops are exactly those it adds to or takes from slots and holdings. */
  predicate UsageBalanced(s: State, p: Plan, th: Thread, v: nat) {
    ServiceDelta(p.service, v) + (if HoldsService(th, v) then 1 else 0) ==
    SlotDelta(s.slots, p.slot, v) + (if HoldsService(p.next, v) then 1 else 0)
  }

  /** The slot a close thread lets go of is the one it swept. */
  predicate SweptSlot(s: State, a: Action, th: Thread) {
    a.SweepService? ==> (th.d, th.i) in s.slots && s.slots[(th.d, th.i)].svc == th.v
  }

  /** The steps of an open up to the time it has its service. */
  predicate SeeksService(a: Action) {
    a.OpenRef? || a.OpenRefFull? || a.OpenMiss? || a.OpenTake? || a.OpenCreate? || a.OpenNoMem?
  }

  lemma OpenBalancesUsage(s: State, a: Action, th: Thread, v: nat)
    requires OpenEnabled(s, a, th)
    requires SweptSlot(s, a, th)
    ensures UsageBalanced(s, OpenPlan(s, a, th), th, v)
  {
    if SeeksService(a) { LookupBalancesUsage(s, a, th, v); } else { LateOpenBalancesUsage(s, a, th, v); }
  }

  lemma LookupBalancesUsage(s: State, a: Action, th: Thread, v: nat)
    requires OpenEnabled(s, a, th) && SeeksService(a)
    requires SweptSlot(s, a, th)
    ensures UsageBalanced(s, OpenPlan(s, a, th), th, v)
  {
    match a
    case OpenRef(_, _) | OpenRefFull(_, _) | OpenMiss(_) | OpenTake(_, _) | OpenCreate(_, _) | OpenNoMem(_) =>
  }

  lemma LateOpenBalancesUsage(s: State, a: Action, th: Thread, v: nat)
    requires OpenEnabled(s, a, th) && !SeeksService(a)
    requires SweptSlot(s, a, th)
    ensures UsageBalanced(s, OpenPlan(s, a, th), th, v)
  {
    match a
    case OpenInsert(_, _) | OpenFull(_) | OpenAlloc(_) | OpenNoSession(_) | OpenList(_, _) | OpenFail(_) =>
  }

  lemma FindBalancesUsage(s: State, a: Action, th: Thread, v: nat)
    requires FindEnabled(s, a, th)
    requires SweptSlot(s, a, th)
    ensures UsageBalanced(s, FindPlan(s, a, th), th, v)
  {
    match a
    case GetByUuid(_, _) | NoService(_) | FindSession(_, _) | NoSession(_) | TakeOffList(_) =>
  }

  lemma LockBalancesUsage(s: State, a: Action, th: Thread, v: nat)
    requires LockEnabled(s, a, th)
    requires SweptSlot(s, a, th)
    ensures UsageBalanced(s, LockPlan(s, a, th), th, v)
  {
    match a
    case OpenLock(_) | CloseLock(_) | LockSession(_) | UnlockSession(_) | Unlock(_) =>
  }

  lemma DropBalancesUsage(s: State, a: Action, th: Thread, v: nat)
    requires DropEnabled(s, a, th)
    requires SweptSlot(s, a, th)
    ensures UsageBalanced(s, DropPlan(s, a, th), th, v)
  {
    if a.DropRef? { DropRefBalancesUsage(s, a, th, v); } else { OtherDropBalancesUsage(s, a, th, v); }
  }

  lemma DropRefBalancesUsage(s: State, a: Action, th: Thread, v: nat)
    requires a.DropRef? && DropEnabled(s, a, th)
    ensures UsageBalanced(s, DropPlan(s, a, th), th, v)
  {
  }

  lemma OtherDropBalancesUsage(s: State, a: Action, th: Thread, v: nat)
    requires !a.DropRef? && DropEnabled(s, a, th)
    ensures UsageBalanced(s, DropPlan(s, a, th), th, v)
  {
    match a
    case DropNothing(_) | DropService(_) | DropSession(_) =>
  }

  lemma SweepBalancesUsage(s: State, a: Action, th: Thread, v: nat)
    requires SweepEnabled(s, a, th)
    requires SweptSlot(s, a, th)
    ensures UsageBalanced(s, SweepPlan(s, a, th), th, v)
  {
    match a
    case SweepSkip(_) | SweepLock(_) | SweepTake(_, _) | SweepNone(_) | SweepService(_) | SweepEnd(_) =>
  }

  lemma PlanBalancesUsage(s: State, a: Action, th: Thread, v: nat)
    requires EnabledAt(s, a, th)
    requires SweptSlot(s, a, th)
    ensures UsageBalanced(s, PlanOf(s, a, th), th, v)
  {
    if OpenEnabled(s, a, th) { OpenBalancesUsage(s, a, th, v); }
    else if FindEnabled(s, a, th) { FindBalancesUsage(s, a, th, v); }
    else if LockEnabled(s, a, th) { LockBalancesUsage(s, a, th, v); }
    else if DropEnabled(s, a, th) { DropBalancesUsage(s, a, th, v); }
    else { SweepBalancesUsage(s, a, th, v); }
  }

  predicate Defined(s: State, p: Plan) {
    ServiceKnown(s, p.service) &&
    (p.service.NewService? ==> p.service.v !in s.services) &&
    (p.slot.ClearSlot? ==> p.slot.k in s.slots)
  }

  lemma OpenIsDefined(s: State, a: Action, th: Thread)
    requires OpenEnabled(s, a, th)
    requires SweptSlot(s, a, th)
    ensures Defined(s, OpenPlan(s, a, th))
  {
    match a
    case OpenRef(_, _) | OpenRefFull(_, _) | OpenMiss(_) | OpenTake(_, _) | OpenCreate(_, _) | OpenNoMem(_) =>
    case OpenInsert(_, _) | OpenFull(_) | OpenAlloc(_) | OpenNoSession(_) | OpenList(_, _) | OpenFail(_) =>
  }

  lemma FindIsDefined(s: State, a: Action, th: Thread)
    requires FindEnabled(s, a, th)
    requires SweptSlot(s, a, th)
    ensures Defined(s, FindPlan(s, a, th))
  {
    match a
    case GetByUuid(_, _) | NoService(_) | FindSession(_, _) | NoSession(_) | TakeOffList(_) =>
  }

  lemma LockIsDefined(s: State, a: Action, th: Thread)
    requires LockEnabled(s, a, th)
    requires SweptSlot(s, a, th)
    ensures Defined(s, LockPlan(s, a, th))
  {
    match a
    case OpenLock(_) | CloseLock(_) | LockSession(_) | UnlockSession(_) | Unlock(_) =>
  }

  lemma DropIsDefined(s: State, a: Action, th: Thread)
    requires DropEnabled(s, a, th)
    requires SweptSlot(s, a, th)
    ensures Defined(s, DropPlan(s, a, th))
  {
    match a
    case DropRef(_, _) | DropNothing(_) | DropService(_) | DropSession(_) =>
  }

  lemma SweepIsDefined(s: State, a: Action, th: Thread)
    requires SweepEnabled(s, a, th)
    requires SweptSlot(s, a, th)
    ensures Defined(s, SweepPlan(s, a, th))
  {
    match a
    case SweepSkip(_) | SweepLock(_) | SweepTake(_, _) | SweepNone(_) | SweepService(_) | SweepEnd(_) =>
  }

  lemma PlanIsDefined(s: State, a: Action, th: Thread)
    requires EnabledAt(s, a, th)
    requires SweptSlot(s, a, th)
    ensures Defined(s, PlanOf(s, a, th))
  {
    if OpenEnabled(s, a, th) { OpenIsDefined(s, a, th); }
    else if FindEnabled(s, a, th) { FindIsDefined(s, a, th); }
    else if LockEnabled(s, a, th) { LockIsDefined(s, a, th); }
    else if DropEnabled(s, a, th) { DropIsDefined(s, a, th); }
    else { SweepIsDefined(s, a, th); }
  }

  lemma PerformKeepsUsage(s: State, t: nat, p: Plan)
    requires UsageOk(s) && t in s.threads
    requires Defined(s, p)
    requires forall v: nat :: UsageBalanced(s, p, s.threads[t], v)
    ensures UsageOk(Perform(s, t, p))
  {
    var r := Perform(s, t, p);
    forall v: nat
      ensures Usage(r, v) == Count(r.slots, SlotOf(v)) + Count(r.threads, ServiceHolder(v))
    {
      assert Usage(s, v) == Count(s.slots, SlotOf(v)) + Count(s.threads, ServiceHolder(v));
      assert UsageBalanced(s, p, s.threads[t], v);
      PerformMovesUsage(s, t, p, v);
    }
  }

  lemma PerformMovesUsage(s: State, t: nat, p: Plan, v: nat)
    requires t in s.threads && Defined(s, p) && UsageBalanced(s, p, s.threads[t], v)
    requires Usage(s, v) == Count(s.slots, SlotOf(v)) + Count(s.threads, ServiceHolder(v))
    ensures var r := Perform(s, t, p); Usage(r, v) == Count(r.slots, SlotOf(v)) + Count(r.threads, ServiceHolder(v))
  {
    ThreadMoves(s.threads, t, p.next, ServiceHolder(v));
    SlotCountMoves(s.slots, p.slot, v);
    assert Usage(Perform(s, t, p), v) == Usage(s, v) + ServiceDelta(p.service, v);
  }

  lemma UsageKept(s: State, a: Action)
    requires UsageOk(s) && PlacesOk(s) && Enabled(s, a)
    ensures UsageOk(Apply(s, a))
  {
    hide EnabledAt;
    hide PlanOf;
    hide Perform;
    if a.Begin? || a.SweepStart? {
      var r := Apply(s, a);
      forall v: nat
        ensures Usage(r, v) == Count(r.slots, SlotOf(v)) + Count(r.threads, ServiceHolder(v))
      {
        assert Usage(s, v) == Count(s.slots, SlotOf(v)) + Count(s.threads, ServiceHolder(v));
        ThreadMoves(s.threads, a.t, r.threads[a.t], ServiceHolder(v));
      }
    } else {
      var th := s.threads[a.t];
      assert PlaceOk(s, th);
      SweepHasSlot(s, a, th);
      PlanIsDefined(s, a, th);
      forall v: nat
        ensures UsageBalanced(s, PlanOf(s, a, th), th, v)
      {
        PlanBalancesUsage(s, a, th, v);
      }
      PerformKeepsUsage(s, a.t, PlanOf(s, a, th));
    }
  }

  lemma SweepHasSlot(s: State, a: Action, th: Thread)
    requires EnabledAt(s, a, th) && PlaceOk(s, th)
    ensures SweptSlot(s, a, th)
  {
    if a.SweepService? {
      assert SweepEnabled(s, a, th);
    }
  }

  // ----- session usage

  function UsageIn(m: map<nat, Session>, x: nat): int {
    if x in m then m[x].usage else 0
  }

  function ListedIn(m: map<nat, Session>, x: nat): int {
    if x in m && m[x].listed then 1 else 0
  }

  function Bit(b: bool): int {
    if b then 1 else 0
  }

  predicate SessionBalanced(s: State, p: Plan, th: Thread, x: nat) {
    var m := DoSession(s.sessions, p.session);
    UsageIn(m, x) - UsageIn(s.sessions, x) ==
    ListedIn(m, x) - ListedIn(s.sessions, x) + Bit(HoldsSession(p.next, x)) - Bit(HoldsSession(th, x)) +
    Bit(HoldsOpenUsage(p.next, x)) - Bit(HoldsOpenUsage(th, x))
  }

  /** A session on its way off the list is on it; one being put has a usage beyond its place on the list. */
  predicate SessionReady(s: State, a: Action, th: Thread) {
    (a.TakeOffList? ==> th.x in s.sessions && s.sessions[th.x].listed) &&
    (a.DropSession? ==> th.x in s.sessions && s.sessions[th.x].usage >= ListedIn(s.sessions, th.x) + 1) &&
    s.nextSession !in s.sessions
  }

  lemma OpenBalancesSession(s: State, a: Action, th: Thread, x: nat)
    requires OpenEnabled(s, a, th)
    requires SessionReady(s, a, th)
    ensures SessionBalanced(s, OpenPlan(s, a, th), th, x)
  {
    if SeeksService(a) { LookupBalancesSession(s, a, th, x); } else { LateOpenBalancesSession(s, a, th, x); }
  }

  lemma LookupBalancesSession(s: State, a: Action, th: Thread, x: nat)
    requires OpenEnabled(s, a, th) && SeeksService(a)
    requires SessionReady(s, a, th)
    ensures SessionBalanced(s, OpenPlan(s, a, th), th, x)
  {
    match a
    case OpenRef(_, _) | OpenRefFull(_, _) | OpenMiss(_) | OpenTake(_, _) | OpenCreate(_, _) | OpenNoMem(_) =>
  }

  lemma LateOpenBalancesSession(s: State, a: Action, th: Thread, x: nat)
    requires OpenEnabled(s, a, th) && !SeeksService(a)
    requires SessionReady(s, a, th)
    ensures SessionBalanced(s, OpenPlan(s, a, th), th, x)
  {
    match a
    case OpenInsert(_, _) | OpenFull(_) | OpenAlloc(_) | OpenNoSession(_) | OpenList(_, _) | OpenFail(_) =>
  }

  lemma FindBalancesSession(s: State, a: Action, th: Thread, x: nat)
    requires FindEnabled(s, a, th)
    requires SessionReady(s, a, th)
    ensures SessionBalanced(s, FindPlan(s, a, th), th, x)
  {
    match a
    case GetByUuid(_, _) | NoService(_) | FindSession(_, _) | NoSession(_) | TakeOffList(_) =>
  }

  lemma LockBalancesSession(s: State, a: Action, th: Thread, x: nat)
    requires LockEnabled(s, a, th)
    requires SessionReady(s, a, th)
    ensures SessionBalanced(s, LockPlan(s, a, th), th, x)
  {
    match a
    case OpenLock(_) | CloseLock(_) | LockSession(_) | UnlockSession(_) | Unlock(_) =>
  }

  lemma DropBalancesSession(s: State, a: Action, th: Thread, x: nat)
    requires DropEnabled(s, a, th)
    requires SessionReady(s, a, th)
    ensures SessionBalanced(s, DropPlan(s, a, th), th, x)
  {
    match a
    case DropRef(_, _) | DropNothing(_) | DropService(_) =>
    case DropSession(_) => PutBalancesSession(s, th, DropPlan(s, a, th), x);
  }

  /** Putting one usage of the session a thread holds. */
  lemma PutBalancesSession(s: State, th: Thread, p: Plan, x: nat)
    requires th.x in s.sessions && s.sessions[th.x].usage >= ListedIn(s.sessions, th.x) + 1
    requires p.session == PutSession(s, th.x) && p.next.x == th.x
    requires (p.next.pc, th.pc) in {(ClosePut2, ClosePut1), (CloseDrop, ClosePut2), (SweepPut2, SweepPut1),
                                    (SweepList, SweepPut2), (Finished, SendEnd)}
    ensures SessionBalanced(s, p, th, x)
  {
  }

  lemma SweepBalancesSession(s: State, a: Action, th: Thread, x: nat)
    requires SweepEnabled(s, a, th)
    requires SessionReady(s, a, th)
    ensures SessionBalanced(s, SweepPlan(s, a, th), th, x)
  {
    match a
    case SweepSkip(_) | SweepLock(_) | SweepTake(_, _) | SweepNone(_) | SweepService(_) | SweepEnd(_) =>
  }

  lemma PlanBalancesSession(s: State, a: Action, th: Thread, x: nat)
    requires EnabledAt(s, a, th)
    requires SessionReady(s, a, th)
    ensures SessionBalanced(s, PlanOf(s, a, th), th, x)
  {
    if OpenEnabled(s, a, th) { OpenBalancesSession(s, a, th, x); }
    else if FindEnabled(s, a, th) { FindBalancesSession(s, a, th, x); }
    else if LockEnabled(s, a, th) { LockBalancesSession(s, a, th, x); }
    else if DropEnabled(s, a, th) { DropBalancesSession(s, a, th, x); }
    else { SweepBalancesSession(s, a, th, x); }
  }

  predicate SessionPlanOk(s: State, op: SessionOp) {
    match op
    case KeepSession => true
    case SetSession(x, e) => x in s.sessions && e.usage >= 1
    case NewSession(x, e) => x == s.nextSession && e.usage >= 1
    case FreeSession(x) => x in s.sessions
  }

  lemma OpenSessionOk(s: State, a: Action, th: Thread)
    requires OpenEnabled(s, a, th)
    requires SessionReady(s, a, th) && (forall x: nat :: x in s.sessions ==> s.sessions[x].usage >= 1)
    ensures SessionPlanOk(s, OpenPlan(s, a, th).session)
  {
    match a
    case OpenRef(_, _) | OpenRefFull(_, _) | OpenMiss(_) | OpenTake(_, _) | OpenCreate(_, _) | OpenNoMem(_) =>
    case OpenInsert(_, _) | OpenFull(_) | OpenAlloc(_) | OpenNoSession(_) | OpenList(_, _) | OpenFail(_) =>
  }

  lemma FindSessionOk(s: State, a: Action, th: Thread)
    requires FindEnabled(s, a, th)
    requires SessionReady(s, a, th) && (forall x: nat :: x in s.sessions ==> s.sessions[x].usage >= 1)
    ensures SessionPlanOk(s, FindPlan(s, a, th).session)
  {
    match a
    case GetByUuid(_, _) | NoService(_) | FindSession(_, _) | NoSession(_) | TakeOffList(_) =>
  }

  lemma LockSessionOk(s: State, a: Action, th: Thread)
    requires LockEnabled(s, a, th)
    requires SessionReady(s, a, th) && (forall x: nat :: x in s.sessions ==> s.sessions[x].usage >= 1)
    ensures SessionPlanOk(s, LockPlan(s, a, th).session)
  {
    match a
    case OpenLock(_) | CloseLock(_) | LockSession(_) | UnlockSession(_) | Unlock(_) =>
  }

  lemma DropSessionOk(s: State, a: Action, th: Thread)
    requires DropEnabled(s, a, th)
    requires SessionReady(s, a, th) && (forall x: nat :: x in s.sessions ==> s.sessions[x].usage >= 1)
    ensures SessionPlanOk(s, DropPlan(s, a, th).session)
  {
    match a
    case DropRef(_, _) | DropNothing(_) | DropService(_) | DropSession(_) =>
  }

  lemma SweepSessionOk(s: State, a: Action, th: Thread)
    requires SweepEnabled(s, a, th)
    requires SessionReady(s, a, th) && (forall x: nat :: x in s.sessions ==> s.sessions[x].usage >= 1)
    ensures SessionPlanOk(s, SweepPlan(s, a, th).session)
  {
    match a
    case SweepSkip(_) | SweepLock(_) | SweepTake(_, _) | SweepNone(_) | SweepService(_) | SweepEnd(_) =>
  }

  lemma PlanSessionOk(s: State, a: Action, th: Thread)
    requires EnabledAt(s, a, th)
    requires SessionReady(s, a, th) && (forall x: nat :: x in s.sessions ==> s.sessions[x].usage >= 1)
    ensures SessionPlanOk(s, PlanOf(s, a, th).session)
  {
    if OpenEnabled(s, a, th) { OpenSessionOk(s, a, th); }
    else if FindEnabled(s, a, th) { FindSessionOk(s, a, th); }
    else if LockEnabled(s, a, th) { LockSessionOk(s, a, th); }
    else if DropEnabled(s, a, th) { DropSessionOk(s, a, th); }
    else { SweepSessionOk(s, a, th); }
  }

  lemma PerformKeepsSessions(s: State, t: nat, p: Plan)
    requires SessionsOk(s) && NumbersOk(s) && t in s.threads && SessionPlanOk(s, p.session)
    requires Defined(s, p)
    requires forall x: nat :: SessionBalanced(s, p, s.threads[t], x)
    ensures SessionsOk(Perform(s, t, p)) && NumbersOk(Perform(s, t, p))
  {
    var r := Perform(s, t, p);
    forall x: nat
      ensures SessionUsage(r, x) == HeldUsage(r, x)
    {
      assert SessionUsage(s, x) == HeldUsage(s, x);
      assert SessionBalanced(s, p, s.threads[t], x);
      PerformMovesSession(s, t, p, x);
    }
  }

  lemma PerformMovesSession(s: State, t: nat, p: Plan, x: nat)
    requires t in s.threads && Defined(s, p) && SessionPlanOk(s, p.session) && SessionBalanced(s, p, s.threads[t], x)
    requires SessionUsage(s, x) == HeldUsage(s, x)
    ensures var r := Perform(s, t, p);
      SessionUsage(r, x) == HeldUsage(r, x)
  {
    ThreadMoves(s.threads, t, p.next, SessionHolder(x));
    ThreadMoves(s.threads, t, p.next, OpenHolder(x));
  }

  lemma SessionIsReady(s: State, a: Action)
    requires SessionsOk(s) && NumbersOk(s) && PlacesOk(s) && a.t in s.threads && EnabledAt(s, a, s.threads[a.t])
    ensures SessionReady(s, a, s.threads[a.t])
  {
    if a.TakeOffList? { UnlistIsReady(s, a); }
    if a.DropSession? { DropSessionIsReady(s, a); }
  }

  lemma UnlistIsReady(s: State, a: Action)
    requires PlacesOk(s) && a.TakeOffList? && a.t in s.threads && FindEnabled(s, a, s.threads[a.t])
    ensures var x := s.threads[a.t].x; x in s.sessions && s.sessions[x].listed
  {
    hide SweptBelow;
    hide ListedFrom;
    hide InSweep;
    hide DeviceKnows;
    assert PlaceOk(s, s.threads[a.t]);
  }

  lemma DropSessionIsReady(s: State, a: Action)
    requires SessionsOk(s) && a.DropSession? && a.t in s.threads && DropEnabled(s, a, s.threads[a.t])
    ensures var x := s.threads[a.t].x; x in s.sessions && s.sessions[x].usage >= ListedIn(s.sessions, x) + 1
  {
    var x := s.threads[a.t].x;
    CountPositive(s.threads, a.t, SessionHolder(x));
    assert SessionUsage(s, x) == HeldUsage(s, x);
  }

  lemma SessionsKept(s: State, a: Action)
    requires SessionsOk(s) && NumbersOk(s) && PlacesOk(s) && Enabled(s, a)
    ensures SessionsOk(Apply(s, a)) && NumbersOk(Apply(s, a))
  {
    hide EnabledAt;
    hide PlanOf;
    hide Perform;
    if a.Begin? || a.SweepStart? {
      var r := Apply(s, a);
      forall x: nat
        ensures SessionUsage(r, x) == HeldUsage(r, x)
      {
        assert SessionUsage(s, x) == HeldUsage(s, x);
        ThreadMoves(s.threads, a.t, r.threads[a.t], SessionHolder(x));
        ThreadMoves(s.threads, a.t, r.threads[a.t], OpenHolder(x));
      }
    } else {
      var th := s.threads[a.t];
      assert PlaceOk(s, th);
      SweepHasSlot(s, a, th);
      PlanIsDefined(s, a, th);
      SessionIsReady(s, a);
      PlanSessionOk(s, a, th);
      forall x: nat
        ensures SessionBalanced(s, PlanOf(s, a, th), th, x)
      {
        PlanBalancesSession(s, a, th, x);
      }
      PerformKeepsSessions(s, a.t, PlanOf(s, a, th));
    }
  }
}
