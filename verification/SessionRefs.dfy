/**
  Every step keeps service_ref: the count of a device's listed sessions of a service and of its
  opens and closes under way.
 */
module SessionRefs {
  import opened Counting
  import opened Sessions
  import opened SessionInvariants
  import opened SessionCounts

  function ListedDelta(m: map<nat, Session>, op: SessionOp, d: nat, v: nat): int {
    match op
    case KeepSession => 0
    case SetSession(x, e) =>
      Bit(e.listed && e.owner == d && e.svc == v) - Bit(x in m && m[x].listed && m[x].owner == d && m[x].svc == v)
    case NewSession(x, e) =>
      Bit(e.listed && e.owner == d && e.svc == v) - Bit(x in m && m[x].listed && m[x].owner == d && m[x].svc == v)
    case FreeSession(x) => -Bit(x in m && m[x].listed && m[x].owner == d && m[x].svc == v)
  }

  lemma ListedCountMoves(m: map<nat, Session>, op: SessionOp, d: nat, v: nat)
    requires op.FreeSession? ==> op.x in m
    ensures Count(DoSession(m, op), ListedFor(d, v)) == Count(m, ListedFor(d, v)) + ListedDelta(m, op, d, v)
  {
    match op {
      case KeepSession =>
      case SetSession(x, e) =>
        if x in m { CountReplace(m, x, e, ListedFor(d, v)); } else { CountAdd(m, x, e, ListedFor(d, v)); }
      case NewSession(x, e) =>
        if x in m { CountReplace(m, x, e, ListedFor(d, v)); } else { CountAdd(m, x, e, ListedFor(d, v)); }
      case FreeSession(x) => CountRemove(m, x, ListedFor(d, v));
    }
  }

  /** How the right-hand side of the service_ref equation moves. */
  function RefDelta(s: State, p: Plan, th: Thread, d: nat, v: nat): int {
    ListedDelta(s.sessions, p.session, d, v) + Bit(HoldsRef(p.next, d, v)) - Bit(HoldsRef(th, d, v))
  }

  function RefAt(m: map<(nat, nat), Slot>, k: (nat, nat)): int {
    if k in m then m[k].ref else 0
  }

  /** How the left-hand side moves. */
  function SlotRefDelta(m: map<(nat, nat), Slot>, op: SlotOp, d: nat, v: nat): int {
    match op
    case KeepSlot => 0
    case SetSlot(k, slot) => if k.0 == d && slot.svc == v then slot.ref - RefAt(m, k) else 0
    case ClearSlot(k) => if k.0 == d && k in m && m[k].svc == v then -RefAt(m, k) else 0
  }

  predicate RefBalanced(s: State, p: Plan, th: Thread, d: nat, v: nat) {
    RefDelta(s, p, th, d, v) == SlotRefDelta(s.slots, p.slot, d, v)
  }

  ghost predicate SlotPlanOk(s: State, op: SlotOp) {
    match op
    case KeepSlot => true
    case SetSlot(k, slot) =>
      1 <= slot.ref <= MAX_REF_COUNT && k.1 < SERVICES_MAX_COUNT && slot.svc in s.services &&
      (if k in s.slots then s.slots[k].svc == slot.svc else !HasSlot(s, k.0, slot.svc))
    case ClearSlot(k) => k in s.slots
  }

  lemma TotalMoves(s: State, t: nat, p: Plan, d: nat, v: nat)
    requires t in s.threads && Defined(s, p) && (p.session.FreeSession? ==> p.session.x in s.sessions)
    ensures RefTotal(Perform(s, t, p), d, v) == RefTotal(s, d, v) + RefDelta(s, p, s.threads[t], d, v)
  {
    ListedCountMoves(s.sessions, p.session, d, v);
    ThreadMoves(s.threads, t, p.next, RefHolder(d, v));
  }

  /** The device's table entries other than the one written are as before. */
  lemma SlotEquation(s: State, t: nat, p: Plan, d: nat, i: nat)
    requires RefsOk(s) && TablesOk(s) && t in s.threads && Defined(s, p) && SlotPlanOk(s, p.slot)
    requires p.session.FreeSession? ==> p.session.x in s.sessions
    requires d !in s.closing && (d, i) in Perform(s, t, p).slots
    requires RefBalanced(s, p, s.threads[t], d, Perform(s, t, p).slots[(d, i)].svc)
    ensures var r := Perform(s, t, p); var slot := r.slots[(d, i)];
      slot.ref == RefTotal(r, d, slot.svc) && 1 <= slot.ref <= MAX_REF_COUNT
  {
    var r := Perform(s, t, p);
    var v := r.slots[(d, i)].svc;
    TotalMoves(s, t, p, d, v);
    if (d, i) in s.slots {
      assert s.slots[(d, i)].svc == v;
      assert s.slots[(d, i)].ref == RefTotal(s, d, v);
    } else {
      assert !HasSlot(s, d, v);
    }
  }

  predicate SlotIs(m: map<(nat, nat), Slot>, k: (nat, nat), v: nat) {
    k in m && m[k].svc == v
  }

  lemma NoSlotEquation(s: State, t: nat, p: Plan, d: nat, v: nat)
    requires RefsOk(s) && TablesOk(s) && t in s.threads && Defined(s, p) && SlotPlanOk(s, p.slot)
    requires p.session.FreeSession? ==> p.session.x in s.sessions
    requires d !in s.closing && !HasSlot(Perform(s, t, p), d, v) && RefBalanced(s, p, s.threads[t], d, v)
    ensures RefTotal(Perform(s, t, p), d, v) == 0
  {
    var r := Perform(s, t, p);
    TotalMoves(s, t, p, d, v);
    if HasSlot(s, d, v) {
      var i: nat :| (d, i) in s.slots && s.slots[(d, i)].svc == v;
      assert !SlotIs(r.slots, (d, i), v);
      assert p.slot == ClearSlot((d, i));
      assert s.slots[(d, i)].ref == RefTotal(s, d, v);
    } else {
      assert p.slot.SetSlot? ==> SlotIs(r.slots, (p.slot.k.0, p.slot.k.1), p.slot.slot.svc);
    }
  }

  lemma PerformKeepsRefs(s: State, t: nat, p: Plan)
    requires RefsOk(s) && TablesOk(s) && t in s.threads && Defined(s, p) && SlotPlanOk(s, p.slot)
    requires p.session.FreeSession? ==> p.session.x in s.sessions
    requires forall d: nat, v: nat :: d !in s.closing ==> RefBalanced(s, p, s.threads[t], d, v)
    requires forall d: nat, v: nat ::
      d in s.closing && !HasSlot(Perform(s, t, p), d, v) ==> RefTotal(Perform(s, t, p), d, v) == 0
    ensures RefsOk(Perform(s, t, p))
  {
    var r := Perform(s, t, p);
    forall d: nat, i: nat | (d, i) in r.slots && d !in r.closing
      ensures r.slots[(d, i)].ref == RefTotal(r, d, r.slots[(d, i)].svc) && 1 <= r.slots[(d, i)].ref <= MAX_REF_COUNT
    {
      SlotEquation(s, t, p, d, i);
    }
    forall d: nat, v: nat | !HasSlot(r, d, v)
      ensures RefTotal(r, d, v) == 0
    {
      if d !in s.closing { NoSlotEquation(s, t, p, d, v); }
    }
  }

  // ----- the steps

  /** What the steps that touch service_ref find when they do. */
  ghost predicate RefReady(s: State, a: Action, th: Thread) {
    SessionReady(s, a, th) && SweptSlot(s, a, th) && !a.DropNothing? &&
    (a.OpenRef? && (th.d, a.i) in s.slots ==>
      1 <= s.slots[(th.d, a.i)].ref <= MAX_REF_COUNT && a.i < SERVICES_MAX_COUNT) &&
    (a.DropRef? && (th.d, a.i) in s.slots ==>
      1 <= s.slots[(th.d, a.i)].ref <= MAX_REF_COUNT && a.i < SERVICES_MAX_COUNT) &&
    (a.OpenInsert? ==> !HasSlot(s, th.d, th.v) && th.v in s.services) &&
    (a.TakeOffList? ==> Matches(s, th.x, th.v, th.d))
  }

  lemma OpenBalancesRef(s: State, a: Action, th: Thread, d: nat, v: nat)
    requires OpenEnabled(s, a, th) && RefReady(s, a, th)
    ensures RefBalanced(s, OpenPlan(s, a, th), th, d, v)
  {
    match a
    case OpenRef(_, _) | OpenRefFull(_, _) | OpenMiss(_) | OpenTake(_, _) | OpenCreate(_, _) | OpenNoMem(_) =>
    case OpenInsert(_, _) | OpenFull(_) | OpenAlloc(_) | OpenNoSession(_) | OpenList(_, _) | OpenFail(_) =>
  }

  lemma FindBalancesRef(s: State, a: Action, th: Thread, d: nat, v: nat)
    requires FindEnabled(s, a, th) && RefReady(s, a, th)
    ensures RefBalanced(s, FindPlan(s, a, th), th, d, v)
  {
    match a
    case GetByUuid(_, _) | NoService(_) | FindSession(_, _) | NoSession(_) | TakeOffList(_) =>
  }

  lemma LockBalancesRef(s: State, a: Action, th: Thread, d: nat, v: nat)
    requires LockEnabled(s, a, th) && RefReady(s, a, th)
    ensures RefBalanced(s, LockPlan(s, a, th), th, d, v)
  {
    match a
    case OpenLock(_) | CloseLock(_) | LockSession(_) | UnlockSession(_) | Unlock(_) =>
  }

  lemma DropBalancesRef(s: State, a: Action, th: Thread, d: nat, v: nat)
    requires DropEnabled(s, a, th) && RefReady(s, a, th)
    ensures RefBalanced(s, DropPlan(s, a, th), th, d, v)
  {
    match a
    case DropRef(_, _) | DropService(_) | DropSession(_) =>
  }

  /** A close thread touches only what belongs to its own device. */
  lemma SweepBalancesRef(s: State, a: Action, th: Thread, d: nat, v: nat)
    requires SweepEnabled(s, a, th) && d != th.d
    ensures RefBalanced(s, SweepPlan(s, a, th), th, d, v)
  {
    match a
    case SweepSkip(_) | SweepLock(_) | SweepTake(_, _) | SweepNone(_) | SweepService(_) | SweepEnd(_) =>
  }

  lemma PlanSlotOk(s: State, a: Action, th: Thread)
    requires EnabledAt(s, a, th) && RefReady(s, a, th)
    ensures SlotPlanOk(s, PlanOf(s, a, th).slot)
  {
    if OpenEnabled(s, a, th) { OpenSlotOk(s, a, th); }
    else if FindEnabled(s, a, th) { FindSlotOk(s, a, th); }
    else if LockEnabled(s, a, th) { LockSlotOk(s, a, th); }
    else if DropEnabled(s, a, th) { DropSlotOk(s, a, th); }
    else { SweepSlotOk(s, a, th); }
  }

  lemma OpenSlotOk(s: State, a: Action, th: Thread)
    requires OpenEnabled(s, a, th) && RefReady(s, a, th)
    ensures SlotPlanOk(s, OpenPlan(s, a, th).slot)
  {
    match a
    case OpenRef(_, _) | OpenRefFull(_, _) | OpenMiss(_) | OpenTake(_, _) | OpenCreate(_, _) | OpenNoMem(_) =>
    case OpenInsert(_, _) | OpenFull(_) | OpenAlloc(_) | OpenNoSession(_) | OpenList(_, _) | OpenFail(_) =>
  }

  lemma FindSlotOk(s: State, a: Action, th: Thread)
    requires FindEnabled(s, a, th) && RefReady(s, a, th)
    ensures SlotPlanOk(s, FindPlan(s, a, th).slot)
  {
    match a
    case GetByUuid(_, _) | NoService(_) | FindSession(_, _) | NoSession(_) | TakeOffList(_) =>
  }

  lemma LockSlotOk(s: State, a: Action, th: Thread)
    requires LockEnabled(s, a, th) && RefReady(s, a, th)
    ensures SlotPlanOk(s, LockPlan(s, a, th).slot)
  {
    match a
    case OpenLock(_) | CloseLock(_) | LockSession(_) | UnlockSession(_) | Unlock(_) =>
  }

  lemma DropSlotOk(s: State, a: Action, th: Thread)
    requires DropEnabled(s, a, th) && RefReady(s, a, th)
    ensures SlotPlanOk(s, DropPlan(s, a, th).slot)
  {
    match a
    case DropRef(_, _) | DropService(_) | DropSession(_) =>
  }

  lemma SweepSlotOk(s: State, a: Action, th: Thread)
    requires SweepEnabled(s, a, th) && RefReady(s, a, th)
    ensures SlotPlanOk(s, SweepPlan(s, a, th).slot)
  {
    match a
    case SweepSkip(_) | SweepLock(_) | SweepTake(_, _) | SweepNone(_) | SweepService(_) | SweepEnd(_) =>
  }

  /** Where a thread is when it takes one of the steps that touch service_ref. */
  ghost predicate AtRefStep(s: State, a: Action, th: Thread) {
    (a.OpenRef? ==> th.pc.OpenStart?) &&
    (a.DropRef? ==> th.pc.OpenDrop? || th.pc.CloseDrop?) &&
    (a.DropNothing? ==> (th.pc.OpenDrop? || th.pc.CloseDrop?) && !HasSlot(s, th.d, th.v)) &&
    (a.OpenInsert? ==> th.pc.OpenAdd?) &&
    (a.TakeOffList? ==> th.pc.CloseUnlist?)
  }

  lemma EnabledAtRefStep(s: State, a: Action, th: Thread)
    requires EnabledAt(s, a, th)
    ensures AtRefStep(s, a, th)
  {
  }

  lemma IsRefReady(s: State, a: Action)
    requires RefsOk(s) && TablesOk(s) && ClosingOk(s) && a.t in s.threads && PlaceOk(s, s.threads[a.t])
    requires SessionReady(s, a, s.threads[a.t]) && SweptSlot(s, a, s.threads[a.t]) && AtRefStep(s, a, s.threads[a.t])
    ensures RefReady(s, a, s.threads[a.t])
  {
    var th := s.threads[a.t];
    assert th.pc.OpenStart? || th.pc.OpenDrop? || th.pc.CloseDrop? ==> Busy(th);
    if th.pc.OpenDrop? || th.pc.CloseDrop? {
      RefHolderHasSlot(s, a.t, th.d, th.v);
    }
  }

  /** On a device being closed no call is under way, so only its listed sessions are left to count. */
  lemma ClosingTotal(s: State, d: nat, v: nat)
    requires ClosingOk(s) && d in s.closing
    ensures Count(s.threads, RefHolder(d, v)) == 0
  {
    forall t: nat | t in s.threads
      ensures !RefHolder(d, v)(s.threads[t])
    {
      assert HoldsRef(s.threads[t], d, v) ==> Busy(s.threads[t]);
    }
    CountZero(s.threads, RefHolder(d, v));
  }

  lemma ListedTotal(s: State, d: nat, v: nat)
    requires !HasListed(s, d, v)
    ensures Count(s.sessions, ListedFor(d, v)) == 0
  {
    forall x: nat | x in s.sessions
      ensures !ListedFor(d, v)(s.sessions[x])
    {
      assert !Matches(s, x, v, d);
    }
    CountZero(s.sessions, ListedFor(d, v));
  }

  /** A sweep only takes sessions off, and lets a slot go when its sessions are gone. */
  lemma SweepKeepsEmptySlots(s: State, a: Action, d: nat, v: nat)
    requires RefsOk(s) && ClosingOk(s) && a.t in s.threads && SweepEnabled(s, a, s.threads[a.t])
    requires PlaceOk(s, s.threads[a.t])
    requires d == s.threads[a.t].d && d in s.closing && Defined(s, SweepPlan(s, a, s.threads[a.t]))
    requires !HasSlot(Perform(s, a.t, SweepPlan(s, a, s.threads[a.t])), d, v)
    ensures RefTotal(Perform(s, a.t, SweepPlan(s, a, s.threads[a.t])), d, v) == 0
  {
    var th := s.threads[a.t];
    SweepOnlyTakes(s, a, th, d, v);
    if !HasListed(s, d, th.v) {
      ListedTotal(s, d, th.v);
      ClosingTotal(s, d, th.v);
    }
    TakesKeepEmpty(s, a.t, SweepPlan(s, a, th), d, v, th.v);
  }

  /** A step that takes sessions off a device's lists and clears at most a slot that has none left. */
  lemma TakesKeepEmpty(s: State, t: nat, p: Plan, d: nat, v: nat, w: nat)
    requires RefsOk(s) && t in s.threads && Defined(s, p) && !p.session.FreeSession?
    requires RefDelta(s, p, s.threads[t], d, v) <= 0
    requires p.slot == KeepSlot || (p.slot.ClearSlot? && SlotIs(s.slots, p.slot.k, w) && RefTotal(s, d, w) == 0)
    requires !HasSlot(Perform(s, t, p), d, v)
    ensures RefTotal(Perform(s, t, p), d, v) == 0
  {
    TotalMoves(s, t, p, d, v);
    if HasSlot(s, d, v) {
      var i: nat :| (d, i) in s.slots && s.slots[(d, i)].svc == v;
      assert !SlotIs(Perform(s, t, p).slots, (d, i), v);
    }
  }

  lemma SweepOnlyTakes(s: State, a: Action, th: Thread, d: nat, v: nat)
    requires SweepEnabled(s, a, th) && PlaceOk(s, th)
    ensures RefDelta(s, SweepPlan(s, a, th), th, d, v) <= 0
    ensures !SweepPlan(s, a, th).session.FreeSession?
    ensures var p := SweepPlan(s, a, th);
      p.slot == KeepSlot ||
      (p.slot == ClearSlot((th.d, th.i)) && SlotIs(s.slots, (th.d, th.i), th.v) && !HasListed(s, th.d, th.v))
  {
    match a
    case SweepSkip(_) | SweepLock(_) | SweepTake(_, _) | SweepNone(_) | SweepService(_) | SweepEnd(_) =>
  }

  lemma RefsKept(s: State, a: Action)
    requires Inv(s) && Enabled(s, a)
    ensures RefsOk(Apply(s, a))
  {
    if a.Begin? || a.SweepStart? {
      StartKeepsRefs(s, a);
    } else {
      RefsKeptAt(s, a);
    }
  }

  lemma StartKeepsRefs(s: State, a: Action)
    requires RefsOk(s) && Enabled(s, a) && (a.Begin? || a.SweepStart?)
    ensures RefsOk(Apply(s, a))
  {
    var r := Apply(s, a);
    forall d: nat, v: nat
      ensures RefTotal(r, d, v) == RefTotal(s, d, v) && (HasSlot(r, d, v) <==> HasSlot(s, d, v))
    {
      ThreadMoves(s.threads, a.t, r.threads[a.t], RefHolder(d, v));
    }
  }

  lemma RefsKeptAt(s: State, a: Action)
    requires Inv(s) && a.t in s.threads && EnabledAt(s, a, s.threads[a.t])
    ensures Defined(s, PlanOf(s, a, s.threads[a.t])) && RefsOk(Perform(s, a.t, PlanOf(s, a, s.threads[a.t])))
  {
    var th := s.threads[a.t];
    assert PlaceOk(s, th);
    SweepHasSlot(s, a, th);
    SessionIsReady(s, a);
    EnabledAtRefStep(s, a, th);
    IsRefReady(s, a);
    PlanIsDefined(s, a, th);
    PlanSessionOk(s, a, th);
    PlanSlotOk(s, a, th);
    BalancedRefs(s, a);
    PerformKeepsRefs(s, a.t, PlanOf(s, a, th));
  }

  lemma BalancedRefs(s: State, a: Action)
    requires RefsOk(s) && ClosingOk(s) && a.t in s.threads && EnabledAt(s, a, s.threads[a.t])
    requires PlaceOk(s, s.threads[a.t])
    requires RefReady(s, a, s.threads[a.t]) && Defined(s, PlanOf(s, a, s.threads[a.t]))
    requires SessionPlanOk(s, PlanOf(s, a, s.threads[a.t]).session)
    ensures var p := PlanOf(s, a, s.threads[a.t]);
      (forall d: nat, v: nat :: d !in s.closing ==> RefBalanced(s, p, s.threads[a.t], d, v)) &&
      (forall d: nat, v: nat ::
        d in s.closing && !HasSlot(Perform(s, a.t, p), d, v) ==> RefTotal(Perform(s, a.t, p), d, v) == 0)
  {
    var th := s.threads[a.t];
    var p := PlanOf(s, a, th);
    SlotsOfOwnDevice(s, a, th);
    forall d: nat, v: nat
      ensures d !in s.closing ==> RefBalanced(s, p, th, d, v)
      ensures d in s.closing && !HasSlot(Perform(s, a.t, p), d, v) ==> RefTotal(Perform(s, a.t, p), d, v) == 0
    {
      if SweepEnabled(s, a, th) && d == th.d {
        SweeperIsClosing(s, a);
        if !HasSlot(Perform(s, a.t, p), d, v) { SweepKeepsEmptySlots(s, a, d, v); }
      } else {
        PlanBalancesRef(s, a, th, d, v);
        if d in s.closing { BalancedKeepsEmpty(s, a.t, p, d, v); }
      }
    }
  }

  lemma PlanBalancesRef(s: State, a: Action, th: Thread, d: nat, v: nat)
    requires EnabledAt(s, a, th) && RefReady(s, a, th) && (SweepEnabled(s, a, th) ==> d != th.d)
    ensures RefBalanced(s, PlanOf(s, a, th), th, d, v)
  {
    if OpenEnabled(s, a, th) { OpenBalancesRef(s, a, th, d, v); }
    else if FindEnabled(s, a, th) { FindBalancesRef(s, a, th, d, v); }
    else if LockEnabled(s, a, th) { LockBalancesRef(s, a, th, d, v); }
    else if DropEnabled(s, a, th) { DropBalancesRef(s, a, th, d, v); }
    else { SweepBalancesRef(s, a, th, d, v); }
  }

  lemma SweeperIsClosing(s: State, a: Action)
    requires ClosingOk(s) && a.t in s.threads && SweepEnabled(s, a, s.threads[a.t])
    ensures IsSweep(s.threads[a.t]) && s.threads[a.t].d in s.closing
  {
  }

  /** A step that is balanced for a device and writes none of its slots leaves the sum as it was. */
  lemma BalancedKeepsEmpty(s: State, t: nat, p: Plan, d: nat, v: nat)
    requires RefsOk(s) && t in s.threads && Defined(s, p) && SessionPlanOk(s, p.session)
    requires RefBalanced(s, p, s.threads[t], d, v) && (p.slot == KeepSlot || p.slot.k.0 != d)
    ensures !HasSlot(Perform(s, t, p), d, v) ==> RefTotal(Perform(s, t, p), d, v) == 0
  {
    var r := Perform(s, t, p);
    TotalMoves(s, t, p, d, v);
    if HasSlot(s, d, v) {
      var i: nat :| (d, i) in s.slots && s.slots[(d, i)].svc == v;
      assert SlotIs(r.slots, (d, i), v);
    }
  }

  /**
    A step writes slots of the acting thread's device only, and only a close thread does so for a device being closed.
   */
  lemma SlotsOfOwnDevice(s: State, a: Action, th: Thread)
    requires EnabledAt(s, a, th)
    ensures var p := PlanOf(s, a, th);
      p.slot == KeepSlot || (p.slot.k.0 == th.d && (Busy(th) || SweepEnabled(s, a, th)))
  {
    if OpenEnabled(s, a, th) { OpenOwnSlots(s, a, th); }
    else if DropEnabled(s, a, th) { DropOwnSlots(s, a, th); }
  }

  lemma OpenOwnSlots(s: State, a: Action, th: Thread)
    requires OpenEnabled(s, a, th)
    ensures var p := OpenPlan(s, a, th); p.slot == KeepSlot || (p.slot.k.0 == th.d && Busy(th))
  {
  }

  lemma DropOwnSlots(s: State, a: Action, th: Thread)
    requires DropEnabled(s, a, th)
    ensures var p := DropPlan(s, a, th); p.slot == KeepSlot || (p.slot.k.0 == th.d && Busy(th))
  {
  }
}
