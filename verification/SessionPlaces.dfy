/**
  Every step keeps what the other threads rely on where they are, and leaves the acting thread
  with what it needs next.
 */
module SessionPlaces {
  import opened Sessions
  import opened SessionInvariants
  import opened SessionCounts
  import opened SessionRefs

  // ----- what a step may touch

  /** Slots are written under the device's service_lock, or by the device's close thread. */
  predicate SlotGuarded(s: State, p: Plan, th: Thread) {
    p.slot == KeepSlot ||
    (p.slot.k.0 == th.d && (th.d !in s.devLock || HoldsDevLock(th, th.d) || IsSweep(th)))
  }

  /** Session lists are written for the thread's own device, under the service's operation_lock. */
  predicate ListGuarded(s: State, p: Plan, th: Thread) {
    match p.session
    case KeepSession => true
    case SetSession(x, e) =>
      x in s.sessions && e.owner == s.sessions[x].owner && e.svc == s.sessions[x].svc &&
      (e.listed == s.sessions[x].listed ||
       (s.sessions[x].listed && !e.listed && e.owner == th.d && HoldsOpLock(th, e.svc)))
    case NewSession(x, e) => x !in s.sessions && e.owner == th.d
    case FreeSession(x) => x in s.sessions && !s.sessions[x].listed
  }

  lemma OpenSlotGuarded(s: State, a: Action, th: Thread)
    requires OpenEnabled(s, a, th)
    ensures SlotGuarded(s, OpenPlan(s, a, th), th)
  {
    match a
    case OpenRef(_, _) | OpenRefFull(_, _) | OpenMiss(_) | OpenTake(_, _) | OpenCreate(_, _) | OpenNoMem(_) =>
    case OpenInsert(_, _) | OpenFull(_) | OpenAlloc(_) | OpenNoSession(_) | OpenList(_, _) | OpenFail(_) =>
  }

  lemma FindSlotGuarded(s: State, a: Action, th: Thread)
    requires FindEnabled(s, a, th)
    ensures SlotGuarded(s, FindPlan(s, a, th), th)
  {
    match a
    case GetByUuid(_, _) | NoService(_) | FindSession(_, _) | NoSession(_) | TakeOffList(_) =>
  }

  lemma LockSlotGuarded(s: State, a: Action, th: Thread)
    requires LockEnabled(s, a, th)
    ensures SlotGuarded(s, LockPlan(s, a, th), th)
  {
    match a
    case OpenLock(_) | CloseLock(_) | LockSession(_) | UnlockSession(_) | Unlock(_) =>
  }

  lemma DropSlotGuarded(s: State, a: Action, th: Thread)
    requires DropEnabled(s, a, th)
    ensures SlotGuarded(s, DropPlan(s, a, th), th)
  {
    match a
    case DropRef(_, _) | DropNothing(_) | DropService(_) | DropSession(_) =>
  }

  lemma SweepSlotGuarded(s: State, a: Action, th: Thread)
    requires SweepEnabled(s, a, th)
    ensures SlotGuarded(s, SweepPlan(s, a, th), th)
  {
    match a
    case SweepSkip(_) | SweepLock(_) | SweepTake(_, _) | SweepNone(_) | SweepService(_) | SweepEnd(_) =>
  }

  lemma PlanSlotGuarded(s: State, a: Action, th: Thread)
    requires EnabledAt(s, a, th)
    ensures SlotGuarded(s, PlanOf(s, a, th), th)
  {
    if OpenEnabled(s, a, th) { OpenSlotGuarded(s, a, th); }
    else if FindEnabled(s, a, th) { FindSlotGuarded(s, a, th); }
    else if LockEnabled(s, a, th) { LockSlotGuarded(s, a, th); }
    else if DropEnabled(s, a, th) { DropSlotGuarded(s, a, th); }
    else { SweepSlotGuarded(s, a, th); }
  }

  lemma OpenListGuarded(s: State, a: Action, th: Thread)
    requires OpenEnabled(s, a, th) && RefReady(s, a, th)
    ensures ListGuarded(s, OpenPlan(s, a, th), th)
  {
    match a
    case OpenRef(_, _) | OpenRefFull(_, _) | OpenMiss(_) | OpenTake(_, _) | OpenCreate(_, _) | OpenNoMem(_) =>
    case OpenInsert(_, _) | OpenFull(_) | OpenAlloc(_) | OpenNoSession(_) | OpenList(_, _) | OpenFail(_) =>
  }

  lemma FindListGuarded(s: State, a: Action, th: Thread)
    requires FindEnabled(s, a, th) && RefReady(s, a, th)
    ensures ListGuarded(s, FindPlan(s, a, th), th)
  {
    match a
    case GetByUuid(_, _) | NoService(_) | FindSession(_, _) | NoSession(_) | TakeOffList(_) =>
  }

  lemma LockListGuarded(s: State, a: Action, th: Thread)
    requires LockEnabled(s, a, th) && RefReady(s, a, th)
    ensures ListGuarded(s, LockPlan(s, a, th), th)
  {
    match a
    case OpenLock(_) | CloseLock(_) | LockSession(_) | UnlockSession(_) | Unlock(_) =>
  }

  lemma DropListGuarded(s: State, a: Action, th: Thread)
    requires DropEnabled(s, a, th) && RefReady(s, a, th)
    ensures ListGuarded(s, DropPlan(s, a, th), th)
  {
    match a
    case DropRef(_, _) | DropNothing(_) | DropService(_) | DropSession(_) =>
  }

  lemma SweepListGuarded(s: State, a: Action, th: Thread)
    requires SweepEnabled(s, a, th) && RefReady(s, a, th)
    ensures ListGuarded(s, SweepPlan(s, a, th), th)
  {
    match a
    case SweepSkip(_) | SweepLock(_) | SweepTake(_, _) | SweepNone(_) | SweepService(_) | SweepEnd(_) =>
  }

  lemma PlanListGuarded(s: State, a: Action, th: Thread)
    requires EnabledAt(s, a, th) && RefReady(s, a, th)
    ensures ListGuarded(s, PlanOf(s, a, th), th)
  {
    if OpenEnabled(s, a, th) { OpenListGuarded(s, a, th); }
    else if FindEnabled(s, a, th) { FindListGuarded(s, a, th); }
    else if LockEnabled(s, a, th) { LockListGuarded(s, a, th); }
    else if DropEnabled(s, a, th) { DropListGuarded(s, a, th); }
    else { SweepListGuarded(s, a, th); }
  }

  // ----- the other threads

  predicate SameSlots(s: State, r: State, d: nat, i: nat) {
    ((d, i) in r.slots <==> (d, i) in s.slots) && ((d, i) in s.slots ==> r.slots[(d, i)].svc == s.slots[(d, i)].svc)
  }

  /** A step changes nothing of another device. */
  lemma ForeignDevice(s: State, t: nat, p: Plan, d: nat)
    requires t in s.threads && Defined(s, p) && SlotGuarded(s, p, s.threads[t]) && ListGuarded(s, p, s.threads[t])
    requires d != s.threads[t].d
    ensures var r := Perform(s, t, p);
      (forall i: nat :: SameSlots(s, r, d, i)) &&
      (forall x: nat, v: nat :: Matches(r, x, v, d) <==> Matches(s, x, v, d))
  {
    var r := Perform(s, t, p);
    forall i: nat
      ensures SameSlots(s, r, d, i)
    {
    }
    forall x: nat, v: nat
      ensures Matches(r, x, v, d) <==> Matches(s, x, v, d)
    {
    }
  }

  /** Services keep their uuid; a service that some slot refers to is no new one. */
  lemma ServicesKeepUuid(s: State, t: nat, p: Plan, v: nat, u: nat)
    requires Defined(s, p)
    ensures var r := Perform(s, t, p);
      (v in r.services && ServiceIs(s, v, u) ==> ServiceIs(r, v, u)) &&
      (v in s.services && ServiceIs(r, v, u) ==> ServiceIs(s, v, u))
  {
  }

  lemma UnknownStaysUnknown(s: State, t: nat, p: Plan, d: nat, u: nat)
    requires TablesOk(s) && Defined(s, p) && (forall i: nat :: SameSlots(s, Perform(s, t, p), d, i))
    ensures !DeviceKnows(s, d, u) ==> !DeviceKnows(Perform(s, t, p), d, u)
  {
    var r := Perform(s, t, p);
    forall i: nat | SlotHas(r, d, i, u)
      ensures SlotHas(s, d, i, u)
    {
      assert SameSlots(s, r, d, i);
      ServicesKeepUuid(s, t, p, r.slots[(d, i)].svc, u);
    }
  }

  lemma SlotlessStaysSlotless(s: State, r: State, d: nat, v: nat)
    requires forall i: nat :: SameSlots(s, r, d, i)
    ensures HasSlot(s, d, v) <==> HasSlot(r, d, v)
  {
    if HasSlot(s, d, v) {
      var i: nat :| (d, i) in s.slots && s.slots[(d, i)].svc == v;
      assert SameSlots(s, r, d, i);
    }
    if HasSlot(r, d, v) {
      var i: nat :| (d, i) in r.slots && r.slots[(d, i)].svc == v;
      assert SameSlots(s, r, d, i);
    }
  }

  /** A device's slots do not change while another thread holds its service_lock. */
  lemma LockedDevice(s: State, t: nat, p: Plan, q: nat)
    requires LocksOk(s) && ClosingOk(s) && t in s.threads && q in s.threads && q != t && Defined(s, p)
    requires SlotGuarded(s, p, s.threads[t]) && HoldsDevLock(s.threads[q], s.threads[q].d)
    ensures forall i: nat :: SameSlots(s, Perform(s, t, p), s.threads[q].d, i)
  {
    LockedSlots(s, t, p, q);
    SlotsElsewhere(s, t, p, s.threads[q].d);
  }

  lemma LockedSlots(s: State, t: nat, p: Plan, q: nat)
    requires LocksOk(s) && ClosingOk(s) && t in s.threads && q in s.threads && q != t
    requires SlotGuarded(s, p, s.threads[t]) && HoldsDevLock(s.threads[q], s.threads[q].d)
    ensures p.slot == KeepSlot || p.slot.k.0 != s.threads[q].d
  {
    var d := s.threads[q].d;
    assert Busy(s.threads[q]);
  }

  lemma SlotsElsewhere(s: State, t: nat, p: Plan, d: nat)
    requires Defined(s, p) && (p.slot == KeepSlot || p.slot.k.0 != d)
    ensures forall i: nat :: SameSlots(s, Perform(s, t, p), d, i)
  {
  }

  /** A session another thread holds the operation_lock for stays on its list. */
  lemma LockedSession(s: State, t: nat, p: Plan, q: nat)
    requires LocksOk(s) && t in s.threads && q in s.threads && q != t && Defined(s, p)
    requires ListGuarded(s, p, s.threads[t])
    requires var th := s.threads[q]; Matches(s, th.x, th.v, th.d) && HoldsOpLock(th, th.v)
    ensures var th := s.threads[q]; Matches(Perform(s, t, p), th.x, th.v, th.d)
  {
  }

  lemma SweepViewKept(s: State, r: State, th: Thread)
    requires PlaceOk(s, th) && IsSweep(th)
    requires forall i: nat :: SameSlots(s, r, th.d, i)
    requires forall x: nat, v: nat :: Matches(r, x, v, th.d) <==> Matches(s, x, v, th.d)
    ensures PlaceOk(r, th)
  {
    forall v: nat
      ensures HasListed(r, th.d, v) <==> HasListed(s, th.d, v)
    {
      if HasListed(s, th.d, v) { var x: nat :| Matches(s, x, v, th.d); assert Matches(r, x, v, th.d); }
      if HasListed(r, th.d, v) { var x: nat :| Matches(r, x, v, th.d); assert Matches(s, x, v, th.d); }
    }
    forall i: nat
      ensures ((th.d, i) in r.slots <==> (th.d, i) in s.slots)
      ensures ((th.d, i) in s.slots ==> r.slots[(th.d, i)].svc == s.slots[(th.d, i)].svc)
    {
      assert SameSlots(s, r, th.d, i);
    }
  }

  lemma OtherPlaceKept(s: State, t: nat, p: Plan, q: nat)
    requires TablesOk(s) && LocksOk(s) && ClosingOk(s) && t in s.threads && q in s.threads && q != t
    requires Defined(s, p) && SlotGuarded(s, p, s.threads[t]) && ListGuarded(s, p, s.threads[t])
    requires UsageOk(Perform(s, t, p))
    requires !s.threads[t].pc.Finished? && PlaceOk(s, s.threads[q])
    ensures PlaceOk(Perform(s, t, p), s.threads[q])
  {
    var r := Perform(s, t, p);
    var th := s.threads[q];
    if IsSweep(th) {
      ForeignDevice(s, t, p, th.d);
      SweepViewKept(s, r, th);
    } else if th.pc.OpenLookup? {
      LockedDevice(s, t, p, q);
      UnknownStaysUnknown(s, t, p, th.d, th.u);
    } else if th.pc.OpenAdd? {
      LockedDevice(s, t, p, q);
      SlotlessStaysSlotless(s, r, th.d, th.v);
      assert r.threads[q] == th;
      HeldServiceExists(r, q, th.v);
      ServicesKeepUuid(s, t, p, th.v, th.u);
    } else if th.pc.SendFind? || th.pc.CloseWait? || th.pc.CloseFind? {
      assert r.threads[q] == th;
      HeldServiceExists(r, q, th.v);
      ServicesKeepUuid(s, t, p, th.v, th.u);
    } else if HasListedSession(th) {
      LockedSession(s, t, p, q);
    }
  }

  // ----- the acting thread

  lemma OpenPlaceNext(s: State, a: Action, th: Thread)
    requires OpenEnabled(s, a, th) && PlaceOk(s, th) && TablesOk(s) && Defined(s, OpenPlan(s, a, th))
    requires s.nextSession !in s.sessions
    ensures PlaceOk(Perform(s, a.t, OpenPlan(s, a, th)), OpenPlan(s, a, th).next)
  {
    if a.OpenMiss? || a.OpenTake? || a.OpenCreate? { LookupPlaceNext(s, a, th); } else { OtherOpenPlaceNext(s, a, th); }
  }

  lemma LookupPlaceNext(s: State, a: Action, th: Thread)
    requires (a.OpenMiss? || a.OpenTake? || a.OpenCreate?) && OpenEnabled(s, a, th)
    requires PlaceOk(s, th) && TablesOk(s) && Defined(s, OpenPlan(s, a, th))
    ensures PlaceOk(Perform(s, a.t, OpenPlan(s, a, th)), OpenPlan(s, a, th).next)
  {
    var p := OpenPlan(s, a, th);
    var r := Perform(s, a.t, p);
    SlotsElsewhere(s, a.t, p, th.d);
    match a
    case OpenMiss(_) =>
      UnknownStaysUnknown(s, a.t, p, th.d, th.u);
    case OpenTake(_, v) =>
      FoundIsNotInDevice(s, th.d, v, th.u);
      SlotlessStaysSlotless(s, r, th.d, v);
    case OpenCreate(_, v) =>
      NewIsNotInDevice(s, th.d, v);
      SlotlessStaysSlotless(s, r, th.d, v);
  }

  lemma OtherOpenPlaceNext(s: State, a: Action, th: Thread)
    requires !a.OpenMiss? && !a.OpenTake? && !a.OpenCreate? && OpenEnabled(s, a, th)
    requires Defined(s, OpenPlan(s, a, th)) && s.nextSession !in s.sessions
    ensures PlaceOk(Perform(s, a.t, OpenPlan(s, a, th)), OpenPlan(s, a, th).next)
  {
    hide DeviceKnows;
    hide SweptBelow;
    hide ListedFrom;
    hide InSweep;
    hide HasSlot;
    if !a.OpenList? { OpenGoesOn(s, a, th); }
  }

  lemma OpenGoesOn(s: State, a: Action, th: Thread)
    requires !a.OpenMiss? && !a.OpenTake? && !a.OpenCreate? && !a.OpenList? && OpenEnabled(s, a, th)
    ensures OpenPlan(s, a, th).next.pc in {OpenReady, OpenWait, OpenPutBack, OpenDrop, Finished}
  {
    match a
    case OpenRef(_, _) | OpenRefFull(_, _) | OpenNoMem(_) =>
    case OpenInsert(_, _) | OpenFull(_) | OpenAlloc(_) | OpenNoSession(_) | OpenFail(_) =>
  }

  lemma FoundIsNotInDevice(s: State, d: nat, v: nat, u: nat)
    requires TablesOk(s) && !DeviceKnows(s, d, u) && ServiceIs(s, v, u)
    ensures !HasSlot(s, d, v)
  {
    if HasSlot(s, d, v) {
      var i: nat :| (d, i) in s.slots && s.slots[(d, i)].svc == v;
      assert SlotHas(s, d, i, u);
    }
  }

  lemma NewIsNotInDevice(s: State, d: nat, v: nat)
    requires TablesOk(s) && v !in s.services
    ensures !HasSlot(s, d, v)
  {
  }

  lemma FindPlaceNext(s: State, a: Action, th: Thread)
    requires FindEnabled(s, a, th) && Defined(s, FindPlan(s, a, th))
    ensures PlaceOk(Perform(s, a.t, FindPlan(s, a, th)), FindPlan(s, a, th).next)
  {
    match a
    case GetByUuid(_, _) | NoService(_) | NoSession(_) | TakeOffList(_) =>
    case FindSession(_, x) =>
      assert Matches(Perform(s, a.t, FindPlan(s, a, th)), x, th.v, th.d);
  }

  lemma LockPlaceNext(s: State, a: Action, th: Thread)
    requires LockEnabled(s, a, th) && PlaceOk(s, th) && Defined(s, LockPlan(s, a, th))
    ensures PlaceOk(Perform(s, a.t, LockPlan(s, a, th)), LockPlan(s, a, th).next)
  {
    match a
    case OpenLock(_) | CloseLock(_) | LockSession(_) | UnlockSession(_) | Unlock(_) =>
  }

  lemma DropPlaceNext(s: State, a: Action, th: Thread)
    requires DropEnabled(s, a, th) && PlaceOk(s, th) && Defined(s, DropPlan(s, a, th)) && RefReady(s, a, th)
    ensures PlaceOk(Perform(s, a.t, DropPlan(s, a, th)), DropPlan(s, a, th).next)
  {
    match a
    case DropRef(_, _) | DropNothing(_) | DropService(_) =>
    case DropSession(_) =>
      if IsSweep(th) { PutInSweep(s, a, th); }
  }

  /** Putting a session that is off its list changes nothing a close thread looks at. */
  lemma PutInSweep(s: State, a: Action, th: Thread)
    requires a.DropSession? && DropEnabled(s, a, th) && PlaceOk(s, th) && IsSweep(th)
    requires Defined(s, DropPlan(s, a, th)) && RefReady(s, a, th)
    ensures PlaceOk(Perform(s, a.t, DropPlan(s, a, th)), DropPlan(s, a, th).next)
  {
    var p := DropPlan(s, a, th);
    var r := Perform(s, a.t, p);
    SlotsElsewhere(s, a.t, p, th.d);
    DropListGuarded(s, a, th);
    assert forall x: nat, v: nat :: Matches(r, x, v, th.d) <==> Matches(s, x, v, th.d);
    SweepViewKept(s, r, th);
  }

  lemma SweepPlaceNext(s: State, a: Action, th: Thread)
    requires SweepEnabled(s, a, th) && PlaceOk(s, th) && TablesOk(s) && Defined(s, SweepPlan(s, a, th))
    ensures PlaceOk(Perform(s, a.t, SweepPlan(s, a, th)), SweepPlan(s, a, th).next)
  {
    if a.SweepTake? || a.SweepService? { SweepTablesNext(s, a, th); } else { SweepViewNext(s, a, th); }
  }

  lemma SweepTablesNext(s: State, a: Action, th: Thread)
    requires (a.SweepTake? || a.SweepService?) && SweepEnabled(s, a, th)
    requires PlaceOk(s, th) && TablesOk(s) && Defined(s, SweepPlan(s, a, th))
    ensures PlaceOk(Perform(s, a.t, SweepPlan(s, a, th)), SweepPlan(s, a, th).next)
  {
    var r := Perform(s, a.t, SweepPlan(s, a, th));
    match a
    case SweepTake(_, x) => TakeInSweep(s, r, th, x);
    case SweepService(_) => SlotGone(s, r, th);
  }

  lemma SweepViewNext(s: State, a: Action, th: Thread)
    requires !a.SweepTake? && !a.SweepService? && SweepEnabled(s, a, th)
    requires PlaceOk(s, th) && Defined(s, SweepPlan(s, a, th))
    ensures PlaceOk(Perform(s, a.t, SweepPlan(s, a, th)), SweepPlan(s, a, th).next)
  {
    var p := SweepPlan(s, a, th);
    SweepNextInPlace(s, a, th);
    ViewKept(s, Perform(s, a.t, p), p.next);
  }

  lemma SweepNextInPlace(s: State, a: Action, th: Thread)
    requires !a.SweepTake? && !a.SweepService? && SweepEnabled(s, a, th) && PlaceOk(s, th)
    ensures PlaceOk(s, SweepPlan(s, a, th).next) && IsSweep(SweepPlan(s, a, th).next)
    ensures SweepPlan(s, a, th).slot.KeepSlot? && SweepPlan(s, a, th).session.KeepSession?
  {
    match a
    case SweepSkip(_) => SkipInSweep(s, th);
    case SweepNone(_) => NoneInSweep(s, th);
    case SweepLock(_) | SweepEnd(_) =>
  }

  lemma ViewKept(s: State, r: State, next: Thread)
    requires r.slots == s.slots && r.sessions == s.sessions && IsSweep(next) && PlaceOk(s, next)
    ensures PlaceOk(r, next)
  {
    assert forall i: nat :: SameSlots(s, r, next.d, i);
    assert forall x: nat, v: nat :: Matches(r, x, v, next.d) <==> Matches(s, x, v, next.d);
    SweepViewKept(s, r, next);
  }

  /** An occupied slot always has a session to close, so a slot skipped is empty. */
  lemma SkipInSweep(s: State, th: Thread)
    requires PlaceOk(s, th) && th.pc.SweepSlot? && th.i < SERVICES_MAX_COUNT
    requires (th.d, th.i) in s.slots ==> forall x: nat :: !OnList(s, x, s.slots[(th.d, th.i)].svc)
    ensures (th.d, th.i) !in s.slots
  {
    if (th.d, th.i) in s.slots {
      var x: nat :| Matches(s, x, s.slots[(th.d, th.i)].svc, th.d);
      assert OnList(s, x, s.slots[(th.d, th.i)].svc);
    }
  }

  lemma NoneInSweep(s: State, th: Thread)
    requires forall x: nat :: !Matches(s, x, th.v, th.d)
    ensures !HasListed(s, th.d, th.v)
  {
  }

  /** Taking a session of the slot being swept leaves those of the later slots listed. */
  lemma TakeInSweep(s: State, r: State, th: Thread, x: nat)
    requires PlaceOk(s, th) && th.pc.SweepList? && TablesOk(s) && Matches(s, x, th.v, th.d)
    requires r.slots == s.slots && x in r.sessions && r.sessions == s.sessions[x := r.sessions[x]]
    ensures PlaceOk(r, th.(pc := SweepPut1, x := x))
  {
    forall j: nat | th.i + 1 <= j && (th.d, j) in r.slots
      ensures HasListed(r, th.d, r.slots[(th.d, j)].svc)
    {
      var v := s.slots[(th.d, j)].svc;
      assert v != th.v;
      var y: nat :| Matches(s, y, v, th.d);
      assert Matches(r, y, v, th.d);
    }
  }

  lemma SlotGone(s: State, r: State, th: Thread)
    requires PlaceOk(s, th) && th.pc.SweepPutSvc? && r.slots == s.slots - {(th.d, th.i)} && r.sessions == s.sessions
    ensures PlaceOk(r, th.(pc := SweepSlot, i := th.i + 1))
  {
    hide HasListed;
    assert InSweep(s, th);
    assert SweptBelow(r, th.d, th.i + 1);
    ListedAsBefore(s, r, th.d, th.i + 1);
  }

  lemma ListedAsBefore(s: State, r: State, d: nat, i: nat)
    requires ListedFrom(s, d, i) && r.sessions == s.sessions
    requires forall k :: k in r.slots ==> k in s.slots && r.slots[k] == s.slots[k]
    ensures ListedFrom(r, d, i)
  {
    forall j: nat | i <= j && (d, j) in r.slots
      ensures HasListed(r, d, r.slots[(d, j)].svc)
    {
      var v := s.slots[(d, j)].svc;
      var y: nat :| Matches(s, y, v, d);
      assert Matches(r, y, v, d);
    }
  }

  // ----- all threads

  lemma PlacesKeptAt(s: State, a: Action)
    requires Inv(s) && a.t in s.threads && EnabledAt(s, a, s.threads[a.t]) && RefReady(s, a, s.threads[a.t])
    requires Defined(s, PlanOf(s, a, s.threads[a.t])) && UsageOk(Perform(s, a.t, PlanOf(s, a, s.threads[a.t])))
    ensures PlacesOk(Perform(s, a.t, PlanOf(s, a, s.threads[a.t])))
  {
    var th := s.threads[a.t];
    PlanSlotGuarded(s, a, th);
    PlanListGuarded(s, a, th);
    EnabledIsRunning(s, a, th);
    assert PlaceOk(s, th);
    OwnPlaceNext(s, a, th);
    PlacesKeptBy(s, a.t, PlanOf(s, a, th));
  }

  lemma PlacesKeptBy(s: State, t: nat, p: Plan)
    requires TablesOk(s) && LocksOk(s) && ClosingOk(s) && PlacesOk(s) && t in s.threads && !s.threads[t].pc.Finished?
    requires Defined(s, p) && SlotGuarded(s, p, s.threads[t]) && ListGuarded(s, p, s.threads[t])
    requires UsageOk(Perform(s, t, p)) && PlaceOk(Perform(s, t, p), p.next)
    ensures PlacesOk(Perform(s, t, p))
  {
    hide PlaceOk;
    hide TablesOk;
    hide LocksOk;
    hide ClosingOk;
    hide UsageOk;
    hide SlotGuarded;
    hide ListGuarded;
    var r := Perform(s, t, p);
    forall q: nat | q in r.threads
      ensures PlaceOk(r, r.threads[q])
    {
      if q != t {
        assert PlaceOk(s, s.threads[q]);
        OtherPlaceKept(s, t, p, q);
      }
    }
  }

  lemma OwnPlaceNext(s: State, a: Action, th: Thread)
    requires EnabledAt(s, a, th) && PlaceOk(s, th) && TablesOk(s) && NumbersOk(s)
    requires Defined(s, PlanOf(s, a, th)) && RefReady(s, a, th)
    ensures PlaceOk(Perform(s, a.t, PlanOf(s, a, th)), PlanOf(s, a, th).next)
  {
    if OpenEnabled(s, a, th) { OpenPlaceNext(s, a, th); }
    else if FindEnabled(s, a, th) { FindPlaceNext(s, a, th); }
    else if LockEnabled(s, a, th) { LockPlaceNext(s, a, th); }
    else if DropEnabled(s, a, th) { DropPlaceNext(s, a, th); }
    else { SweepPlaceNext(s, a, th); }
  }

  lemma EnabledIsRunning(s: State, a: Action, th: Thread)
    requires EnabledAt(s, a, th)
    ensures !th.pc.Finished?
  {
    if OpenEnabled(s, a, th) { OpenIsRunning(s, a, th); }
    else if FindEnabled(s, a, th) { FindIsRunning(s, a, th); }
    else if LockEnabled(s, a, th) { LockIsRunning(s, a, th); }
    else if DropEnabled(s, a, th) { DropIsRunning(s, a, th); }
    else { SweepIsRunning(s, a, th); }
  }

  lemma OpenIsRunning(s: State, a: Action, th: Thread)
    requires OpenEnabled(s, a, th)
    ensures !th.pc.Finished? && !IsSweep(th)
  {
    match a
    case OpenMiss(_) | OpenTake(_, _) | OpenCreate(_, _) | OpenRef(_, _) | OpenRefFull(_, _) | OpenNoMem(_) =>
    case OpenInsert(_, _) | OpenFull(_) | OpenAlloc(_) | OpenNoSession(_) | OpenList(_, _) | OpenFail(_) =>
  }

  lemma FindIsRunning(s: State, a: Action, th: Thread)
    requires FindEnabled(s, a, th)
    ensures !th.pc.Finished? && !IsSweep(th)
  {
    match a
    case GetByUuid(_, _) | NoService(_) | FindSession(_, _) | NoSession(_) | TakeOffList(_) =>
  }

  lemma LockIsRunning(s: State, a: Action, th: Thread)
    requires LockEnabled(s, a, th)
    ensures !th.pc.Finished? && !IsSweep(th)
  {
    match a
    case OpenLock(_) | CloseLock(_) | LockSession(_) | UnlockSession(_) | Unlock(_) =>
  }

  lemma DropIsRunning(s: State, a: Action, th: Thread)
    requires DropEnabled(s, a, th)
    ensures !th.pc.Finished?
  {
    match a
    case DropRef(_, _) | DropNothing(_) | DropService(_) | DropSession(_) =>
  }

  lemma SweepIsRunning(s: State, a: Action, th: Thread)
    requires SweepEnabled(s, a, th)
    ensures !th.pc.Finished?
  {
    match a
    case SweepSkip(_) | SweepLock(_) | SweepTake(_, _) | SweepNone(_) | SweepService(_) | SweepEnd(_) =>
  }

  /** A close thread takes no step of an open or of a look-up. */
  lemma SweepActions(s: State, a: Action, th: Thread)
    requires EnabledAt(s, a, th) && IsSweep(th)
    ensures !OpenEnabled(s, a, th) && !FindEnabled(s, a, th) && !LockEnabled(s, a, th)
    ensures DropEnabled(s, a, th) || SweepEnabled(s, a, th)
  {
    if OpenEnabled(s, a, th) { OpenIsRunning(s, a, th); }
    if FindEnabled(s, a, th) { FindIsRunning(s, a, th); }
    if LockEnabled(s, a, th) { LockIsRunning(s, a, th); }
  }
}
