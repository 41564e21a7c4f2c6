/**
  Every step keeps the tables, the locks, the close threads and the record of won closes.
 */
module SessionTables {
  import opened Options
  import opened Sessions
  import opened SessionInvariants
  import opened SessionCounts
  import opened SessionRefs

  // ----- tables

  lemma PerformKeepsTables(s: State, t: nat, p: Plan)
    requires TablesOk(s) && Defined(s, p) && SlotPlanOk(s, p.slot) && UsageOk(Perform(s, t, p))
    requires forall w: nat :: NewIsNew(s, p, w)
    ensures TablesOk(Perform(s, t, p))
  {
    var r := Perform(s, t, p);
    forall d: nat, i: nat | (d, i) in r.slots
      ensures i < SERVICES_MAX_COUNT && r.slots[(d, i)].svc in r.services
    {
      SlotServiceExists(r, d, i);
    }
    assert forall v: nat :: v in s.services ==> NewIsNew(s, p, v);
  }

  predicate NewIsNew(s: State, p: Plan, v: nat) {
    p.service.NewService? ==> !ServiceIs(s, v, p.service.u)
  }

  lemma PlanNewIsNew(s: State, a: Action, th: Thread, v: nat)
    requires EnabledAt(s, a, th)
    ensures NewIsNew(s, PlanOf(s, a, th), v)
  {
    if OpenEnabled(s, a, th) { OpenNewIsNew(s, a, th, v); }
  }

  lemma OpenNewIsNew(s: State, a: Action, th: Thread, v: nat)
    requires OpenEnabled(s, a, th)
    ensures NewIsNew(s, OpenPlan(s, a, th), v)
  {
    match a
    case OpenCreate(_, _) =>
    case OpenRef(_, _) | OpenRefFull(_, _) | OpenMiss(_) | OpenTake(_, _) | OpenNoMem(_) =>
    case OpenInsert(_, _) | OpenFull(_) | OpenAlloc(_) | OpenNoSession(_) | OpenList(_, _) | OpenFail(_) =>
  }

  // ----- locks

  /** A lock is taken when it is free and given back by its holder, and held exactly in between. */
  predicate LockPlanOk(lock: map<nat, nat>, op: LockOp, t: nat, heldBefore: bool, heldAfter: bool, k: nat) {
    (op == Lock(k) ==> k !in lock) &&
    (op == Release(k) ==> heldBefore) &&
    (heldAfter <==> op == Lock(k) || (heldBefore && op != Release(k)))
  }

  predicate LocksPlanned(s: State, t: nat, p: Plan, th: Thread, k: nat) {
    LockPlanOk(s.devLock, p.devLock, t, HoldsDevLock(th, k), HoldsDevLock(p.next, k), k) &&
    LockPlanOk(s.opLock, p.opLock, t, HoldsOpLock(th, k), HoldsOpLock(p.next, k), k) &&
    LockPlanOk(s.sesLock, p.sesLock, t, HoldsSesLock(th, k), HoldsSesLock(p.next, k), k)
  }

  lemma OpenPlansLocks(s: State, a: Action, th: Thread, k: nat)
    requires OpenEnabled(s, a, th)
    ensures LocksPlanned(s, a.t, OpenPlan(s, a, th), th, k)
  {
    if SeeksService(a) { LookupPlansLocks(s, a, th, k); } else { LaterOpenPlansLocks(s, a, th, k); }
  }

  lemma LookupPlansLocks(s: State, a: Action, th: Thread, k: nat)
    requires OpenEnabled(s, a, th) && SeeksService(a)
    ensures LocksPlanned(s, a.t, OpenPlan(s, a, th), th, k)
  {
    if a.OpenRef? || a.OpenRefFull? { RefPlansLocks(s, a, th, k); } else { MissPlansLocks(s, a, th, k); }
  }

  lemma RefPlansLocks(s: State, a: Action, th: Thread, k: nat)
    requires OpenEnabled(s, a, th) && (a.OpenRef? || a.OpenRefFull?)
    ensures LocksPlanned(s, a.t, OpenPlan(s, a, th), th, k)
  {
    hide DeviceKnows;
    hide ServiceIs;
    match a
    case OpenRef(_, _) | OpenRefFull(_, _) =>
  }

  lemma MissPlansLocks(s: State, a: Action, th: Thread, k: nat)
    requires OpenEnabled(s, a, th) && (a.OpenMiss? || a.OpenTake? || a.OpenCreate? || a.OpenNoMem?)
    ensures LocksPlanned(s, a.t, OpenPlan(s, a, th), th, k)
  {
    match a
    case OpenMiss(_) | OpenTake(_, _) | OpenCreate(_, _) | OpenNoMem(_) =>
  }

  lemma LaterOpenPlansLocks(s: State, a: Action, th: Thread, k: nat)
    requires OpenEnabled(s, a, th) && !SeeksService(a)
    ensures LocksPlanned(s, a.t, OpenPlan(s, a, th), th, k)
  {
    if a.OpenInsert? || a.OpenFull? { InsertPlansLocks(s, a, th, k); } else { ListPlansLocks(s, a, th, k); }
  }

  lemma InsertPlansLocks(s: State, a: Action, th: Thread, k: nat)
    requires OpenEnabled(s, a, th) && (a.OpenInsert? || a.OpenFull?)
    ensures LocksPlanned(s, a.t, OpenPlan(s, a, th), th, k)
  {
    match a
    case OpenInsert(_, _) | OpenFull(_) =>
  }

  lemma ListPlansLocks(s: State, a: Action, th: Thread, k: nat)
    requires OpenEnabled(s, a, th) && (a.OpenAlloc? || a.OpenNoSession? || a.OpenList? || a.OpenFail?)
    ensures LocksPlanned(s, a.t, OpenPlan(s, a, th), th, k)
  {
    match a
    case OpenAlloc(_) | OpenNoSession(_) | OpenList(_, _) | OpenFail(_) =>
  }

  lemma FindPlansLocks(s: State, a: Action, th: Thread, k: nat)
    requires FindEnabled(s, a, th)
    ensures LocksPlanned(s, a.t, FindPlan(s, a, th), th, k)
  {
    if a.GetByUuid? || a.NoService? { GetPlansLocks(s, a, th, k); } else { SearchPlansLocks(s, a, th, k); }
  }

  lemma GetPlansLocks(s: State, a: Action, th: Thread, k: nat)
    requires FindEnabled(s, a, th) && (a.GetByUuid? || a.NoService?)
    ensures LocksPlanned(s, a.t, FindPlan(s, a, th), th, k)
  {
    hide DeviceKnows;
    hide Matches;
    match a
    case GetByUuid(_, _) | NoService(_) =>
  }

  lemma SearchPlansLocks(s: State, a: Action, th: Thread, k: nat)
    requires FindEnabled(s, a, th) && (a.FindSession? || a.NoSession? || a.TakeOffList?)
    ensures LocksPlanned(s, a.t, FindPlan(s, a, th), th, k)
  {
    hide Matches;
    hide DeviceKnows;
    hide SlotHas;
    match a
    case FindSession(_, _) | NoSession(_) =>
    case TakeOffList(_) =>
  }

  lemma LockPlansLocks(s: State, a: Action, th: Thread, k: nat)
    requires LockEnabled(s, a, th)
    ensures LocksPlanned(s, a.t, LockPlan(s, a, th), th, k)
  {
    if a.LockSession? || a.UnlockSession? { CallPlansLocks(s, a, th, k); } else { OperationPlansLocks(s, a, th, k); }
  }

  lemma CallPlansLocks(s: State, a: Action, th: Thread, k: nat)
    requires LockEnabled(s, a, th) && (a.LockSession? || a.UnlockSession?)
    ensures LocksPlanned(s, a.t, LockPlan(s, a, th), th, k)
  {
    match a
    case LockSession(_) | UnlockSession(_) =>
  }

  lemma OperationPlansLocks(s: State, a: Action, th: Thread, k: nat)
    requires LockEnabled(s, a, th) && !a.LockSession? && !a.UnlockSession?
    ensures LocksPlanned(s, a.t, LockPlan(s, a, th), th, k)
  {
    match a
    case OpenLock(_) | CloseLock(_) | Unlock(_) =>
  }

  lemma DropPlansLocks(s: State, a: Action, th: Thread, k: nat)
    requires DropEnabled(s, a, th)
    ensures LocksPlanned(s, a.t, DropPlan(s, a, th), th, k)
  {
    if a.DropSession? {
      DropSessionLocks(s, a, th, k);
    } else if a.DropService? {
      DropServiceLocks(s, a, th, k);
    } else {
      DropRefLocks(s, a, th, k);
    }
  }

  lemma DropSessionLocks(s: State, a: Action, th: Thread, k: nat)
    requires DropEnabled(s, a, th) && a.DropSession?
    ensures LocksPlanned(s, a.t, DropPlan(s, a, th), th, k)
  {
  }

  lemma DropServiceLocks(s: State, a: Action, th: Thread, k: nat)
    requires DropEnabled(s, a, th) && a.DropService?
    ensures LocksPlanned(s, a.t, DropPlan(s, a, th), th, k)
  {
  }

  lemma DropRefLocks(s: State, a: Action, th: Thread, k: nat)
    requires DropEnabled(s, a, th) && (a.DropRef? || a.DropNothing?)
    ensures LocksPlanned(s, a.t, DropPlan(s, a, th), th, k)
  {
    var p := DropPlan(s, a, th);
    assert p.devLock == KeepLock && p.opLock == KeepLock && p.sesLock == KeepLock;
    assert p.next == th.(pc := if th.pc.OpenDrop? then Finished else CloseUnlock);
  }

  lemma SweepPlansLocks(s: State, a: Action, th: Thread, k: nat)
    requires SweepEnabled(s, a, th)
    ensures LocksPlanned(s, a.t, SweepPlan(s, a, th), th, k)
  {
    if a.SweepLock? || a.SweepNone? { SweepTakesLocks(s, a, th, k); } else { SweepKeepsLocks(s, a, th, k); }
  }

  lemma SweepTakesLocks(s: State, a: Action, th: Thread, k: nat)
    requires SweepEnabled(s, a, th) && (a.SweepLock? || a.SweepNone?)
    ensures LocksPlanned(s, a.t, SweepPlan(s, a, th), th, k)
  {
  }

  lemma SweepKeepsLocks(s: State, a: Action, th: Thread, k: nat)
    requires SweepEnabled(s, a, th) && !a.SweepLock? && !a.SweepNone?
    ensures LocksPlanned(s, a.t, SweepPlan(s, a, th), th, k)
  {
    if a.SweepTake? { SweepTakeLocks(s, a, th, k); } else { SweepSlotLocks(s, a, th, k); }
  }

  lemma SweepTakeLocks(s: State, a: Action, th: Thread, k: nat)
    requires SweepEnabled(s, a, th) && a.SweepTake?
    ensures LocksPlanned(s, a.t, SweepPlan(s, a, th), th, k)
  {
  }

  lemma SweepSlotLocks(s: State, a: Action, th: Thread, k: nat)
    requires SweepEnabled(s, a, th) && (a.SweepSkip? || a.SweepService? || a.SweepEnd?)
    ensures LocksPlanned(s, a.t, SweepPlan(s, a, th), th, k)
  {
  }

  lemma PlanLocks(s: State, a: Action, th: Thread, k: nat)
    requires EnabledAt(s, a, th)
    ensures LocksPlanned(s, a.t, PlanOf(s, a, th), th, k)
  {
    if OpenEnabled(s, a, th) { OpenPlansLocks(s, a, th, k); }
    else if FindEnabled(s, a, th) { FindPlansLocks(s, a, th, k); }
    else if LockEnabled(s, a, th) { LockPlansLocks(s, a, th, k); }
    else if DropEnabled(s, a, th) { DropPlansLocks(s, a, th, k); }
    else { SweepPlansLocks(s, a, th, k); }
  }

  lemma KeepsLocks(s: State, r: State, t: nat, p: Plan)
    requires LocksOk(s) && t in s.threads && r.threads == s.threads[t := p.next]
    requires r.devLock == DoLock(s.devLock, p.devLock, t) && r.opLock == DoLock(s.opLock, p.opLock, t)
    requires r.sesLock == DoLock(s.sesLock, p.sesLock, t)
    requires forall k: nat :: LocksPlanned(s, t, p, s.threads[t], k)
    ensures LocksOk(r)
  {
    forall q: nat | q in r.threads
      ensures InLookup(r.threads[q]) ==> r.threads[q].d in r.devLock && r.devLock[r.threads[q].d] == q
      ensures InOperation(r.threads[q]) ==> r.threads[q].v in r.opLock && r.opLock[r.threads[q].v] == q
      ensures InCall(r.threads[q]) ==> r.threads[q].x in r.sesLock && r.sesLock[r.threads[q].x] == q
    {
      var d, v, x := r.threads[q].d, r.threads[q].v, r.threads[q].x;
      assert LocksPlanned(s, t, p, s.threads[t], d);
      assert LocksPlanned(s, t, p, s.threads[t], v);
      assert LocksPlanned(s, t, p, s.threads[t], x);
      LockMoves(s.devLock, p.devLock, t, q, d);
      LockMoves(s.opLock, p.opLock, t, q, v);
      LockMoves(s.sesLock, p.sesLock, t, q, x);
      assert InLookup(s.threads[t]) ==> s.threads[t].d in s.devLock && s.devLock[s.threads[t].d] == t;
      assert InOperation(s.threads[t]) ==> s.threads[t].v in s.opLock && s.opLock[s.threads[t].v] == t;
      assert InCall(s.threads[t]) ==> s.threads[t].x in s.sesLock && s.sesLock[s.threads[t].x] == t;
    }
  }

  lemma LockMoves(lock: map<nat, nat>, op: LockOp, t: nat, q: nat, k: nat)
    requires op == Lock(k) ==> k !in lock
    ensures k in lock && op != Release(k) ==> k in DoLock(lock, op, t) && DoLock(lock, op, t)[k] == lock[k]
    ensures op == Lock(k) ==> k in DoLock(lock, op, t) && DoLock(lock, op, t)[k] == t
  {
  }

  // ----- close threads

  predicate StaysInKind(th: Thread, next: Thread) {
    next.d == th.d && next.u == th.u && next.id == th.id && (IsSweep(next) ==> IsSweep(th)) && (Busy(next) ==> Busy(th))
  }

  lemma PlanStaysInKind(s: State, a: Action, th: Thread)
    requires EnabledAt(s, a, th)
    ensures StaysInKind(th, PlanOf(s, a, th).next)
  {
    if OpenEnabled(s, a, th) { OpenStays(s, a, th); }
    else if FindEnabled(s, a, th) { FindStays(s, a, th); }
    else if LockEnabled(s, a, th) { LockStays(s, a, th); }
    else if DropEnabled(s, a, th) { DropStays(s, a, th); }
  }

  lemma OpenStays(s: State, a: Action, th: Thread)
    requires OpenEnabled(s, a, th)
    ensures StaysInKind(th, OpenPlan(s, a, th).next)
  {
    match a
    case OpenRef(_, _) | OpenRefFull(_, _) | OpenMiss(_) | OpenTake(_, _) | OpenCreate(_, _) | OpenNoMem(_) =>
    case OpenInsert(_, _) | OpenFull(_) | OpenAlloc(_) | OpenNoSession(_) | OpenList(_, _) | OpenFail(_) =>
  }

  lemma FindStays(s: State, a: Action, th: Thread)
    requires FindEnabled(s, a, th)
    ensures StaysInKind(th, FindPlan(s, a, th).next)
  {
    match a
    case GetByUuid(_, _) | NoService(_) | FindSession(_, _) | NoSession(_) | TakeOffList(_) =>
  }

  lemma LockStays(s: State, a: Action, th: Thread)
    requires LockEnabled(s, a, th)
    ensures StaysInKind(th, LockPlan(s, a, th).next)
  {
    match a
    case OpenLock(_) | CloseLock(_) | LockSession(_) | UnlockSession(_) | Unlock(_) =>
  }

  lemma DropStays(s: State, a: Action, th: Thread)
    requires DropEnabled(s, a, th)
    ensures StaysInKind(th, DropPlan(s, a, th).next)
  {
    match a
    case DropRef(_, _) | DropNothing(_) | DropService(_) | DropSession(_) =>
  }

  lemma KeepsClosing(s: State, r: State, t: nat, next: Thread)
    requires ClosingOk(s) && t in s.threads && r.threads == s.threads[t := next] && r.closing == s.closing
    requires StaysInKind(s.threads[t], next)
    ensures ClosingOk(r)
  {
  }

  // ----- closes that won

  /** A step lists no session again, and a close that takes one off finds it listed. */
  predicate WinPlanOk(s: State, p: Plan, th: Thread) {
    (p.session.SetSession? ==> p.session.x in s.sessions && (p.session.e.listed ==> s.sessions[p.session.x].listed)) &&
    (p.session.NewSession? ==> p.session.x == s.nextSession) &&
    (p.next.won != th.won ==>
      th.x < s.nextSession && p.next.won == Some(th.x) && ListedIn(s.sessions, th.x) == 1 &&
      p.session.SetSession? && p.session.x == th.x && !p.session.e.listed)
  }

  lemma PlanWins(s: State, a: Action, th: Thread)
    requires EnabledAt(s, a, th) && RefReady(s, a, th) && NumbersOk(s)
    ensures WinPlanOk(s, PlanOf(s, a, th), th)
  {
    if OpenEnabled(s, a, th) { OpenWins(s, a, th); }
    else if FindEnabled(s, a, th) { FindWins(s, a, th); }
    else if LockEnabled(s, a, th) { LockWins(s, a, th); }
    else if DropEnabled(s, a, th) { DropWins(s, a, th); }
    else { SweepWins(s, a, th); }
  }

  lemma OpenWins(s: State, a: Action, th: Thread)
    requires OpenEnabled(s, a, th)
    ensures WinPlanOk(s, OpenPlan(s, a, th), th)
  {
    match a
    case OpenRef(_, _) | OpenRefFull(_, _) | OpenMiss(_) | OpenTake(_, _) | OpenCreate(_, _) | OpenNoMem(_) =>
    case OpenInsert(_, _) | OpenFull(_) | OpenAlloc(_) | OpenNoSession(_) | OpenList(_, _) | OpenFail(_) =>
  }

  lemma FindWins(s: State, a: Action, th: Thread)
    requires FindEnabled(s, a, th) && RefReady(s, a, th) && NumbersOk(s)
    ensures WinPlanOk(s, FindPlan(s, a, th), th)
  {
    match a
    case GetByUuid(_, _) | NoService(_) | FindSession(_, _) | NoSession(_) | TakeOffList(_) =>
  }

  lemma LockWins(s: State, a: Action, th: Thread)
    requires LockEnabled(s, a, th) && RefReady(s, a, th) && NumbersOk(s)
    ensures WinPlanOk(s, LockPlan(s, a, th), th)
  {
    match a
    case OpenLock(_) | CloseLock(_) | LockSession(_) | UnlockSession(_) | Unlock(_) =>
  }

  lemma DropWins(s: State, a: Action, th: Thread)
    requires DropEnabled(s, a, th)
    ensures WinPlanOk(s, DropPlan(s, a, th), th)
  {
    match a
    case DropRef(_, _) | DropNothing(_) | DropService(_) | DropSession(_) =>
  }

  lemma SweepWins(s: State, a: Action, th: Thread)
    requires SweepEnabled(s, a, th)
    ensures WinPlanOk(s, SweepPlan(s, a, th), th)
  {
    match a
    case SweepSkip(_) | SweepLock(_) | SweepTake(_, _) | SweepNone(_) | SweepService(_) | SweepEnd(_) =>
  }

  lemma PerformKeepsWins(s: State, t: nat, p: Plan)
    requires WinsOk(s) && NumbersOk(s) && t in s.threads && Defined(s, p) && WinPlanOk(s, p, s.threads[t])
    ensures WinsOk(Perform(s, t, p))
  {
    var r := Perform(s, t, p);
    forall x: nat
      ensures x < s.nextSession && Listed(s, x) == 0 ==> Listed(r, x) == 0
    {
    }
    forall q: nat | q in r.threads && r.threads[q].won.Some?
      ensures r.threads[q].won.value < r.nextSession && Listed(r, r.threads[q].won.value) == 0
    {
    }
  }
}
