/**
  What a step does to the entry of a session: nobody but the one that takes it off its list writes more than its usage.
 */
module SessionEntries {
  import opened Sessions
  import opened SessionInvariants

  /** The step takes session `x` off its list. */
  predicate Unlists(s: State, a: Action, x: nat) {
    (a.TakeOffList? && a.t in s.threads && s.threads[a.t].x == x) || (a.SweepTake? && a.x == x)
  }

  /** A step writes only the usage of a session it does not take off its list. */
  predicate KeepsEntry(s: State, a: Action, op: SessionOp) {
    match op
    case KeepSession => true
    case SetSession(x, e) =>
      x in s.sessions && e == s.sessions[x].(usage := e.usage, listed := e.listed) &&
      (e.listed == s.sessions[x].listed || Unlists(s, a, x))
    case NewSession(x, e) => x == s.nextSession
    case FreeSession(x) => x in s.sessions && s.sessions[x].usage == 1
  }

  lemma PlanKeepsEntry(s: State, a: Action)
    requires a.t in s.threads && EnabledAt(s, a, s.threads[a.t])
    ensures KeepsEntry(s, a, PlanOf(s, a, s.threads[a.t]).session)
  {
    var th := s.threads[a.t];
    if OpenEnabled(s, a, th) { OpenKeepsEntry(s, a, th); }
    else if FindEnabled(s, a, th) { FindKeepsEntry(s, a); }
    else if LockEnabled(s, a, th) { LockKeepsEntry(s, a); }
    else if DropEnabled(s, a, th) { DropKeepsEntry(s, a, th); }
    else { SweepKeepsEntry(s, a, th); }
  }

  lemma OpenKeepsEntry(s: State, a: Action, th: Thread)
    requires OpenEnabled(s, a, th)
    ensures KeepsEntry(s, a, OpenPlan(s, a, th).session)
  {
    match a
    case OpenMiss(_) | OpenTake(_, _) | OpenCreate(_, _) | OpenRef(_, _) | OpenRefFull(_, _) | OpenNoMem(_) =>
    case OpenInsert(_, _) | OpenFull(_) | OpenAlloc(_) | OpenNoSession(_) | OpenList(_, _) | OpenFail(_) =>
  }

  lemma FindKeepsEntry(s: State, a: Action)
    requires a.t in s.threads && FindEnabled(s, a, s.threads[a.t])
    ensures KeepsEntry(s, a, FindPlan(s, a, s.threads[a.t]).session)
  {
    match a
    case GetByUuid(_, _) | NoService(_) | FindSession(_, _) | NoSession(_) | TakeOffList(_) =>
  }

  lemma LockKeepsEntry(s: State, a: Action)
    requires a.t in s.threads && LockEnabled(s, a, s.threads[a.t])
    ensures KeepsEntry(s, a, LockPlan(s, a, s.threads[a.t]).session)
  {
    match a
    case OpenLock(_) | CloseLock(_) | LockSession(_) | UnlockSession(_) | Unlock(_) =>
  }

  lemma DropKeepsEntry(s: State, a: Action, th: Thread)
    requires DropEnabled(s, a, th)
    ensures KeepsEntry(s, a, DropPlan(s, a, th).session)
  {
    match a
    case DropRef(_, _) | DropNothing(_) | DropService(_) | DropSession(_) =>
  }

  lemma SweepKeepsEntry(s: State, a: Action, th: Thread)
    requires SweepEnabled(s, a, th)
    ensures KeepsEntry(s, a, SweepPlan(s, a, th).session)
  {
    match a
    case SweepSkip(_) | SweepLock(_) | SweepTake(_, _) | SweepNone(_) | SweepService(_) | SweepEnd(_) =>
  }

  lemma ListedServiceExists(s: State, x: nat)
    requires Inv(s) && x in s.sessions && s.sessions[x].listed
    ensures exists i: nat :: SlotHolds(s, s.sessions[x].owner, i, s.sessions[x].svc) && i < SERVICES_MAX_COUNT
    ensures s.sessions[x].svc in s.services
  {
    ListedHasSlot(s, x);
    var d, v := s.sessions[x].owner, s.sessions[x].svc;
    var i: nat :| (d, i) in s.slots && s.slots[(d, i)].svc == v;
    assert SlotHolds(s, d, i, v);
  }

  lemma InvNumbers(s: State)
    requires Inv(s)
    ensures NumbersOk(s)
  {
  }
}
