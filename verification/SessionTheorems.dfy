/**
  What the session manager guarantees in every interleaving of its threads.
 */
module SessionTheorems {
  import opened Counting
  import opened Sessions
  import opened SessionInvariants
  import opened SessionCounts
  import opened SessionPlaces
  import opened SessionRuns

  /**
    In every state of every run: a service is on the global list exactly while somebody uses it, its usage is the
    number of device slots and of threads holding it, and a uuid has one service globally and one slot per device.
   */
  lemma ServiceUsageIsExact(ss: seq<State>, acts: seq<Action>, k: nat, v: nat)
    requires Run(ss, acts) && k < |ss|
    ensures v in ss[k].services <==> Count(ss[k].slots, SlotOf(v)) + Count(ss[k].threads, ServiceHolder(v)) > 0
    ensures v in ss[k].services ==>
      ss[k].services[v].usage == Count(ss[k].slots, SlotOf(v)) + Count(ss[k].threads, ServiceHolder(v))
    ensures forall w: nat ::
      v in ss[k].services && w in ss[k].services && ss[k].services[v].uuid == ss[k].services[w].uuid ==> v == w
    ensures forall d: nat, i: nat, j: nat ::
      SlotHolds(ss[k], d, i, v) && SlotHolds(ss[k], d, j, v) ==> i == j
  {
    RunKeepsInv(ss, acts, k);
    assert Usage(ss[k], v) == Count(ss[k].slots, SlotOf(v)) + Count(ss[k].threads, ServiceHolder(v));
  }

  /**
    On every device not being closed, `service_ref` is the number of the device's listed sessions of the service plus
    its opens and closes under way, and fits its byte; what a device counts for a service, it has a slot for.
   */
  lemma ServiceRefIsExact(ss: seq<State>, acts: seq<Action>, k: nat, d: nat, i: nat)
    requires Run(ss, acts) && k < |ss| && (d, i) in ss[k].slots && d !in ss[k].closing
    ensures var slot := ss[k].slots[(d, i)];
      slot.ref == Count(ss[k].sessions, ListedFor(d, slot.svc)) + Count(ss[k].threads, RefHolder(d, slot.svc)) &&
      1 <= slot.ref <= MAX_REF_COUNT && slot.svc in ss[k].services
  {
    RunKeepsInv(ss, acts, k);
  }

  /**
    A thread that is to put or use a service or a session finds it allocated, and del_service_from_dev finds its slot
    counted.
   */
  lemma NoThreadIsLeftDangling(ss: seq<State>, acts: seq<Action>, k: nat, t: nat)
    requires Run(ss, acts) && k < |ss| && t in ss[k].threads
    ensures var s := ss[k]; var th := s.threads[t];
      (forall v: nat :: HoldsService(th, v) || HoldsOpLock(th, v) ==> v in s.services) &&
      (forall x: nat :: HoldsSession(th, x) ==> x in s.sessions && x !in s.freed) &&
      (forall d: nat, v: nat :: HoldsRef(th, d, v) ==> HasSlot(s, d, v) && v in s.services && d !in s.closing) &&
      (HasListedSession(th) ==> Matches(s, th.x, th.v, th.d))
  {
    RunKeepsInv(ss, acts, k);
    var s := ss[k];
    var th := s.threads[t];
    assert PlaceOk(s, th);
    if HoldsSession(th, th.x) {
      HeldSessionExists(s, t, th.x);
    }
    if HoldsService(th, th.v) { HeldServiceExists(s, t, th.v); }
    if HoldsRef(th, th.d, th.v) { HeldRefIsSound(s, t); }
    if HoldsOpLock(th, th.v) { LockedServiceExists(s, t); }
  }

  lemma HeldRefIsSound(s: State, t: nat)
    requires Inv(s) && t in s.threads && HoldsRef(s.threads[t], s.threads[t].d, s.threads[t].v)
    ensures var th := s.threads[t]; HasSlot(s, th.d, th.v) && th.v in s.services && th.d !in s.closing
  {
    var th := s.threads[t];
    RefHolderHasSlot(s, t, th.d, th.v);
    RefHolderIsBusy(th, th.d, th.v);
    var i: nat :| (th.d, i) in s.slots && s.slots[(th.d, i)].svc == th.v;
    SlotServiceExists(s, th.d, i);
  }

  /** The service whose operation_lock is held exists. */
  lemma LockedServiceExists(s: State, t: nat)
    requires Inv(s) && t in s.threads && HoldsOpLock(s.threads[t], s.threads[t].v)
    ensures s.threads[t].v in s.services
  {
    var th := s.threads[t];
    assert PlaceOk(s, th);
    if HoldsService(th, th.v) {
      HeldServiceExists(s, t, th.v);
    } else if th.pc.OpenLocked? {
      HeldRefIsSound(s, t);
    } else if th.pc.OpenUnlock? {
      ListedHasSlot(s, th.x);
      var i: nat :| (th.d, i) in s.slots && s.slots[(th.d, i)].svc == th.v;
      SlotServiceExists(s, th.d, i);
    } else {
      SlotServiceExists(s, th.d, th.i);
    }
  }

  /**
    A session is freed exactly once: every session ever opened is either still there or freed, never both, and a
    step that frees one frees a session that was off its list and in use by nobody but the thread that frees it.
   */
  lemma SessionsAreFreedOnce(ss: seq<State>, acts: seq<Action>, k: nat, x: nat)
    requires Run(ss, acts) && k < |acts|
    ensures x < ss[k].nextSession <==> x in ss[k].sessions || x in ss[k].freed
    ensures !(x in ss[k].sessions && x in ss[k].freed)
    ensures x in ss[k].freed ==> x in ss[k + 1].freed
    ensures x in ss[k + 1].freed && x !in ss[k].freed ==>
      acts[k].DropSession? && x in ss[k].sessions && !ss[k].sessions[x].listed &&
      forall t: nat :: t in ss[k].threads && HoldsSession(ss[k].threads[t], x) ==> t == acts[k].t
  {
    RunKeepsInv(ss, acts, k);
    var s, a := ss[k], acts[k];
    if !a.Begin? && !a.SweepStart? {
      FreeingStep(s, a, s.threads[a.t]);
      if x in ss[k + 1].freed && x !in s.freed {
        OnlyHolder(s, a.t, x);
      }
    }
  }

  /** If the step frees a session, it puts the last usage of the session the thread holds. */
  predicate FreesLast(s: State, a: Action, th: Thread, op: SessionOp) {
    op.FreeSession? ==>
      a.DropSession? && op.x == th.x && HoldsSession(th, th.x) && th.x in s.sessions && s.sessions[th.x].usage == 1
  }

  lemma FreeingStep(s: State, a: Action, th: Thread)
    requires EnabledAt(s, a, th)
    ensures FreesLast(s, a, th, PlanOf(s, a, th).session)
  {
    if OpenEnabled(s, a, th) { OpenFrees(s, a, th); }
    else if FindEnabled(s, a, th) { FindFrees(s, a, th); }
    else if LockEnabled(s, a, th) { LockFrees(s, a, th); }
    else if DropEnabled(s, a, th) { DropFrees(s, a, th); }
    else { SweepFrees(s, a, th); }
  }

  lemma OpenFrees(s: State, a: Action, th: Thread)
    requires OpenEnabled(s, a, th)
    ensures FreesLast(s, a, th, OpenPlan(s, a, th).session)
  {
    match a
    case OpenMiss(_) | OpenTake(_, _) | OpenCreate(_, _) | OpenRef(_, _) | OpenRefFull(_, _) | OpenNoMem(_) =>
    case OpenInsert(_, _) | OpenFull(_) | OpenAlloc(_) | OpenNoSession(_) | OpenList(_, _) | OpenFail(_) =>
  }

  lemma FindFrees(s: State, a: Action, th: Thread)
    requires FindEnabled(s, a, th)
    ensures FreesLast(s, a, th, FindPlan(s, a, th).session)
  {
    match a
    case GetByUuid(_, _) | NoService(_) | FindSession(_, _) | NoSession(_) | TakeOffList(_) =>
  }

  lemma LockFrees(s: State, a: Action, th: Thread)
    requires LockEnabled(s, a, th)
    ensures FreesLast(s, a, th, LockPlan(s, a, th).session)
  {
    match a
    case OpenLock(_) | CloseLock(_) | LockSession(_) | UnlockSession(_) | Unlock(_) =>
  }

  lemma DropFrees(s: State, a: Action, th: Thread)
    requires DropEnabled(s, a, th)
    ensures FreesLast(s, a, th, DropPlan(s, a, th).session)
  {
    match a
    case DropRef(_, _) | DropNothing(_) | DropService(_) | DropSession(_) =>
  }

  lemma SweepFrees(s: State, a: Action, th: Thread)
    requires SweepEnabled(s, a, th)
    ensures FreesLast(s, a, th, SweepPlan(s, a, th).session)
  {
    match a
    case SweepSkip(_) | SweepLock(_) | SweepTake(_, _) | SweepNone(_) | SweepService(_) | SweepEnd(_) =>
  }

  lemma OnlyHolder(s: State, t: nat, x: nat)
    requires SessionsOk(s) && t in s.threads && HoldsSession(s.threads[t], x) && x in s.sessions
    requires s.sessions[x].usage == 1
    ensures !s.sessions[x].listed && forall q: nat :: q in s.threads && HoldsSession(s.threads[q], x) ==> q == t
  {
    assert SessionUsage(s, x) == HeldUsage(s, x);
    CountPositive(s.threads, t, SessionHolder(x));
    forall q: nat | q in s.threads && HoldsSession(s.threads[q], x)
      ensures q == t
    {
      if q != t {
        CountRemove(s.threads, t, SessionHolder(x));
        CountPositive(s.threads - {t}, q, SessionHolder(x));
      }
    }
  }

  /** Of all the closes of one session, at most one takes it off its list and succeeds. */
  lemma OneCloseWins(ss: seq<State>, acts: seq<Action>, k: nat, t: nat, q: nat)
    requires Run(ss, acts) && k < |ss| && t in ss[k].threads && q in ss[k].threads
    requires ss[k].threads[t].won.Some? && ss[k].threads[t].won == ss[k].threads[q].won
    ensures t == q
    ensures var x := ss[k].threads[t].won.value; x in ss[k].sessions ==> !ss[k].sessions[x].listed
  {
    RunKeepsInv(ss, acts, k);
    assert Listed(ss[k], ss[k].threads[t].won.value) == 0;
  }

  // ----- device close

  /** When its close thread is done, a device has no slot and no listed session left. */
  lemma DeviceCloseIsComplete(ss: seq<State>, acts: seq<Action>, k: nat, t: nat)
    requires Run(ss, acts) && k < |ss| && t in ss[k].threads && ss[k].threads[t].pc.SweepDone?
    ensures forall i: nat :: (ss[k].threads[t].d, i) !in ss[k].slots
    ensures forall x: nat ::
      x in ss[k].sessions && ss[k].sessions[x].listed ==> ss[k].sessions[x].owner != ss[k].threads[t].d
  {
    RunKeepsInv(ss, acts, k);
    var s := ss[k];
    assert PlaceOk(s, s.threads[t]);
    forall x: nat | x in s.sessions && s.sessions[x].listed
      ensures s.sessions[x].owner != s.threads[t].d
    {
      ListedHasSlot(s, x);
    }
  }

  /**
    A close thread leaves the slots and the listed sessions of every other device alone, and changes service usage
    only by giving up one usage for each slot it clears.
   */
  lemma DeviceCloseTouchesOwnDevice(ss: seq<State>, acts: seq<Action>, k: nat, r: State, d: nat)
    requires Run(ss, acts) && k < |acts| && acts[k].t in ss[k].threads && IsSweep(ss[k].threads[acts[k].t])
    requires r == ss[k + 1] && d != ss[k].threads[acts[k].t].d
    ensures forall i: nat :: SameSlots(ss[k], r, d, i)
    ensures forall x: nat, v: nat :: Matches(r, x, v, d) <==> Matches(ss[k], x, v, d)
    ensures forall v: nat :: Usage(r, v) - Usage(ss[k], v) == Count(r.slots, SlotOf(v)) - Count(ss[k].slots, SlotOf(v))
  {
    hide SessionsOk;
    hide NumbersOk;
    hide RefsOk;
    hide TablesOk;
    hide LocksOk;
    hide ClosingOk;
    hide WinsOk;
    hide EnabledAt;
    hide PlanOf;
    hide Perform;
    hide SameSlots;
    hide Matches;
    RunKeepsInv(ss, acts, k);
    RunKeepsInv(ss, acts, k + 1);
    SweepStepIsLocal(ss[k], acts[k], d);
    var p := PlanOf(ss[k], acts[k], ss[k].threads[acts[k].t]);
    SweepStaysSweep(ss[k], acts[k], ss[k].threads[acts[k].t]);
    forall v: nat
      ensures Usage(r, v) - Usage(ss[k], v) == Count(r.slots, SlotOf(v)) - Count(ss[k].slots, SlotOf(v))
    {
      SweepMoveUsage(ss[k], acts[k].t, p, v);
    }
  }

  lemma SweepStepIsLocal(s: State, a: Action, d: nat)
    requires Inv(s) && a.t in s.threads && EnabledAt(s, a, s.threads[a.t]) && IsSweep(s.threads[a.t])
    requires d != s.threads[a.t].d
    ensures Defined(s, PlanOf(s, a, s.threads[a.t]))
    ensures var r := Perform(s, a.t, PlanOf(s, a, s.threads[a.t]));
      (forall i: nat :: SameSlots(s, r, d, i)) &&
      (forall x: nat, v: nat :: Matches(r, x, v, d) <==> Matches(s, x, v, d))
  {
    var th := s.threads[a.t];
    StepIsReady(s, a);
    PlanIsDefined(s, a, th);
    PlanSlotGuarded(s, a, th);
    PlanListGuarded(s, a, th);
    ForeignDevice(s, a.t, PlanOf(s, a, th), d);
  }

  lemma SweepMoveUsage(s: State, t: nat, p: Plan, v: nat)
    requires UsageOk(s) && t in s.threads && Defined(s, p) && UsageOk(Perform(s, t, p))
    requires IsSweep(s.threads[t]) && IsSweep(p.next)
    ensures var r := Perform(s, t, p);
      Usage(r, v) - Usage(s, v) == Count(r.slots, SlotOf(v)) - Count(s.slots, SlotOf(v))
  {
    SweepHoldsNoService(s.threads[t], v);
    SweepHoldsNoService(p.next, v);
    ThreadMoves(s.threads, t, p.next, ServiceHolder(v));
    assert Usage(s, v) == Count(s.slots, SlotOf(v)) + Count(s.threads, ServiceHolder(v));
    var r := Perform(s, t, p);
    assert Usage(r, v) == Count(r.slots, SlotOf(v)) + Count(r.threads, ServiceHolder(v));
  }

  lemma SweepHoldsNoService(th: Thread, v: nat)
    requires IsSweep(th)
    ensures !ServiceHolder(v)(th)
  {
  }

  lemma SweepStaysSweep(s: State, a: Action, th: Thread)
    requires EnabledAt(s, a, th) && IsSweep(th)
    ensures IsSweep(PlanOf(s, a, th).next)
  {
    SweepActions(s, a, th);
    if DropEnabled(s, a, th) { DropKeepsSweep(s, a, th); } else { SweepKeepsSweep(s, a, th); }
  }

  lemma DropKeepsSweep(s: State, a: Action, th: Thread)
    requires DropEnabled(s, a, th) && IsSweep(th)
    ensures IsSweep(DropPlan(s, a, th).next)
  {
  }

  lemma SweepKeepsSweep(s: State, a: Action, th: Thread)
    requires SweepEnabled(s, a, th)
    ensures IsSweep(SweepPlan(s, a, th).next)
  {
    match a
    case SweepSkip(_) | SweepLock(_) | SweepTake(_, _) | SweepNone(_) | SweepService(_) | SweepEnd(_) =>
  }
}
