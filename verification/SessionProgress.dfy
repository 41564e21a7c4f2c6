/**
  The close thread of a device ends after a bounded number of its own steps, and so does every call.
 */
module SessionProgress {
  import opened Counting
  import opened Sessions
  import opened SessionInvariants
  import opened SessionCounts
  import opened SessionRefs
  import opened SessionTables
  import opened SessionPlaces
  import opened SessionRuns
  import opened SessionTheorems
  import opened SessionLocks

  // ----- the close thread of a device

  /**
    Before it is done, a close thread has a step to take or waits for the operation_lock of its slot's service, which
    another thread holds.
   */
  lemma CloseMovesOrWaits(ss: seq<State>, acts: seq<Action>, k: nat, t: nat)
    requires Run(ss, acts) && k < |ss| && t in ss[k].threads && IsSweep(ss[k].threads[t])
    requires !ss[k].threads[t].pc.SweepDone?
    ensures CanMove(ss[k], t) || exists q: nat :: WaitsForOperation(ss[k], t, q)
  {
    hide Enabled;
    hide Apply;
    hide RefsOk;
    hide TablesOk;
    hide LocksOk;
    hide ClosingOk;
    hide WinsOk;
    hide CanMove;
    hide HoldersOk;
    hide WaitsForOperation;
    RunKeepsInv(ss, acts, k);
    RunKeepsHolders(ss, acts, k);
    assert PlaceOk(ss[k], ss[k].threads[t]);
    match ss[k].threads[t].pc
    case SweepSlot => SweepSlotMoves(ss[k], t);
    case SweepPutSvc => SweepServiceMoves(ss[k], t);
    case SweepList => SweepListMoves(ss[k], t);
    case SweepPut1 | SweepPut2 => SessionMoves(ss[k], t);
  }

  ghost function OwnedBy(d: nat): Session -> bool { (e: Session) => e.listed && e.owner == d }

  /** Slots still to visit, sessions still to close, and the work left on the current one. */
  ghost function SlotsLeft(th: Thread): int { SERVICES_MAX_COUNT - th.i }

  ghost function WorkLeft(th: Thread): nat {
    match th.pc
    case SweepSlot => 5
    case SweepPut1 => 4
    case SweepPut2 => 3
    case SweepList => 2
    case SweepPutSvc => 1
    case _ => 0
  }

  /** What a close thread still has to do: at most so many of its own steps. */
  ghost function Remaining(s: State, t: nat): int
    requires t in s.threads
  {
    var th := s.threads[t];
    5 * SlotsLeft(th) + 3 * Count(s.sessions, OwnedBy(th.d)) + WorkLeft(th)
  }

  /** Every step of a close thread brings it closer to its end. */
  lemma DeviceCloseProgresses(ss: seq<State>, acts: seq<Action>, k: nat)
    requires Run(ss, acts) && k < |acts| && acts[k].t in ss[k].threads && IsSweep(ss[k].threads[acts[k].t])
    ensures acts[k].t in ss[k + 1].threads && IsSweep(ss[k + 1].threads[acts[k].t])
    ensures Remaining(ss[k + 1], acts[k].t) < Remaining(ss[k], acts[k].t)
  {
    hide Enabled;
    hide Apply;
    hide Inv;
    hide Remaining;
    hide IsSweep;
    RunKeepsInv(ss, acts, k);
    OwnStepProgresses(ss[k], acts[k]);
  }

  lemma OwnStepProgresses(s: State, a: Action)
    requires Inv(s) && Enabled(s, a) && a.t in s.threads && IsSweep(s.threads[a.t])
    ensures a.t in Apply(s, a).threads && IsSweep(Apply(s, a).threads[a.t])
    ensures Remaining(Apply(s, a), a.t) < Remaining(s, a.t)
  {
    hide UsageOk;
    hide SessionsOk;
    hide NumbersOk;
    hide RefsOk;
    hide TablesOk;
    hide LocksOk;
    hide ClosingOk;
    hide WinsOk;
    hide EnabledAt;
    hide PlanOf;
    var th := s.threads[a.t];
    assert PlaceOk(s, th);
    StepIsReady(s, a);
    SweepStepShape(s, a, th);
    SweepStaysSweep(s, a, th);
    SweepCount(s, a, th, PlanOf(s, a, th).session);
  }

  /** How the sessions of the device move with a step of its close thread. */
  lemma SweepCount(s: State, a: Action, th: Thread, op: SessionOp)
    requires SessionShape(s, a, th, op)
    ensures var n, m := Count(s.sessions, OwnedBy(th.d)), Count(DoSession(s.sessions, op), OwnedBy(th.d));
      if a.SweepTake? then m + 1 == n else m == n
  {
    match op {
      case KeepSession =>
      case SetSession(x, e) => CountReplace(s.sessions, x, e, OwnedBy(th.d));
      case FreeSession(x) => CountRemove(s.sessions, x, OwnedBy(th.d));
    }
  }

  /** A step of any other thread leaves a close thread and the sessions it still has to close as they are. */
  lemma OthersLeaveClose(ss: seq<State>, acts: seq<Action>, k: nat, t: nat)
    requires Run(ss, acts) && k < |acts| && t in ss[k].threads && IsSweep(ss[k].threads[t]) && acts[k].t != t
    ensures t in ss[k + 1].threads && ss[k + 1].threads[t] == ss[k].threads[t]
    ensures Remaining(ss[k + 1], t) == Remaining(ss[k], t)
  {
    hide Enabled;
    hide Apply;
    hide Inv;
    hide Remaining;
    hide IsSweep;
    RunKeepsInv(ss, acts, k);
    OtherStepLeavesClose(ss[k], acts[k], t);
  }

  lemma OtherStepLeavesClose(s: State, a: Action, t: nat)
    requires Inv(s) && Enabled(s, a) && t in s.threads && IsSweep(s.threads[t]) && a.t != t
    ensures t in Apply(s, a).threads && Apply(s, a).threads[t] == s.threads[t]
    ensures Remaining(Apply(s, a), t) == Remaining(s, t)
  {
    hide UsageOk;
    hide SessionsOk;
    hide NumbersOk;
    hide RefsOk;
    hide TablesOk;
    hide LocksOk;
    hide EnabledAt;
    hide PlanOf;
    hide IsSweep;
    if !a.Begin? && !a.SweepStart? {
      ActsElsewhere(s, a, t);
      OtherStepIsLocal(s, a, s.threads[t].d);
    }
  }

  /** No other thread works on a device that is being closed. */
  lemma ActsElsewhere(s: State, a: Action, t: nat)
    requires ClosingOk(s) && t in s.threads && IsSweep(s.threads[t]) && a.t in s.threads && a.t != t
    requires EnabledAt(s, a, s.threads[a.t])
    ensures s.threads[a.t].d != s.threads[t].d
  {
    EnabledIsRunning(s, a, s.threads[a.t]);
  }

  lemma OtherStepIsLocal(s: State, a: Action, d: nat)
    requires Inv(s) && a.t in s.threads && EnabledAt(s, a, s.threads[a.t]) && d != s.threads[a.t].d
    ensures ServiceKnown(s, PlanOf(s, a, s.threads[a.t]).service)
    ensures var r := Perform(s, a.t, PlanOf(s, a, s.threads[a.t]));
      Count(r.sessions, OwnedBy(d)) == Count(s.sessions, OwnedBy(d))
  {
    hide UsageOk;
    hide SessionsOk;
    hide NumbersOk;
    hide RefsOk;
    hide TablesOk;
    hide LocksOk;
    hide ClosingOk;
    hide WinsOk;
    hide PlanOf;
    hide EnabledAt;
    hide Perform;
    var th := s.threads[a.t];
    StepIsReady(s, a);
    assert PlaceOk(s, th);
    SweepHasSlot(s, a, th);
    PlanIsDefined(s, a, th);
    PlanSlotGuarded(s, a, th);
    PlanListGuarded(s, a, th);
    ForeignDevice(s, a.t, PlanOf(s, a, th), d);
    SameOwned(s, Perform(s, a.t, PlanOf(s, a, th)), d);
  }

  lemma SameOwned(s: State, r: State, d: nat)
    requires forall x: nat, v: nat :: Matches(r, x, v, d) <==> Matches(s, x, v, d)
    ensures Count(r.sessions, OwnedBy(d)) == Count(s.sessions, OwnedBy(d))
  {
    forall x: nat
      ensures x in Where(r.sessions, OwnedBy(d)) <==> x in Where(s.sessions, OwnedBy(d))
    {
      if x in r.sessions { assert Matches(r, x, r.sessions[x].svc, d) <==> Matches(s, x, r.sessions[x].svc, d); }
      if x in s.sessions { assert Matches(r, x, s.sessions[x].svc, d) <==> Matches(s, x, s.sessions[x].svc, d); }
    }
    assert Where(r.sessions, OwnedBy(d)) == Where(s.sessions, OwnedBy(d));
  }

  /** The steps that thread `t` takes from state `k` to state `l`. */
  function OwnSteps(acts: seq<Action>, t: nat, k: nat, l: nat): nat
    requires k <= l <= |acts|
  {
    if l == k then 0 else OwnSteps(acts, t, k, l - 1) + (if acts[l - 1].t == t then 1 else 0)
  }

  lemma StepUsesUp(ss: seq<State>, acts: seq<Action>, m: nat, t: nat)
    requires Run(ss, acts) && m < |acts| && t in ss[m].threads && IsSweep(ss[m].threads[t])
    ensures t in ss[m + 1].threads && IsSweep(ss[m + 1].threads[t])
    ensures Remaining(ss[m + 1], t) + (if acts[m].t == t then 1 else 0) <= Remaining(ss[m], t)
  {
    hide Enabled;
    hide Apply;
    hide Remaining;
    hide IsSweep;
    if acts[m].t == t { DeviceCloseProgresses(ss, acts, m); } else { OthersLeaveClose(ss, acts, m, t); }
  }

  /** If thread `t` is a close thread in state `m`, it is one in the next. */
  predicate ClosesOn(ss: seq<State>, m: nat, t: nat) {
    m + 1 < |ss| && (IsClosing(ss[m], t) ==> IsClosing(ss[m + 1], t))
  }

  predicate IsClosing(s: State, t: nat) {
    t in s.threads && IsSweep(s.threads[t])
  }

  lemma {:induction false} ClosesAllAlong(ss: seq<State>, k: nat, l: nat, t: nat)
    requires k <= l < |ss| && IsClosing(ss[k], t) && forall m: nat :: k <= m < l ==> ClosesOn(ss, m, t)
    ensures IsClosing(ss[l], t)
    decreases l
  {
    if k < l {
      ClosesAllAlong(ss, k, l - 1, t);
      assert ClosesOn(ss, l - 1, t);
    }
  }

  lemma CloseStays(ss: seq<State>, acts: seq<Action>, k: nat, l: nat, t: nat)
    requires Run(ss, acts) && k <= l < |ss| && IsClosing(ss[k], t)
    ensures IsClosing(ss[l], t)
  {
    hide Enabled;
    hide Apply;
    hide IsSweep;
    forall m: nat | k <= m < l
      ensures ClosesOn(ss, m, t)
    {
      if IsClosing(ss[m], t) { StepUsesUp(ss, acts, m, t); }
    }
    ClosesAllAlong(ss, k, l, t);
  }

  ghost function RemainingAt(ss: seq<State>, t: nat): nat -> int {
    (m: nat) => if m < |ss| && t in ss[m].threads then Remaining(ss[m], t) else 0
  }

  /** Step `m` uses up at least one of what `left` counts if it is a step of thread `t`, and adds nothing otherwise. */
  predicate UsesUp(left: nat -> int, acts: seq<Action>, t: nat, m: nat)
    requires m < |acts|
  {
    left(m + 1) + (if acts[m].t == t then 1 else 0) <= left(m)
  }

  lemma {:induction false} StepsUseUp(left: nat -> int, acts: seq<Action>, t: nat, k: nat, l: nat)
    requires k <= l <= |acts| && forall m: nat :: k <= m < l ==> UsesUp(left, acts, t, m)
    ensures OwnSteps(acts, t, k, l) + left(l) <= left(k)
    decreases l
  {
    if k < l {
      StepsUseUp(left, acts, t, k, l - 1);
      assert UsesUp(left, acts, t, l - 1);
    }
  }

  /**
    What remains and what a close thread has done never exceed what there was, whatever other threads do in between.
   */
  lemma CloseUsesUp(ss: seq<State>, acts: seq<Action>, k: nat, l: nat, t: nat)
    requires Run(ss, acts) && k <= l < |ss| && t in ss[k].threads && IsSweep(ss[k].threads[t])
    ensures t in ss[l].threads && IsSweep(ss[l].threads[t])
    ensures OwnSteps(acts, t, k, l) + Remaining(ss[l], t) <= Remaining(ss[k], t)
  {
    hide Enabled;
    hide Apply;
    hide IsSweep;
    hide Remaining;
    CloseStays(ss, acts, k, l, t);
    var left := RemainingAt(ss, t);
    forall m: nat | k <= m < l
      ensures UsesUp(left, acts, t, m)
    {
      CloseStays(ss, acts, k, m, t);
      StepUsesUp(ss, acts, m, t);
    }
    StepsUseUp(left, acts, t, k, l);
  }

  lemma PlaceBounds(s: State, th: Thread)
    requires PlaceOk(s, th) && IsSweep(th)
    ensures 0 <= SlotsLeft(th) <= SERVICES_MAX_COUNT && WorkLeft(th) <= 5
  {
  }

  /**
    A close thread ends: in no run does it take more than 165 steps and 3 for each session of the device that is listed
    when the close begins.
   */
  lemma DeviceCloseEnds(ss: seq<State>, acts: seq<Action>, k: nat, l: nat, t: nat)
    requires Run(ss, acts) && k <= l < |ss| && t in ss[k].threads && IsSweep(ss[k].threads[t])
    ensures OwnSteps(acts, t, k, l) <= 165 + 3 * Count(ss[k].sessions, OwnedBy(ss[k].threads[t].d))
  {
    CloseUsesUp(ss, acts, k, l, t);
    RemainingBounds(ss, acts, k, t);
    RemainingBounds(ss, acts, l, t);
  }

  lemma RemainingBounds(ss: seq<State>, acts: seq<Action>, k: nat, t: nat)
    requires Run(ss, acts) && k < |ss| && t in ss[k].threads && IsSweep(ss[k].threads[t])
    ensures 0 <= Remaining(ss[k], t) <= 165 + 3 * Count(ss[k].sessions, OwnedBy(ss[k].threads[t].d))
  {
    hide Enabled;
    hide Apply;
    hide UsageOk;
    hide SessionsOk;
    hide NumbersOk;
    hide RefsOk;
    hide TablesOk;
    hide LocksOk;
    hide ClosingOk;
    hide WinsOk;
    RunKeepsInv(ss, acts, k);
    assert PlaceOk(ss[k], ss[k].threads[t]);
    PlaceBounds(ss[k], ss[k].threads[t]);
  }

  /** The steps of a close thread, as far as its progress is concerned. */
  lemma SweepStepShape(s: State, a: Action, th: Thread)
    requires EnabledAt(s, a, th) && IsSweep(th) && RefReady(s, a, th) && PlaceOk(s, th)
    ensures SweepShape(s, a, th, PlanOf(s, a, th))
  {
    SweepActions(s, a, th);
    if DropEnabled(s, a, th) { DropSweepShape(s, a, th); } else { OwnSweepShape(s, a, th); }
  }

  /** A step takes one session of the device off its list, or moves none of them. */
  ghost predicate SessionShape(s: State, a: Action, th: Thread, op: SessionOp) {
    !op.NewSession? && (a.SweepTake? ==> op.SetSession?) &&
    (op.FreeSession? ==> op.x in s.sessions && !s.sessions[op.x].listed) &&
    (op.SetSession? ==>
      (op.x in s.sessions && op.e.owner == s.sessions[op.x].owner &&
       if a.SweepTake? then s.sessions[op.x].owner == th.d && s.sessions[op.x].listed && !op.e.listed
       else op.e.listed == s.sessions[op.x].listed))
  }

  ghost predicate SweepShape(s: State, a: Action, th: Thread, p: Plan) {
    p.next.d == th.d && SessionShape(s, a, th, p.session) &&
    5 * SlotsLeft(p.next) + WorkLeft(p.next) + (if a.SweepTake? then 0 else 3) <= 5 * SlotsLeft(th) + WorkLeft(th) + 2
  }

  lemma DropSweepShape(s: State, a: Action, th: Thread)
    requires DropEnabled(s, a, th) && IsSweep(th) && RefReady(s, a, th) && PlaceOk(s, th)
    ensures SweepShape(s, a, th, DropPlan(s, a, th))
  {
    match a
    case DropSession(_) =>
    case DropRef(_, _) | DropService(_) =>
  }

  lemma OwnSweepShape(s: State, a: Action, th: Thread)
    requires SweepEnabled(s, a, th) && PlaceOk(s, th)
    ensures SweepShape(s, a, th, SweepPlan(s, a, th))
  {
    match a
    case SweepSkip(_) | SweepLock(_) | SweepTake(_, _) | SweepNone(_) | SweepService(_) | SweepEnd(_) =>
  }

  // ----- calls

  /** At most so many steps of an open, a send or a close are left. */
  function CallLeft(th: Thread): nat {
    match th.pc
    case CloseStart => 11
    case CloseWait => 10
    case CloseFind => 9
    case CloseEnter => 8
    case CloseCall | OpenStart => 7
    case CloseUnlist | OpenLookup | SendStart => 6
    case ClosePut1 | OpenAdd | SendFind => 5
    case ClosePut2 | OpenReady | SendPut => 4
    case CloseDrop | OpenWait | SendWait => 3
    case CloseUnlock | OpenLocked | SendCall => 2
    case ClosePut | OpenPutBack | OpenUnlock | OpenDrop | SendPutNone | SendEnd => 1
    case _ => 0
  }

  predicate GoesOn(th: Thread, next: Thread) {
    !IsSweep(th) ==> !IsSweep(next) && CallLeft(next) < CallLeft(th)
  }

  lemma PlanGoesOn(s: State, a: Action, th: Thread)
    requires EnabledAt(s, a, th)
    ensures GoesOn(th, PlanOf(s, a, th).next)
  {
    if OpenEnabled(s, a, th) { OpenGoesOnBy(s, a, th); }
    else if FindEnabled(s, a, th) { FindGoesOn(s, a, th); }
    else if LockEnabled(s, a, th) { LockGoesOn(s, a, th); }
    else if DropEnabled(s, a, th) { DropGoesOn(s, a, th); }
    else { SweepIsSweep(s, a, th); }
  }

  lemma OpenGoesOnBy(s: State, a: Action, th: Thread)
    requires OpenEnabled(s, a, th)
    ensures GoesOn(th, OpenPlan(s, a, th).next)
  {
    match a
    case OpenRef(_, _) | OpenRefFull(_, _) | OpenMiss(_) | OpenTake(_, _) | OpenCreate(_, _) | OpenNoMem(_) =>
    case OpenInsert(_, _) | OpenFull(_) | OpenAlloc(_) | OpenNoSession(_) | OpenList(_, _) | OpenFail(_) =>
  }

  lemma FindGoesOn(s: State, a: Action, th: Thread)
    requires FindEnabled(s, a, th)
    ensures GoesOn(th, FindPlan(s, a, th).next)
  {
    match a
    case GetByUuid(_, _) | NoService(_) | FindSession(_, _) | NoSession(_) | TakeOffList(_) =>
  }

  lemma LockGoesOn(s: State, a: Action, th: Thread)
    requires LockEnabled(s, a, th)
    ensures GoesOn(th, LockPlan(s, a, th).next)
  {
    match a
    case OpenLock(_) | CloseLock(_) | LockSession(_) | UnlockSession(_) | Unlock(_) =>
  }

  lemma DropGoesOn(s: State, a: Action, th: Thread)
    requires DropEnabled(s, a, th)
    ensures GoesOn(th, DropPlan(s, a, th).next)
  {
    match a
    case DropRef(_, _) | DropNothing(_) =>
      assert DropPlan(s, a, th).next == th.(pc := if th.pc.OpenDrop? then Finished else CloseUnlock);
    case DropService(_) | DropSession(_) =>
  }

  lemma SweepIsSweep(s: State, a: Action, th: Thread)
    requires SweepEnabled(s, a, th)
    ensures IsSweep(th)
  {
  }

  ghost function CallLeftAt(ss: seq<State>, t: nat): nat -> int {
    (m: nat) => if m < |ss| && t in ss[m].threads then CallLeft(ss[m].threads[t]) else 0
  }

  predicate IsCall(s: State, t: nat) {
    t in s.threads && !IsSweep(s.threads[t])
  }

  lemma CallStep(s: State, a: Action, t: nat)
    requires Enabled(s, a) && IsCall(s, t)
    ensures IsCall(Apply(s, a), t)
    ensures CallLeft(Apply(s, a).threads[t]) + (if a.t == t then 1 else 0) <= CallLeft(s.threads[t])
  {
    hide EnabledAt;
    hide PlanOf;
    hide CallLeft;
    if !a.Begin? && !a.SweepStart? {
      PlanGoesOn(s, a, s.threads[a.t]);
    }
  }

  lemma {:induction false} StaysCall(ss: seq<State>, acts: seq<Action>, k: nat, l: nat, t: nat)
    requires Run(ss, acts) && k <= l < |ss| && IsCall(ss[k], t)
    ensures IsCall(ss[l], t)
    decreases l
  {
    hide Enabled;
    hide Apply;
    hide IsCall;
    if k < l {
      StaysCall(ss, acts, k, l - 1, t);
      CallStep(ss[l - 1], acts[l - 1], t);
    }
  }

  /** Every call ends: in no run does an open, a send or a close take more than 11 steps. */
  lemma CallsEnd(ss: seq<State>, acts: seq<Action>, k: nat, l: nat, t: nat)
    requires Run(ss, acts) && k <= l < |ss| && IsCall(ss[k], t)
    ensures OwnSteps(acts, t, k, l) <= CallLeft(ss[k].threads[t]) <= 11
  {
    hide Enabled;
    hide Apply;
    var left := CallLeftAt(ss, t);
    forall m: nat | k <= m < l
      ensures UsesUp(left, acts, t, m)
    {
      StaysCall(ss, acts, k, m, t);
      CallStep(ss[m], acts[m], t);
    }
    StepsUseUp(left, acts, t, k, l);
  }
}
