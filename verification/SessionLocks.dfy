/**
  The locks of the session manager: who holds them, who waits for them, and why the waiting ends. A thread that has
  come to a lock waits for its holder; the holder of a service_lock or of a ta_session_lock can always go on, the
  holder of an operation_lock can go on or waits for one of those.
 */
module SessionLocks {
  import opened Sessions
  import opened SessionInvariants
  import opened SessionTables
  import opened SessionRuns
  import opened SessionTheorems

  // ----- who holds a lock

  /** A lock that is taken is held by a thread at a point where it holds it. */
  ghost predicate HoldersOk(s: State) {
    (forall k: nat :: k in s.devLock ==> s.devLock[k] in s.threads && HoldsDevLock(s.threads[s.devLock[k]], k)) &&
    (forall k: nat :: k in s.opLock ==> s.opLock[k] in s.threads && HoldsOpLock(s.threads[s.opLock[k]], k)) &&
    (forall k: nat :: k in s.sesLock ==> s.sesLock[k] in s.threads && HoldsSesLock(s.threads[s.sesLock[k]], k))
  }

  lemma KeepsHolders(s: State, r: State, t: nat, p: Plan)
    requires HoldersOk(s) && LocksOk(s) && t in s.threads && r.threads == s.threads[t := p.next]
    requires r.devLock == DoLock(s.devLock, p.devLock, t) && r.opLock == DoLock(s.opLock, p.opLock, t)
    requires r.sesLock == DoLock(s.sesLock, p.sesLock, t)
    requires forall k: nat :: LocksPlanned(s, t, p, s.threads[t], k)
    ensures HoldersOk(r)
  {
    forall k: nat | k in r.devLock
      ensures r.devLock[k] in r.threads && HoldsDevLock(r.threads[r.devLock[k]], k)
    {
      assert LocksPlanned(s, t, p, s.threads[t], k);
    }
    forall k: nat | k in r.opLock
      ensures r.opLock[k] in r.threads && HoldsOpLock(r.threads[r.opLock[k]], k)
    {
      assert LocksPlanned(s, t, p, s.threads[t], k);
    }
    forall k: nat | k in r.sesLock
      ensures r.sesLock[k] in r.threads && HoldsSesLock(r.threads[r.sesLock[k]], k)
    {
      assert LocksPlanned(s, t, p, s.threads[t], k);
    }
  }

  lemma StepKeepsHolders(s: State, a: Action)
    requires Inv(s) && HoldersOk(s) && Enabled(s, a)
    ensures HoldersOk(Apply(s, a))
  {
    if !a.Begin? && !a.SweepStart? {
      var th := s.threads[a.t];
      forall k: nat
        ensures LocksPlanned(s, a.t, PlanOf(s, a, th), th, k)
      {
        PlanLocks(s, a, th, k);
      }
      KeepsHolders(s, Apply(s, a), a.t, PlanOf(s, a, th));
    }
  }

  lemma {:induction false} RunKeepsHolders(ss: seq<State>, acts: seq<Action>, k: nat)
    requires Run(ss, acts) && k < |ss|
    ensures HoldersOk(ss[k])
  {
    hide Enabled;
    hide Apply;
    hide Inv;
    if k > 0 {
      RunKeepsHolders(ss, acts, k - 1);
      RunKeepsInv(ss, acts, k - 1);
      StepKeepsHolders(ss[k - 1], acts[k - 1]);
    }
  }

  /** At most one call into the secure world is under way for a session at any time. */
  lemma CallsAreSerial(ss: seq<State>, acts: seq<Action>, k: nat, t: nat, q: nat)
    requires Run(ss, acts) && k < |ss| && t in ss[k].threads && q in ss[k].threads
    requires InCall(ss[k].threads[t]) && InCall(ss[k].threads[q]) && ss[k].threads[t].x == ss[k].threads[q].x
    ensures t == q
    ensures var x := ss[k].threads[t].x; x in ss[k].sessions && x !in ss[k].freed
  {
    RunKeepsInv(ss, acts, k);
    HeldSessionExists(ss[k], t, ss[k].threads[t].x);
  }

  // ----- what a thread can do, and what it waits for

  /** The thread is there and has a step to take. */
  ghost predicate CanMove(s: State, t: nat) {
    t in s.threads && exists a: Action :: a.t == t && Enabled(s, a)
  }

  predicate HasLock(lock: map<nat, nat>, k: nat, q: nat) {
    k in lock && lock[k] == q
  }

  /** `t` has come to the service_lock of its device, and `q` holds it. */
  predicate WaitsForDevice(s: State, t: nat, q: nat) {
    t in s.threads && q in s.threads && q != t && HasLock(s.devLock, s.threads[t].d, q) &&
    (s.threads[t].pc.OpenStart? || s.threads[t].pc.SendStart? || s.threads[t].pc.CloseStart? ||
     s.threads[t].pc.OpenDrop? || s.threads[t].pc.CloseDrop?)
  }

  /** `t` has come to the operation_lock of its service, or of a slot with sessions to close, and `q` holds it. */
  ghost predicate WaitsForOperation(s: State, t: nat, q: nat) {
    t in s.threads && q in s.threads && q != t &&
    var th := s.threads[t];
    ((th.pc.OpenWait? || th.pc.CloseWait?) && HasLock(s.opLock, th.v, q)) ||
    (th.pc.SweepSlot? && th.i < SERVICES_MAX_COUNT && (th.d, th.i) in s.slots &&
     HasLock(s.opLock, s.slots[(th.d, th.i)].svc, q) && exists x: nat :: OnList(s, x, s.slots[(th.d, th.i)].svc))
  }

  /** `t` has come to the ta_session_lock of its session, and `q` holds it. */
  predicate WaitsForSession(s: State, t: nat, q: nat) {
    t in s.threads && q in s.threads && q != t && HasLock(s.sesLock, s.threads[t].x, q) &&
    (s.threads[t].pc.SendWait? || s.threads[t].pc.CloseEnter?)
  }

  ghost predicate WaitsFor(s: State, t: nat, q: nat) {
    WaitsForDevice(s, t, q) || WaitsForOperation(s, t, q) || WaitsForSession(s, t, q)
  }

  lemma HasStep(s: State, a: Action)
    requires a.t in s.threads && !a.Begin? && !a.SweepStart? && EnabledAt(s, a, s.threads[a.t])
    ensures CanMove(s, a.t)
  {
  }

  // ----- a thread can move or waits

  lemma {:induction false} FirstFreeSlot(s: State, d: nat, n: nat) returns (i: nat)
    requires n <= SERVICES_MAX_COUNT
    ensures i <= n && (forall j: nat :: j < i ==> (d, j) in s.slots) && (i < n ==> (d, i) !in s.slots)
  {
    if n == 0 {
      i := 0;
    } else {
      i := FirstFreeSlot(s, d, n - 1);
      if i == n - 1 && (d, i) in s.slots {
        i := n;
      }
    }
  }

  /** A thread that holds a device lock can always go on. */
  lemma LookupMoves(s: State, t: nat)
    requires t in s.threads && InLookup(s.threads[t])
    ensures CanMove(s, t)
  {
    var th := s.threads[t];
    if th.pc.OpenLookup? {
      if v: nat :| ServiceIs(s, v, th.u) { HasStep(s, OpenTake(t, v)); } else { HasStep(s, OpenNoMem(t)); }
    } else {
      var i := FirstFreeSlot(s, th.d, SERVICES_MAX_COUNT);
      if i < SERVICES_MAX_COUNT { HasStep(s, OpenInsert(t, i)); } else { HasStep(s, OpenFull(t)); }
    }
  }

  /** A thread that holds a ta_session_lock can always go on. */
  lemma CallMoves(s: State, t: nat)
    requires t in s.threads && InCall(s.threads[t])
    ensures CanMove(s, t)
  {
    HasStep(s, UnlockSession(t));
  }

  /** A call that begins can look for its service, or waits for the lock of its device. */
  lemma StartMoves(s: State, t: nat)
    requires HoldersOk(s) && t in s.threads && s.threads[t].pc in {OpenStart, SendStart, CloseStart}
    ensures CanMove(s, t) || exists q: nat :: WaitsForDevice(s, t, q)
  {
    var th := s.threads[t];
    if th.d in s.devLock {
      assert WaitsForDevice(s, t, s.devLock[th.d]);
    } else if i: nat :| SlotHas(s, th.d, i, th.u) {
      StartKnown(s, t, i);
    } else if th.pc.OpenStart? {
      HasStep(s, OpenMiss(t));
    } else {
      HasStep(s, NoService(t));
    }
  }

  lemma StartKnown(s: State, t: nat, i: nat)
    requires t in s.threads && s.threads[t].pc in {OpenStart, SendStart, CloseStart}
    requires s.threads[t].d !in s.devLock && SlotHas(s, s.threads[t].d, i, s.threads[t].u)
    ensures CanMove(s, t)
  {
    if !s.threads[t].pc.OpenStart? {
      HasStep(s, GetByUuid(t, i));
    } else if s.slots[(s.threads[t].d, i)].ref == MAX_REF_COUNT {
      HasStep(s, OpenRefFull(t, i));
    } else {
      HasStep(s, OpenRef(t, i));
    }
  }

  lemma DropMoves(s: State, t: nat)
    requires Inv(s) && HoldersOk(s) && t in s.threads && (s.threads[t].pc.OpenDrop? || s.threads[t].pc.CloseDrop?)
    ensures CanMove(s, t) || exists q: nat :: WaitsForDevice(s, t, q)
  {
    hide Inv;
    var th := s.threads[t];
    if th.d in s.devLock {
      assert WaitsForDevice(s, t, s.devLock[th.d]);
    } else {
      HeldRefIsSound(s, t);
      var i: nat :| (th.d, i) in s.slots && s.slots[(th.d, i)].svc == th.v;
      HasStep(s, DropRef(t, i));
    }
  }

  /** A thread that has found its session enters a call for it, or waits for the one that is under way. */
  lemma EnterMoves(s: State, t: nat)
    requires HoldersOk(s) && t in s.threads && (s.threads[t].pc.SendWait? || s.threads[t].pc.CloseEnter?)
    ensures CanMove(s, t) || exists q: nat :: WaitsForSession(s, t, q)
  {
    var x := s.threads[t].x;
    if x in s.sesLock {
      assert WaitsForSession(s, t, s.sesLock[x]);
    } else {
      HasStep(s, LockSession(t));
    }
  }

  /** A thread that has come to the operation_lock of its service takes it, or waits for its holder. */
  lemma LockOperationMoves(s: State, t: nat)
    requires HoldersOk(s) && t in s.threads && (s.threads[t].pc.OpenWait? || s.threads[t].pc.CloseWait?)
    ensures CanMove(s, t) || exists q: nat :: WaitsForOperation(s, t, q)
  {
    var v := s.threads[t].v;
    if v in s.opLock {
      assert WaitsForOperation(s, t, s.opLock[v]);
    } else if s.threads[t].pc.OpenWait? {
      HasStep(s, OpenLock(t));
    } else {
      HasStep(s, CloseLock(t));
    }
  }

  lemma SweepSlotMoves(s: State, t: nat)
    requires HoldersOk(s) && t in s.threads && s.threads[t].pc.SweepSlot? && s.threads[t].i <= SERVICES_MAX_COUNT
    ensures CanMove(s, t) || exists q: nat :: WaitsForOperation(s, t, q)
  {
    var th := s.threads[t];
    if th.i == SERVICES_MAX_COUNT {
      HasStep(s, SweepEnd(t));
    } else if (th.d, th.i) !in s.slots {
      HasStep(s, SweepSkip(t));
    } else {
      var v := s.slots[(th.d, th.i)].svc;
      if forall x: nat :: !OnList(s, x, v) {
        HasStep(s, SweepSkip(t));
      } else if v !in s.opLock {
        HasStep(s, SweepLock(t));
      } else {
        assert WaitsForOperation(s, t, s.opLock[v]);
      }
    }
  }

  lemma FindMoves(s: State, t: nat)
    requires t in s.threads && (s.threads[t].pc.SendFind? || s.threads[t].pc.CloseFind?)
    ensures CanMove(s, t)
  {
    var th := s.threads[t];
    if x: nat :| Matches(s, x, th.v, th.d) && s.sessions[x].id == th.id {
      HasStep(s, FindSession(t, x));
    } else {
      HasStep(s, NoSession(t));
    }
  }

  lemma SweepListMoves(s: State, t: nat)
    requires t in s.threads && s.threads[t].pc.SweepList?
    ensures CanMove(s, t)
  {
    var th := s.threads[t];
    if x: nat :| Matches(s, x, th.v, th.d) { HasStep(s, SweepTake(t, x)); } else { HasStep(s, SweepNone(t)); }
  }

  /** A thread that has a session to put or to take off its list can do so. */
  lemma SessionMoves(s: State, t: nat)
    requires SessionsOk(s) && t in s.threads
    requires s.threads[t].pc in {SendEnd, CloseUnlist, ClosePut1, ClosePut2, SweepPut1, SweepPut2}
    ensures CanMove(s, t)
  {
    HeldSessionExists(s, t, s.threads[t].x);
    if s.threads[t].pc.CloseUnlist? { HasStep(s, TakeOffList(t)); } else { HasStep(s, DropSession(t)); }
  }

  /** A thread that has a service to put can do so. */
  lemma ServiceMoves(s: State, t: nat)
    requires UsageOk(s) && t in s.threads
    requires s.threads[t].pc in {OpenPutBack, SendPut, SendPutNone, ClosePut}
    ensures CanMove(s, t)
  {
    HeldServiceExists(s, t, s.threads[t].v);
    HasStep(s, DropService(t));
  }

  lemma SimpleMoves(s: State, t: nat)
    requires t in s.threads && s.threads[t].pc in {OpenReady, OpenLocked, OpenUnlock, CloseUnlock}
    ensures CanMove(s, t)
  {
    if s.threads[t].pc.OpenReady? {
      HasStep(s, OpenAlloc(t));
    } else if s.threads[t].pc.OpenLocked? {
      HasStep(s, OpenList(t, 0));
    } else {
      HasStep(s, Unlock(t));
    }
  }

  lemma SweepServiceMoves(s: State, t: nat)
    requires UsageOk(s) && t in s.threads && s.threads[t].pc.SweepPutSvc? && PlaceOk(s, s.threads[t])
    ensures CanMove(s, t)
  {
    SlotServiceExists(s, s.threads[t].d, s.threads[t].i);
    HasStep(s, SweepService(t));
  }

  /** A thread that holds an operation_lock can go on, or waits for a service_lock or a ta_session_lock. */
  lemma OperationMoves(s: State, t: nat)
    requires Inv(s) && HoldersOk(s) && t in s.threads && InOperation(s.threads[t])
    ensures CanMove(s, t) || (exists q: nat :: WaitsForDevice(s, t, q)) || exists q: nat :: WaitsForSession(s, t, q)
  {
    hide CanMove;
    hide HoldersOk;
    hide WaitsForDevice;
    hide WaitsForSession;
    match s.threads[t].pc
    case OpenLocked | OpenUnlock | CloseUnlock => SimpleMoves(s, t);
    case CloseFind => FindMoves(s, t);
    case CloseEnter => EnterMoves(s, t);
    case CloseCall => CallMoves(s, t);
    case CloseDrop => DropMoves(s, t);
    case SweepList => SweepListMoves(s, t);
    case CloseUnlist | ClosePut1 | ClosePut2 | SweepPut1 | SweepPut2 => SessionMoves(s, t);
  }

  predicate Ended(th: Thread) {
    th.pc.Finished? || th.pc.SweepDone?
  }

  /** A thread that has not ended has a step to take or has come to a lock that another thread holds. */
  lemma MovesOrWaits(s: State, t: nat)
    requires Inv(s) && HoldersOk(s) && t in s.threads && !Ended(s.threads[t])
    ensures CanMove(s, t) || exists q: nat :: WaitsFor(s, t, q)
  {
    hide CanMove;
    hide HoldersOk;
    hide WaitsForDevice;
    hide WaitsForOperation;
    hide WaitsForSession;
    WaitingIsOneOfThree(s, t);
    if InOperation(s.threads[t]) {
      OperationMoves(s, t);
    } else if StopsAtLock(s.threads[t]) {
      StopsMove(s, t);
    } else {
      FreeMoves(s, t);
    }
  }

  lemma WaitingIsOneOfThree(s: State, t: nat)
    ensures (exists q: nat :: WaitsForDevice(s, t, q)) ==> exists q: nat :: WaitsFor(s, t, q)
    ensures (exists q: nat :: WaitsForOperation(s, t, q)) ==> exists q: nat :: WaitsFor(s, t, q)
    ensures (exists q: nat :: WaitsForSession(s, t, q)) ==> exists q: nat :: WaitsFor(s, t, q)
  {
    hide WaitsForDevice;
    hide WaitsForOperation;
    hide WaitsForSession;
    if q: nat :| WaitsForDevice(s, t, q) { assert WaitsFor(s, t, q); }
    if q: nat :| WaitsForOperation(s, t, q) { assert WaitsFor(s, t, q); }
    if q: nat :| WaitsForSession(s, t, q) { assert WaitsFor(s, t, q); }
  }

  /** The points outside an operation_lock at which a thread may have to wait. */
  predicate StopsAtLock(th: Thread) {
    th.pc.OpenStart? || th.pc.SendStart? || th.pc.CloseStart? || th.pc.OpenWait? || th.pc.CloseWait? ||
    th.pc.OpenDrop? || th.pc.SendWait? || th.pc.SweepSlot?
  }

  lemma StopsMove(s: State, t: nat)
    requires Inv(s) && HoldersOk(s) && t in s.threads && StopsAtLock(s.threads[t])
    ensures CanMove(s, t) || exists q: nat :: WaitsFor(s, t, q)
  {
    hide CanMove;
    hide HoldersOk;
    hide WaitsForDevice;
    hide WaitsForOperation;
    hide WaitsForSession;
    WaitingIsOneOfThree(s, t);
    assert PlaceOk(s, s.threads[t]);
    match s.threads[t].pc
    case OpenStart | SendStart | CloseStart => StartMoves(s, t);
    case OpenWait | CloseWait => LockOperationMoves(s, t);
    case OpenDrop => DropMoves(s, t);
    case SendWait => EnterMoves(s, t);
    case SweepSlot => SweepSlotMoves(s, t);
  }

  lemma FreeMoves(s: State, t: nat)
    requires Inv(s) && t in s.threads && !Ended(s.threads[t])
    requires !InOperation(s.threads[t]) && !StopsAtLock(s.threads[t])
    ensures CanMove(s, t)
  {
    hide CanMove;
    assert PlaceOk(s, s.threads[t]);
    match s.threads[t].pc
    case OpenLookup | OpenAdd => LookupMoves(s, t);
    case OpenPutBack | SendPut | SendPutNone | ClosePut => ServiceMoves(s, t);
    case OpenReady => SimpleMoves(s, t);
    case SendFind => FindMoves(s, t);
    case SendCall => CallMoves(s, t);
    case SendEnd => SessionMoves(s, t);
    case SweepPutSvc => SweepServiceMoves(s, t);
  }

  // ----- a thread that waits cannot move

  lemma WaitingIsStuck(s: State, t: nat, q: nat, a: Action)
    requires WaitsFor(s, t, q) && a.t == t
    ensures !Enabled(s, a)
  {
    var th := s.threads[t];
    if EnabledAt(s, a, th) {
      if OpenEnabled(s, a, th) { OpenNeedsLock(s, t, q, a); }
      else if FindEnabled(s, a, th) { FindNeedsLock(s, t, q, a); }
      else if LockEnabled(s, a, th) { LockNeedsLock(s, t, q, a); }
      else if DropEnabled(s, a, th) { DropNeedsLock(s, t, q, a); }
      else { SweepNeedsLock(s, t, q, a); }
    }
  }

  lemma OpenNeedsLock(s: State, t: nat, q: nat, a: Action)
    requires WaitsFor(s, t, q)
    ensures !OpenEnabled(s, a, s.threads[t])
  {
    hide OpenEnabled;
    if OpenEnabled(s, a, s.threads[t]) {
      OpenPoints(s, a, s.threads[t]);
    }
  }

  lemma OpenPoints(s: State, a: Action, th: Thread)
    requires OpenEnabled(s, a, th)
    ensures th.pc.OpenStart? ==> th.d !in s.devLock
    ensures th.pc.OpenStart? || th.pc.OpenLookup? || th.pc.OpenAdd? || th.pc.OpenReady? || th.pc.OpenLocked?
  {
    match a
    case OpenRef(_, _) | OpenRefFull(_, _) | OpenMiss(_) | OpenTake(_, _) | OpenCreate(_, _) | OpenNoMem(_) =>
    case OpenInsert(_, _) | OpenFull(_) | OpenAlloc(_) | OpenNoSession(_) | OpenList(_, _) | OpenFail(_) =>
  }

  lemma FindNeedsLock(s: State, t: nat, q: nat, a: Action)
    requires WaitsFor(s, t, q)
    ensures !FindEnabled(s, a, s.threads[t])
  {
  }

  lemma LockNeedsLock(s: State, t: nat, q: nat, a: Action)
    requires WaitsFor(s, t, q)
    ensures !LockEnabled(s, a, s.threads[t])
  {
  }

  lemma DropNeedsLock(s: State, t: nat, q: nat, a: Action)
    requires WaitsFor(s, t, q)
    ensures !DropEnabled(s, a, s.threads[t])
  {
  }

  lemma SweepNeedsLock(s: State, t: nat, q: nat, a: Action)
    requires WaitsFor(s, t, q)
    ensures !SweepEnabled(s, a, s.threads[t])
  {
  }

  /**
    In every state of every run, a thread that has not ended can take a step if and only if no lock it has come to is
    held by another thread.
   */
  lemma MovesIffNotWaiting(ss: seq<State>, acts: seq<Action>, k: nat, t: nat)
    requires Run(ss, acts) && k < |ss| && t in ss[k].threads && !Ended(ss[k].threads[t])
    ensures CanMove(ss[k], t) <==> !exists q: nat :: WaitsFor(ss[k], t, q)
  {
    hide Enabled;
    hide Apply;
    hide Inv;
    hide HoldersOk;
    hide WaitsFor;
    RunKeepsInv(ss, acts, k);
    RunKeepsHolders(ss, acts, k);
    MovesOrWaits(ss[k], t);
    if q: nat :| WaitsFor(ss[k], t, q) {
      forall a: Action | a.t == t
        ensures !Enabled(ss[k], a)
      {
        WaitingIsStuck(ss[k], t, q, a);
      }
    }
  }

  // ----- no deadlock

  /** The thread can move, or waits for one that can. */
  ghost predicate MovesOrWaitsOnce(s: State, q: nat) {
    CanMove(s, q) || exists r: nat :: WaitsFor(s, q, r) && CanMove(s, r)
  }

  lemma WaitEnds(s: State, t: nat, q: nat)
    requires Inv(s) && HoldersOk(s) && WaitsFor(s, t, q)
    ensures MovesOrWaitsOnce(s, q)
  {
    hide Inv;
    hide CanMove;
    if WaitsForDevice(s, t, q) {
      LookupMoves(s, q);
    } else if WaitsForSession(s, t, q) {
      CallMoves(s, q);
    } else {
      OperationWaitEnds(s, q);
    }
  }

  lemma OperationWaitEnds(s: State, q: nat)
    requires Inv(s) && HoldersOk(s) && q in s.threads && InOperation(s.threads[q])
    ensures MovesOrWaitsOnce(s, q)
  {
    hide Inv;
    hide CanMove;
    OperationMoves(s, q);
    if r: nat :| WaitsForDevice(s, q, r) {
      LookupMoves(s, r);
      assert WaitsFor(s, q, r);
    } else if r: nat :| WaitsForSession(s, q, r) {
      CallMoves(s, r);
      assert WaitsFor(s, q, r);
    }
  }

  /**
    There is no deadlock: in every state of every run, a thread that has not ended can move, or waits for a thread that
    can, or waits for a thread that waits for a thread that can. No chain of waiting threads is longer.
   */
  lemma NoDeadlock(ss: seq<State>, acts: seq<Action>, k: nat, t: nat)
    requires Run(ss, acts) && k < |ss| && t in ss[k].threads && !Ended(ss[k].threads[t])
    ensures CanMove(ss[k], t) || exists q: nat :: WaitsFor(ss[k], t, q) && MovesOrWaitsOnce(ss[k], q)
  {
    hide Enabled;
    hide Apply;
    hide Inv;
    hide CanMove;
    hide HoldersOk;
    hide WaitsFor;
    RunKeepsInv(ss, acts, k);
    RunKeepsHolders(ss, acts, k);
    MovesOrWaits(ss[k], t);
    if q: nat :| WaitsFor(ss[k], t, q) {
      WaitEnds(ss[k], t, q);
    }
  }
}
