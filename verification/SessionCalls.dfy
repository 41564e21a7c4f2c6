/**
  What a call holds is what its caller asked for: the service of the uuid it was called with, and a session of its
  device, its session id and that service.
 */
module SessionCalls {
  import opened Sessions
  import opened SessionInvariants
  import opened SessionCounts
  import opened SessionRefs
  import opened SessionTables
  import opened SessionPlaces
  import opened SessionRuns
  import opened SessionEntries

  /** Points at which the service of a call is kept by the call or by the session it has listed. */
  predicate HasService(th: Thread) {
    HoldsService(th, th.v) || HoldsRef(th, th.d, th.v) || th.pc.OpenUnlock?
  }

  /** Points at which a send or a close holds a session. */
  predicate HasSession(th: Thread) {
    !IsSweep(th) && HoldsSession(th, th.x)
  }

  /** The session is one of the device, id and service of the call; the service, while it is kept, is of its uuid. */
  predicate SessionFits(s: State, th: Thread) {
    th.x in s.sessions && s.sessions[th.x].id == th.id && s.sessions[th.x].owner == th.d &&
    s.sessions[th.x].svc == th.v && (s.sessions[th.x].listed ==> ServiceIs(s, th.v, th.u))
  }

  predicate Fits(s: State, th: Thread) {
    (HasService(th) ==> ServiceIs(s, th.v, th.u)) && (HasSession(th) ==> SessionFits(s, th))
  }

  ghost predicate AllFit(s: State) {
    forall t: nat :: t in s.threads ==> Fits(s, s.threads[t])
  }

  // ----- a step of another thread

  /** The service of a call exists wherever the call has it. */
  lemma ServiceIsThere(s: State, t: nat)
    requires Inv(s) && t in s.threads && HasService(s.threads[t])
    ensures s.threads[t].v in s.services
  {
    var th := s.threads[t];
    if HoldsService(th, th.v) {
      HeldServiceExists(s, t, th.v);
    } else if HoldsRef(th, th.d, th.v) {
      RefHolderHasSlot(s, t, th.d, th.v);
    } else {
      assert PlaceOk(s, th);
      ListedServiceExists(s, th.x);
    }
  }

  /** What a step leaves of a service and of a session that are there before and after it. */
  lemma FitStays(s: State, a: Action, th: Thread, next: Thread)
    requires Inv(s) && a.t in s.threads && EnabledAt(s, a, s.threads[a.t]) && Defined(s, PlanOf(s, a, s.threads[a.t]))
    requires Inv(Perform(s, a.t, PlanOf(s, a, s.threads[a.t])))
    requires next.v == th.v && next.u == th.u && next.x == th.x && next.id == th.id && next.d == th.d
    ensures var r := Perform(s, a.t, PlanOf(s, a, s.threads[a.t]));
      (ServiceIs(s, th.v, th.u) && th.v in r.services ==> ServiceIs(r, next.v, next.u)) &&
      (SessionFits(s, th) && th.x in r.sessions ==> SessionFits(r, next))
  {
    hide Inv;
    hide Perform;
    hide PlanOf;
    hide EnabledAt;
    var p := PlanOf(s, a, s.threads[a.t]);
    var r := Perform(s, a.t, p);
    ServicesKeepUuid(s, a.t, p, th.v, th.u);
    if SessionFits(s, th) && th.x in r.sessions {
      EntryIsKept(s, a, th.x);
      if r.sessions[th.x].listed { ListedServiceExists(r, th.x); }
    }
  }

  /** A session that is there before and after a step keeps its id, device and service, and is not listed again. */
  lemma EntryIsKept(s: State, a: Action, x: nat)
    requires Inv(s) && a.t in s.threads && EnabledAt(s, a, s.threads[a.t]) && Defined(s, PlanOf(s, a, s.threads[a.t]))
    requires x in s.sessions && x in Perform(s, a.t, PlanOf(s, a, s.threads[a.t])).sessions
    ensures var e, f := s.sessions[x], Perform(s, a.t, PlanOf(s, a, s.threads[a.t])).sessions[x];
      f.id == e.id && f.owner == e.owner && f.svc == e.svc && (f.listed ==> e.listed)
  {
    hide EnabledAt;
    hide PlanOf;
    PlanKeepsEntry(s, a);
    StepIsReady(s, a);
    InvNumbers(s);
    PlanWins(s, a, s.threads[a.t]);
  }

  lemma OtherFits(s: State, a: Action, q: nat)
    requires Inv(s) && a.t in s.threads && EnabledAt(s, a, s.threads[a.t]) && Defined(s, PlanOf(s, a, s.threads[a.t]))
    requires Inv(Perform(s, a.t, PlanOf(s, a, s.threads[a.t])))
    requires q in s.threads && q != a.t && Fits(s, s.threads[q])
    ensures Fits(Perform(s, a.t, PlanOf(s, a, s.threads[a.t])), s.threads[q])
  {
    hide Inv;
    hide PlanOf;
    hide EnabledAt;
    hide SessionFits;
    hide ServiceIs;
    hide HasService;
    var th := s.threads[q];
    var r := Perform(s, a.t, PlanOf(s, a, s.threads[a.t]));
    assert r.threads[q] == th;
    FitStays(s, a, th, th);
    if HasService(th) { ServiceIsThere(r, q); }
    if HasSession(th) { SessionIsThere(r, q); }
  }

  lemma SessionIsThere(s: State, t: nat)
    requires Inv(s) && t in s.threads && HasSession(s.threads[t])
    ensures s.threads[t].x in s.sessions
  {
    HeldSessionExists(s, t, s.threads[t].x);
  }

  // ----- a step of the thread itself

  /** Where the acting thread has its service and its session from. */
  predicate GotService(s: State, p: Plan, th: Thread) {
    HasService(p.next) ==>
      (HasService(th) && p.next.v == th.v) || ServiceIs(s, p.next.v, th.u) || p.service == NewService(p.next.v, th.u)
  }

  predicate GotSession(s: State, p: Plan, th: Thread) {
    HasSession(p.next) ==>
      p.next.v == th.v &&
      ((HasSession(th) && p.next.x == th.x) ||
       (HasService(th) && Matches(s, p.next.x, th.v, th.d) && s.sessions[p.next.x].id == th.id))
  }

  lemma PlanGets(s: State, a: Action, th: Thread)
    requires EnabledAt(s, a, th)
    ensures GotService(s, PlanOf(s, a, th), th) && GotSession(s, PlanOf(s, a, th), th)
  {
    if OpenEnabled(s, a, th) { OpenGets(s, a, th); }
    else if FindEnabled(s, a, th) { FindGets(s, a, th); }
    else if LockEnabled(s, a, th) { LockGets(s, a, th); }
    else if DropEnabled(s, a, th) { DropGets(s, a, th); }
    else { SweepGets(s, a, th); }
  }

  lemma OpenGets(s: State, a: Action, th: Thread)
    requires OpenEnabled(s, a, th)
    ensures GotService(s, OpenPlan(s, a, th), th) && GotSession(s, OpenPlan(s, a, th), th)
  {
    if SeeksService(a) { LookupGets(s, a, th); } else { LateOpenGets(s, a, th); }
  }

  lemma LookupGets(s: State, a: Action, th: Thread)
    requires OpenEnabled(s, a, th) && SeeksService(a)
    ensures GotService(s, OpenPlan(s, a, th), th) && GotSession(s, OpenPlan(s, a, th), th)
  {
    match a
    case OpenRef(_, _) | OpenRefFull(_, _) | OpenMiss(_) | OpenTake(_, _) | OpenCreate(_, _) | OpenNoMem(_) =>
  }

  lemma LateOpenGets(s: State, a: Action, th: Thread)
    requires OpenEnabled(s, a, th) && !SeeksService(a)
    ensures GotService(s, OpenPlan(s, a, th), th) && GotSession(s, OpenPlan(s, a, th), th)
  {
    match a
    case OpenInsert(_, _) | OpenFull(_) | OpenAlloc(_) | OpenNoSession(_) | OpenList(_, _) | OpenFail(_) =>
  }

  lemma FindGets(s: State, a: Action, th: Thread)
    requires FindEnabled(s, a, th)
    ensures GotService(s, FindPlan(s, a, th), th) && GotSession(s, FindPlan(s, a, th), th)
  {
    match a
    case GetByUuid(_, _) | NoService(_) | FindSession(_, _) | NoSession(_) | TakeOffList(_) =>
  }

  lemma LockGets(s: State, a: Action, th: Thread)
    requires LockEnabled(s, a, th)
    ensures GotService(s, LockPlan(s, a, th), th) && GotSession(s, LockPlan(s, a, th), th)
  {
    match a
    case OpenLock(_) | CloseLock(_) | LockSession(_) | UnlockSession(_) | Unlock(_) =>
  }

  lemma DropGets(s: State, a: Action, th: Thread)
    requires DropEnabled(s, a, th)
    ensures GotService(s, DropPlan(s, a, th), th) && GotSession(s, DropPlan(s, a, th), th)
  {
    match a
    case DropRef(_, _) | DropNothing(_) =>
      assert DropPlan(s, a, th).next == th.(pc := if th.pc.OpenDrop? then Finished else CloseUnlock);
    case DropService(_) | DropSession(_) =>
  }

  lemma SweepGets(s: State, a: Action, th: Thread)
    requires SweepEnabled(s, a, th)
    ensures GotService(s, SweepPlan(s, a, th), th) && GotSession(s, SweepPlan(s, a, th), th)
  {
    match a
    case SweepSkip(_) | SweepLock(_) | SweepTake(_, _) | SweepNone(_) | SweepService(_) | SweepEnd(_) =>
  }

  lemma OwnFits(s: State, a: Action)
    requires Inv(s) && a.t in s.threads && EnabledAt(s, a, s.threads[a.t]) && Defined(s, PlanOf(s, a, s.threads[a.t]))
    requires Inv(Perform(s, a.t, PlanOf(s, a, s.threads[a.t]))) && Fits(s, s.threads[a.t])
    ensures Fits(Perform(s, a.t, PlanOf(s, a, s.threads[a.t])), PlanOf(s, a, s.threads[a.t]).next)
  {
    hide Inv;
    hide PlanOf;
    hide EnabledAt;
    hide HasService;
    hide HasSession;
    var th := s.threads[a.t];
    var p := PlanOf(s, a, th);
    var r := Perform(s, a.t, p);
    assert r.threads[a.t] == p.next;
    PlanGets(s, a, th);
    PlanStaysInKind(s, a, th);
    if HasService(p.next) {
      ServiceIsThere(r, a.t);
      ServicesKeepUuid(s, a.t, p, p.next.v, th.u);
    }
    if HasSession(p.next) {
      SessionIsThere(r, a.t);
      FitStays(s, a, th.(x := p.next.x), p.next);
    }
  }

  lemma StepKeepsFit(s: State, a: Action)
    requires Inv(s) && AllFit(s) && Enabled(s, a) && Inv(Apply(s, a))
    ensures AllFit(Apply(s, a))
  {
    hide Inv;
    hide PlanOf;
    hide EnabledAt;
    hide Fits;
    var r := Apply(s, a);
    if a.Begin? || a.SweepStart? {
      StartFits(s, a);
    } else {
      var th := s.threads[a.t];
      InvDefined(s, a);
      forall q: nat | q in r.threads
        ensures Fits(r, r.threads[q])
      {
        if q == a.t { OwnFits(s, a); } else { OtherFits(s, a, q); }
      }
    }
  }

  lemma StartFits(s: State, a: Action)
    requires AllFit(s) && Enabled(s, a) && (a.Begin? || a.SweepStart?)
    ensures AllFit(Apply(s, a))
  {
    var r := Apply(s, a);
    forall q: nat | q in r.threads
      ensures Fits(r, r.threads[q])
    {
      if q != a.t { assert Fits(s, s.threads[q]); }
    }
  }

  lemma InvDefined(s: State, a: Action)
    requires Inv(s) && a.t in s.threads && EnabledAt(s, a, s.threads[a.t])
    ensures Defined(s, PlanOf(s, a, s.threads[a.t]))
  {
    var th := s.threads[a.t];
    assert PlaceOk(s, th);
    SweepHasSlot(s, a, th);
    PlanIsDefined(s, a, th);
  }

  lemma {:induction false} RunKeepsFit(ss: seq<State>, acts: seq<Action>, k: nat)
    requires Run(ss, acts) && k < |ss|
    ensures AllFit(ss[k])
  {
    hide Enabled;
    hide Apply;
    hide Inv;
    hide Fits;
    if k > 0 {
      RunKeepsFit(ss, acts, k - 1);
      RunKeepsInv(ss, acts, k - 1);
      RunKeepsInv(ss, acts, k);
      StepKeepsFit(ss[k - 1], acts[k - 1]);
    }
  }

  // ----- what it means

  /**
    In every state of every run: a send or a close that holds a session holds one of its device and session id, listed
    under the service it found for its uuid; and the service that a call has, it has for its uuid.
   */
  lemma CallsHoldWhatTheyAskFor(ss: seq<State>, acts: seq<Action>, k: nat, t: nat)
    requires Run(ss, acts) && k < |ss| && t in ss[k].threads && !IsSweep(ss[k].threads[t])
    ensures var s, th := ss[k], ss[k].threads[t];
      (HoldsSession(th, th.x) ==>
        th.x in s.sessions && s.sessions[th.x].id == th.id && s.sessions[th.x].owner == th.d &&
        s.sessions[th.x].svc == th.v && (s.sessions[th.x].listed ==> ServiceIs(s, th.v, th.u))) &&
      (HoldsService(th, th.v) || HoldsRef(th, th.d, th.v) ==> ServiceIs(s, th.v, th.u))
  {
    RunKeepsFit(ss, acts, k);
    assert Fits(ss[k], ss[k].threads[t]);
  }

  /** An open that succeeds lists a session of its device for the service of its uuid. */
  lemma OpensListTheirSession(ss: seq<State>, acts: seq<Action>, k: nat)
    requires Run(ss, acts) && k < |acts| && acts[k].OpenList?
    ensures var t, x, r := acts[k].t, ss[k].nextSession, ss[k + 1];
      t in r.threads && x !in ss[k].sessions && x in r.sessions && r.sessions[x].listed &&
      r.sessions[x].id == acts[k].id && r.sessions[x].owner == r.threads[t].d &&
      ServiceIs(r, r.sessions[x].svc, r.threads[t].u)
  {
    RunKeepsInv(ss, acts, k);
    RunKeepsFit(ss, acts, k + 1);
    assert Fits(ss[k + 1], ss[k + 1].threads[acts[k].t]);
  }

  /**
    An open is refused for a full count only when the device has 255 sessions and calls under way for the service, for a
    full device only when its 32 slots hold 32 services, none of them of its uuid, and for want of memory for a service
    only when there is none of its uuid.
   */
  lemma OpenRefusedOnlyWhenFull(ss: seq<State>, acts: seq<Action>, k: nat)
    requires Run(ss, acts) && k < |acts| && (acts[k].OpenRefFull? || acts[k].OpenFull? || acts[k].OpenNoMem?)
    ensures acts[k].t in ss[k].threads
    ensures var s, th := ss[k], ss[k].threads[acts[k].t];
      if acts[k].OpenRefFull? then exists v: nat :: ServiceIs(s, v, th.u) && RefTotal(s, th.d, v) == MAX_REF_COUNT
      else if acts[k].OpenNoMem? then forall v: nat :: !ServiceIs(s, v, th.u)
      else (forall j: nat :: j < SERVICES_MAX_COUNT ==> (th.d, j) in s.slots) && !DeviceKnows(s, th.d, th.u)
  {
    RunKeepsInv(ss, acts, k);
    var s, a := ss[k], acts[k];
    var th := s.threads[a.t];
    assert OpenEnabled(s, a, th) && PlaceOk(s, th);
    if a.OpenRefFull? {
      FullCount(s, a);
    } else if a.OpenFull? {
      NotOnDevice(s, th.d, th.v, th.u);
    }
  }

  lemma FullCount(s: State, a: Action)
    requires RefsOk(s) && ClosingOk(s) && a.OpenRefFull? && a.t in s.threads && OpenEnabled(s, a, s.threads[a.t])
    ensures var th := s.threads[a.t];
      exists v: nat :: ServiceIs(s, v, th.u) && RefTotal(s, th.d, v) == MAX_REF_COUNT
  {
    var th := s.threads[a.t];
    var v := s.slots[(th.d, a.i)].svc;
    assert Busy(th);
    assert ServiceIs(s, v, th.u) && s.slots[(th.d, a.i)].ref == RefTotal(s, th.d, v);
  }

  /** A service that has no slot on a device is the only one of its uuid, so the device does not know the uuid. */
  lemma NotOnDevice(s: State, d: nat, v: nat, u: nat)
    requires TablesOk(s) && ServiceIs(s, v, u) && !HasSlot(s, d, v)
    ensures !DeviceKnows(s, d, u)
  {
    forall i: nat
      ensures !SlotHas(s, d, i, u)
    {
    }
  }

  // ----- calls that are made

  /** The call finds no service of its uuid on its device, or no session of its id. */
  predicate FindsNothing(a: Action) {
    a.NoService? || a.NoSession?
  }

  /** Points of a send or a close before its call into the secure world. */
  predicate BeforeCall(th: Thread) {
    th.pc.SendStart? || th.pc.SendFind? || th.pc.SendPut? || th.pc.SendWait? ||
    th.pc.CloseStart? || th.pc.CloseWait? || th.pc.CloseFind? || th.pc.CloseEnter?
  }

  lemma PlanMakesCall(s: State, a: Action, th: Thread)
    requires EnabledAt(s, a, th) && BeforeCall(th) && !FindsNothing(a)
    ensures var next := PlanOf(s, a, th).next; BeforeCall(next) || InCall(next)
  {
    if FindEnabled(s, a, th) { FindMakesCall(s, a, th); }
    else if LockEnabled(s, a, th) { LockMakesCall(s, a, th); }
    else if DropEnabled(s, a, th) { DropMakesCall(s, a, th); }
    else { NoOtherBefore(s, a, th); }
  }

  lemma FindMakesCall(s: State, a: Action, th: Thread)
    requires FindEnabled(s, a, th) && BeforeCall(th) && !FindsNothing(a)
    ensures BeforeCall(FindPlan(s, a, th).next) && !OpenEnabled(s, a, th)
  {
  }

  lemma LockMakesCall(s: State, a: Action, th: Thread)
    requires LockEnabled(s, a, th) && BeforeCall(th)
    ensures (BeforeCall(LockPlan(s, a, th).next) || InCall(LockPlan(s, a, th).next)) && !OpenEnabled(s, a, th)
  {
  }

  lemma DropMakesCall(s: State, a: Action, th: Thread)
    requires DropEnabled(s, a, th) && BeforeCall(th)
    ensures BeforeCall(DropPlan(s, a, th).next) && !OpenEnabled(s, a, th)
  {
  }

  lemma NoOtherBefore(s: State, a: Action, th: Thread)
    requires OpenEnabled(s, a, th) || SweepEnabled(s, a, th)
    ensures !BeforeCall(th)
  {
  }

  lemma ThreadStays(s: State, a: Action, t: nat)
    requires Enabled(s, a) && t in s.threads
    ensures t in Apply(s, a).threads
  {
    hide EnabledAt;
    hide PlanOf;
  }

  predicate MadeCall(s: State, t: nat) {
    t in s.threads && InCall(s.threads[t])
  }

  lemma StepMakesCall(s: State, a: Action, t: nat)
    requires Enabled(s, a) && t in s.threads && BeforeCall(s.threads[t])
    ensures t in Apply(s, a).threads
    ensures BeforeCall(Apply(s, a).threads[t]) || MadeCall(Apply(s, a), t) || (a.t == t && FindsNothing(a))
  {
    hide EnabledAt;
    hide PlanOf;
    if a.t == t && !FindsNothing(a) { PlanMakesCall(s, a, s.threads[t]); }
  }

  /**
    A send or a close that has come past its call into the secure world has made it, with the session in hand that its
    caller asked for, unless it found no service or no session.
   */
  lemma {:induction false} CallIsMade(ss: seq<State>, acts: seq<Action>, k: nat, n: nat, t: nat)
    requires Run(ss, acts) && k <= n < |ss| && t in ss[k].threads && BeforeCall(ss[k].threads[t])
    ensures t in ss[n].threads
    ensures BeforeCall(ss[n].threads[t]) || (exists m: nat :: k <= m <= n && MadeCall(ss[m], t)) ||
      exists l: nat :: k <= l < n && FindsNothing(acts[l]) && acts[l].t == t
    decreases n
  {
    hide Enabled;
    hide Apply;
    hide BeforeCall;
    hide FindsNothing;
    if k < n {
      CallIsMade(ss, acts, k, n - 1, t);
      ThreadStays(ss[n - 1], acts[n - 1], t);
      if BeforeCall(ss[n - 1].threads[t]) {
        StepMakesCall(ss[n - 1], acts[n - 1], t);
        assert MadeCall(ss[n], t) ==> exists m: nat :: k <= m <= n && MadeCall(ss[m], t);
      } else if m: nat :| k <= m <= n - 1 && MadeCall(ss[m], t) {
        assert k <= m <= n;
      } else {
        var l: nat :| k <= l < n - 1 && FindsNothing(acts[l]) && acts[l].t == t;
        assert k <= l < n;
      }
    }
  }

  // ----- opens that list a session

  predicate Opening(th: Thread) {
    th.pc.OpenStart? || th.pc.OpenLookup? || th.pc.OpenAdd? || th.pc.OpenReady? || th.pc.OpenWait? || th.pc.OpenLocked?
  }

  /** The steps that make an open fail: refused, without memory, or turned down by the secure world. */
  predicate FailsOpen(a: Action) {
    a.OpenRefFull? || a.OpenNoMem? || a.OpenFull? || a.OpenNoSession? || a.OpenFail?
  }

  lemma StepOpens(s: State, a: Action, t: nat)
    requires Enabled(s, a) && t in s.threads && Opening(s.threads[t])
    ensures t in Apply(s, a).threads
    ensures Opening(Apply(s, a).threads[t]) || (a.t == t && (FailsOpen(a) || a.OpenList?))
  {
    hide EnabledAt;
    hide PlanOf;
    if a.t == t { PlanOpens(s, a, s.threads[t]); }
  }

  lemma PlanOpens(s: State, a: Action, th: Thread)
    requires EnabledAt(s, a, th) && Opening(th)
    ensures Opening(PlanOf(s, a, th).next) || FailsOpen(a) || a.OpenList?
  {
    if OpenEnabled(s, a, th) { OpenOpens(s, a, th); }
    else if LockEnabled(s, a, th) { LockOpens(s, a, th); }
    else { NoOtherOpens(s, a, th); }
  }

  lemma OpenOpens(s: State, a: Action, th: Thread)
    requires OpenEnabled(s, a, th)
    ensures Opening(OpenPlan(s, a, th).next) || FailsOpen(a) || a.OpenList?
  {
    match a
    case OpenRef(_, _) | OpenRefFull(_, _) | OpenMiss(_) | OpenTake(_, _) | OpenCreate(_, _) | OpenNoMem(_) =>
    case OpenInsert(_, _) | OpenFull(_) | OpenAlloc(_) | OpenNoSession(_) | OpenList(_, _) | OpenFail(_) =>
  }

  lemma LockOpens(s: State, a: Action, th: Thread)
    requires LockEnabled(s, a, th) && Opening(th)
    ensures Opening(LockPlan(s, a, th).next) && !FindEnabled(s, a, th)
  {
  }

  lemma NoOtherOpens(s: State, a: Action, th: Thread)
    requires FindEnabled(s, a, th) || DropEnabled(s, a, th) || SweepEnabled(s, a, th)
    ensures !Opening(th)
  {
  }

  /** An open that is over has listed its session, or has failed in one of five ways. */
  lemma {:induction false} OpenListsOrFails(ss: seq<State>, acts: seq<Action>, k: nat, n: nat, t: nat)
    requires Run(ss, acts) && k <= n < |ss| && t in ss[k].threads && Opening(ss[k].threads[t])
    ensures t in ss[n].threads
    ensures Opening(ss[n].threads[t]) || exists m: nat :: k <= m < n && acts[m].t == t && Settles(acts[m])
    decreases n
  {
    hide Enabled;
    hide Apply;
    hide Opening;
    hide FailsOpen;
    if k < n {
      OpenListsOrFails(ss, acts, k, n - 1, t);
      ThreadStays(ss[n - 1], acts[n - 1], t);
      if Opening(ss[n - 1].threads[t]) {
        StepOpens(ss[n - 1], acts[n - 1], t);
        assert k <= n - 1 < n;
      } else {
        var m: nat :| k <= m < n - 1 && acts[m].t == t && Settles(acts[m]);
        assert k <= m < n;
      }
    }
  }

  predicate Settles(a: Action) {
    a.OpenList? || FailsOpen(a)
  }
}
