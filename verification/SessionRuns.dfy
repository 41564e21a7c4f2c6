/**
  Every step of the session manager keeps its invariant, so every run does.
 */
module SessionRuns {
  import opened Options
  import opened Counting
  import opened Sessions
  import opened SessionInvariants
  import opened SessionCounts
  import opened SessionRefs
  import opened SessionTables
  import opened SessionPlaces

  lemma InitInv(s: State)
    requires Init(s)
    ensures Inv(s)
  {
    forall v: nat
      ensures Count(s.slots, SlotOf(v)) == 0 && Count(s.threads, ServiceHolder(v)) == 0
    {
      CountZero(s.slots, SlotOf(v));
      CountZero(s.threads, ServiceHolder(v));
    }
    forall x: nat
      ensures Count(s.threads, SessionHolder(x)) == 0 && Count(s.threads, OpenHolder(x)) == 0
    {
      CountZero(s.threads, SessionHolder(x));
      CountZero(s.threads, OpenHolder(x));
    }
    forall d: nat, v: nat
      ensures RefTotal(s, d, v) == 0
    {
      CountZero(s.sessions, ListedFor(d, v));
      CountZero(s.threads, RefHolder(d, v));
    }
  }

  lemma StepKeepsInv(s: State, a: Action)
    requires Inv(s) && Enabled(s, a)
    ensures Inv(Apply(s, a))
  {
    hide EnabledAt;
    hide Perform;
    hide PlanOf;
    hide UsageOk;
    hide SessionsOk;
    hide NumbersOk;
    hide RefsOk;
    hide TablesOk;
    hide LocksOk;
    hide ClosingOk;
    hide WinsOk;
    hide PlacesOk;
    UsageKept(s, a);
    SessionsKept(s, a);
    RefsKept(s, a);
    RestKept(s, a);
  }

  lemma RestKept(s: State, a: Action)
    requires Inv(s) && Enabled(s, a) && UsageOk(Apply(s, a))
    ensures var r := Apply(s, a); TablesOk(r) && LocksOk(r) && ClosingOk(r) && PlacesOk(r) && WinsOk(r)
  {
    if a.Begin? || a.SweepStart? {
      StartKeepsRest(s, a);
    } else {
      var th := s.threads[a.t];
      assert PlaceOk(s, th);
      SweepHasSlot(s, a, th);
      PlanIsDefined(s, a, th);
      RunKeepsRest(s, a);
    }
  }

  lemma RunKeepsRest(s: State, a: Action)
    requires Inv(s) && a.t in s.threads && EnabledAt(s, a, s.threads[a.t])
    requires Defined(s, PlanOf(s, a, s.threads[a.t])) && UsageOk(Perform(s, a.t, PlanOf(s, a, s.threads[a.t])))
    ensures var r := Perform(s, a.t, PlanOf(s, a, s.threads[a.t]));
      TablesOk(r) && LocksOk(r) && ClosingOk(r) && PlacesOk(r) && WinsOk(r)
  {
    hide EnabledAt;
    hide Perform;
    hide PlanOf;
    hide UsageOk;
    hide SessionsOk;
    hide NumbersOk;
    hide RefsOk;
    hide TablesOk;
    hide LocksOk;
    hide ClosingOk;
    hide WinsOk;
    hide PlacesOk;
    StepIsReady(s, a);
    TablesKept(s, a);
    LocksKept(s, a);
    WinsKept(s, a);
    PlacesKeptAt(s, a);
  }

  lemma StepIsReady(s: State, a: Action)
    requires Inv(s) && a.t in s.threads && EnabledAt(s, a, s.threads[a.t])
    ensures RefReady(s, a, s.threads[a.t])
  {
    var th := s.threads[a.t];
    assert PlaceOk(s, th);
    SweepHasSlot(s, a, th);
    SessionIsReady(s, a);
    EnabledAtRefStep(s, a, th);
    IsRefReady(s, a);
  }

  lemma TablesKept(s: State, a: Action)
    requires TablesOk(s) && a.t in s.threads && EnabledAt(s, a, s.threads[a.t]) && RefReady(s, a, s.threads[a.t])
    requires Defined(s, PlanOf(s, a, s.threads[a.t])) && UsageOk(Perform(s, a.t, PlanOf(s, a, s.threads[a.t])))
    ensures TablesOk(Perform(s, a.t, PlanOf(s, a, s.threads[a.t])))
  {
    var th := s.threads[a.t];
    var p := PlanOf(s, a, th);
    PlanSlotOk(s, a, th);
    forall v: nat
      ensures NewIsNew(s, p, v)
    {
      PlanNewIsNew(s, a, th, v);
    }
    PerformKeepsTables(s, a.t, p);
  }

  lemma LocksKept(s: State, a: Action)
    requires LocksOk(s) && ClosingOk(s) && a.t in s.threads && EnabledAt(s, a, s.threads[a.t])
    requires Defined(s, PlanOf(s, a, s.threads[a.t]))
    ensures var r := Perform(s, a.t, PlanOf(s, a, s.threads[a.t])); LocksOk(r) && ClosingOk(r)
  {
    var th := s.threads[a.t];
    var p := PlanOf(s, a, th);
    forall k: nat
      ensures LocksPlanned(s, a.t, p, th, k)
    {
      PlanLocks(s, a, th, k);
    }
    KeepsLocks(s, Perform(s, a.t, p), a.t, p);
    PlanStaysInKind(s, a, th);
    KeepsClosing(s, Perform(s, a.t, p), a.t, p.next);
  }

  lemma WinsKept(s: State, a: Action)
    requires WinsOk(s) && NumbersOk(s) && a.t in s.threads && EnabledAt(s, a, s.threads[a.t])
    requires RefReady(s, a, s.threads[a.t])
    requires Defined(s, PlanOf(s, a, s.threads[a.t]))
    ensures WinsOk(Perform(s, a.t, PlanOf(s, a, s.threads[a.t])))
  {
    PlanWins(s, a, s.threads[a.t]);
    PerformKeepsWins(s, a.t, PlanOf(s, a, s.threads[a.t]));
  }

  lemma StartKeepsRest(s: State, a: Action)
    requires Inv(s) && Enabled(s, a) && (a.Begin? || a.SweepStart?)
    ensures var r := Apply(s, a); TablesOk(r) && LocksOk(r) && ClosingOk(r) && PlacesOk(r) && WinsOk(r)
  {
    var r := Apply(s, a);
    StartKeepsTables(s, r, a.t, r.threads[a.t]);
    StartKeepsLocks(s, r, a.t, r.threads[a.t]);
    if a.SweepStart? { OccupiedSlotsHaveSessions(s, a.d); }
    StartKeepsPlaces(s, r, a.t, r.threads[a.t]);
  }

  lemma StartKeepsLocks(s: State, r: State, t: nat, th: Thread)
    requires LocksOk(s) && ClosingOk(s)
    requires t !in s.threads && r.threads == s.threads[t := th] && r.devLock == s.devLock && r.opLock == s.opLock
    requires r.sesLock == s.sesLock
    requires if th.pc.SweepSlot? then
        r.closing == s.closing[th.d := t] && th.d !in s.closing &&
        forall q: nat :: q in s.threads && Busy(s.threads[q]) ==> s.threads[q].d != th.d
      else
        (th.pc.OpenStart? || th.pc.SendStart? || th.pc.CloseStart?) &&
        r.closing == s.closing && th.d !in s.closing
    ensures LocksOk(r) && ClosingOk(r)
  {
    hide LocksOk;
    HoldsNoLock(th);
    AddsNoHolder(s, r, t, th);
    assert IsSweep(th) <==> !Busy(th);
  }

  lemma HoldsNoLock(th: Thread)
    requires th.pc.OpenStart? || th.pc.SendStart? || th.pc.CloseStart? || th.pc.SweepSlot?
    ensures !InLookup(th) && !InOperation(th) && !InCall(th)
  {
  }

  lemma AddsNoHolder(s: State, r: State, t: nat, th: Thread)
    requires LocksOk(s) && t !in s.threads && r.threads == s.threads[t := th] && r.devLock == s.devLock
    requires r.opLock == s.opLock && r.sesLock == s.sesLock && !InLookup(th) && !InOperation(th) && !InCall(th)
    ensures LocksOk(r)
  {
    hide InLookup;
    hide InOperation;
    hide InCall;
  }

  lemma StartKeepsTables(s: State, r: State, t: nat, th: Thread)
    requires TablesOk(s) && WinsOk(s) && t !in s.threads && th.won == None
    requires r.threads == s.threads[t := th] && r.slots == s.slots && r.services == s.services
    requires r.sessions == s.sessions && r.nextSession == s.nextSession
    ensures TablesOk(r) && WinsOk(r)
  {
  }

  lemma StartKeepsPlaces(s: State, r: State, t: nat, th: Thread)
    requires PlacesOk(s) && t !in s.threads && r.threads == s.threads[t := th]
    requires r.slots == s.slots && r.sessions == s.sessions && r.services == s.services
    requires th.pc.OpenStart? || th.pc.SendStart? || th.pc.CloseStart? ||
             (th.pc.SweepSlot? && th.i == 0 && ListedFrom(s, th.d, 0))
    ensures PlacesOk(r)
  {
    forall q: nat | q in r.threads
      ensures PlaceOk(r, r.threads[q])
    {
      assert q != t ==> PlaceOk(s, s.threads[q]);
      PlaceKeptByStart(s, r, r.threads[q]);
    }
  }

  lemma PlaceKeptByStart(s: State, r: State, th: Thread)
    requires PlaceOk(s, th) && r.slots == s.slots && r.sessions == s.sessions && r.services == s.services
    ensures PlaceOk(r, th)
  {
    if IsSweep(th) {
      ViewKept(s, r, th);
    } else {
      forall i: nat ensures SlotHas(r, th.d, i, th.u) ==> SlotHas(s, th.d, i, th.u) {}
    }
  }

  /** On a device without a call under way, every occupied slot has a session of the device on its service's list. */
  lemma OccupiedSlotsHaveSessions(s: State, d: nat)
    requires Inv(s) && d !in s.closing
    requires (forall r: nat :: r in s.threads && Busy(s.threads[r]) ==> s.threads[r].d != d)
    ensures ListedFrom(s, d, 0)
  {
    forall j: nat | (d, j) in s.slots
      ensures HasListed(s, d, s.slots[(d, j)].svc)
    {
      var v := s.slots[(d, j)].svc;
      forall t: nat | t in s.threads
        ensures !RefHolder(d, v)(s.threads[t])
      {
        RefHolderIsBusy(s.threads[t], d, v);
      }
      CountZero(s.threads, RefHolder(d, v));
      var x := CountWitness(s.sessions, ListedFor(d, v));
      assert Matches(s, x, v, d);
    }
  }

  lemma RefHolderIsBusy(th: Thread, d: nat, v: nat)
    ensures HoldsRef(th, d, v) ==> Busy(th) && th.d == d
  {
  }

  lemma {:induction false} RunKeepsInv(ss: seq<State>, acts: seq<Action>, k: nat)
    requires Run(ss, acts) && k < |ss|
    ensures Inv(ss[k])
  {
    hide Enabled;
    hide Apply;
    hide Inv;
    if k == 0 {
      InitInv(ss[0]);
    } else {
      RunKeepsInv(ss, acts, k - 1);
      StepKeepsInv(ss[k - 1], acts[k - 1]);
    }
  }
}
