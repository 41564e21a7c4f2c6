/**
  Two closes of one session: one takes it off its list, and the other finds it gone only because the first did.
 */
module SessionCloses {
  import opened Options
  import opened Sessions
  import opened SessionInvariants
  import opened SessionCounts
  import opened SessionRefs
  import opened SessionTables
  import opened SessionPlaces
  import opened SessionRuns
  import opened SessionEntries
  import opened SessionCalls

  /** Session `x` is listed under this id and device for service `v`, whose uuid is `u`. */
  predicate ListedAs(s: State, x: nat, id: nat, v: nat, d: nat, u: nat) {
    Matches(s, x, v, d) && s.sessions[x].id == id && ServiceIs(s, v, u)
  }

  /** Session `x` is one that a call with these arguments is for. */
  predicate Sought(s: State, call: Thread, x: nat) {
    x in s.sessions && ListedAs(s, x, call.id, s.sessions[x].svc, call.d, call.u)
  }

  /** A listed session stays listed as it is until a step takes it off its list. */
  lemma ListedStays(s: State, a: Action, x: nat, id: nat, v: nat, d: nat, u: nat)
    requires Inv(s) && Enabled(s, a) && Inv(Apply(s, a)) && ListedAs(s, x, id, v, d, u) && !Unlists(s, a, x)
    ensures ListedAs(Apply(s, a), x, id, v, d, u)
  {
    hide PlanOf;
    hide EnabledAt;
    if !a.Begin? && !a.SweepStart? {
      var th := s.threads[a.t];
      StepIsReady(s, a);
      ListedStaysAt(s, a, x);
      assert PlaceOk(s, th);
      SweepHasSlot(s, a, th);
      PlanIsDefined(s, a, th);
      ListedServiceExists(Apply(s, a), x);
      ServicesKeepUuid(s, a.t, PlanOf(s, a, th), v, u);
    }
  }

  lemma ListedStaysAt(s: State, a: Action, x: nat)
    requires a.t in s.threads && EnabledAt(s, a, s.threads[a.t]) && RefReady(s, a, s.threads[a.t]) && NumbersOk(s)
    requires x in s.sessions && s.sessions[x].listed && !Unlists(s, a, x)
    ensures var r := DoSession(s.sessions, PlanOf(s, a, s.threads[a.t]).session);
      x in r && r[x] == s.sessions[x].(usage := r[x].usage)
  {
    PlanKeepsEntry(s, a);
    PlanListGuarded(s, a, s.threads[a.t]);
    EntryStays(s, a, PlanOf(s, a, s.threads[a.t]).session, x);
  }

  lemma EntryStays(s: State, a: Action, op: SessionOp, x: nat)
    requires KeepsEntry(s, a, op) && x in s.sessions && s.sessions[x].listed && !Unlists(s, a, x)
    requires op.NewSession? ==> op.x !in s.sessions
    requires op.FreeSession? ==> op.x in s.sessions && !s.sessions[op.x].listed
    ensures x in DoSession(s.sessions, op)
    ensures DoSession(s.sessions, op)[x] == s.sessions[x].(usage := DoSession(s.sessions, op)[x].usage)
  {
  }

  // ----- calls along a run

  predicate SameCall(th: Thread, next: Thread) {
    next.d == th.d && next.u == th.u && next.id == th.id
  }

  /** A thread that is busy at the end was busy all along, with the same arguments. */
  lemma {:induction false} BusyAllAlong(ss: seq<State>, acts: seq<Action>, k: nat, l: nat, t: nat)
    requires Run(ss, acts) && k <= l < |ss| && t in ss[k].threads && t in ss[l].threads && Busy(ss[l].threads[t])
    ensures Busy(ss[k].threads[t]) && SameCall(ss[k].threads[t], ss[l].threads[t])
    decreases l
  {
    hide Enabled;
    hide Apply;
    hide Busy;
    if k < l {
      StillThere(ss, acts, k, l - 1, t);
      OneStepBack(ss[l - 1], acts[l - 1], t);
      BusyAllAlong(ss, acts, k, l - 1, t);
    }
  }

  lemma {:induction false} StillThere(ss: seq<State>, acts: seq<Action>, k: nat, l: nat, t: nat)
    requires Run(ss, acts) && k <= l < |ss| && t in ss[k].threads
    ensures t in ss[l].threads
    decreases l
  {
    hide Enabled;
    hide Apply;
    if k < l {
      StillThere(ss, acts, k, l - 1, t);
      ThreadStays(ss[l - 1], acts[l - 1], t);
    }
  }

  lemma OneStepBack(s: State, a: Action, t: nat)
    requires Enabled(s, a) && t in s.threads && t in Apply(s, a).threads && Busy(Apply(s, a).threads[t])
    ensures Busy(s.threads[t]) && SameCall(s.threads[t], Apply(s, a).threads[t])
  {
    if !a.Begin? && !a.SweepStart? {
      PlanStaysInKind(s, a, s.threads[a.t]);
    }
  }

  // ----- a call that finds nothing

  /** A close that is for session `x` takes it off its list with step `m` of the run. */
  ghost predicate WonBy(ss: seq<State>, acts: seq<Action>, m: nat, x: nat) {
    m < |acts| && |ss| == |acts| + 1 && acts[m].TakeOffList? && acts[m].t in ss[m].threads &&
    Sought(ss[m], ss[m].threads[acts[m].t], x) && acts[m].t in ss[m + 1].threads &&
    ss[m + 1].threads[acts[m].t].won == Some(x)
  }

  /** A close takes off its list the session it was called for. */
  lemma UnlistsItsOwn(s: State, a: Action)
    requires Inv(s) && AllFit(s) && Enabled(s, a) && a.TakeOffList?
    ensures a.t in s.threads && Sought(s, s.threads[a.t], s.threads[a.t].x)
    ensures a.t in Apply(s, a).threads && Apply(s, a).threads[a.t].won == Some(s.threads[a.t].x)
  {
    var th := s.threads[a.t];
    assert FindEnabled(s, a, th) && PlaceOk(s, th) && Fits(s, th);
  }

  /** On a device with a call under way, only a close takes a session of the device off its list. */
  lemma UnlistedByClose(s: State, a: Action, x: nat, t: nat)
    requires Inv(s) && Enabled(s, a) && t in s.threads && Busy(s.threads[t])
    requires x in s.sessions && s.sessions[x].owner == s.threads[t].d && Unlists(s, a, x)
    ensures a.TakeOffList? && a.t in s.threads && s.threads[a.t].x == x
  {
    if a.SweepTake? {
      SweepIsOnItsDevice(s, a, x);
    }
  }

  lemma SweepIsOnItsDevice(s: State, a: Action, x: nat)
    requires ClosingOk(s) && Enabled(s, a) && a.SweepTake? && a.x == x
    ensures x in s.sessions && s.sessions[x].owner in s.closing
  {
  }

  lemma StaysOrIsWon(ss: seq<State>, acts: seq<Action>, m: nat, x: nat, v: nat, t: nat)
    requires Run(ss, acts) && m < |acts| && t in ss[m].threads && Busy(ss[m].threads[t])
    requires var th := ss[m].threads[t]; ListedAs(ss[m], x, th.id, v, th.d, th.u)
    ensures var th := ss[m].threads[t]; ListedAs(ss[m + 1], x, th.id, v, th.d, th.u) || WonBy(ss, acts, m, x)
  {
    hide Enabled;
    hide Apply;
    hide Inv;
    hide Busy;
    hide Unlists;
    hide AllFit;
    RunKeepsInv(ss, acts, m);
    RunKeepsInv(ss, acts, m + 1);
    var th := ss[m].threads[t];
    if Unlists(ss[m], acts[m], x) {
      RunKeepsFit(ss, acts, m);
      UnlistedByClose(ss[m], acts[m], x, t);
      UnlistsItsOwn(ss[m], acts[m]);
    } else {
      ListedStays(ss[m], acts[m], x, th.id, v, th.d, th.u);
    }
  }

  /** As long as a call is under way, a session it is for stays listed, or a close wins it. */
  lemma {:induction false} ListedUntilWon(ss: seq<State>, acts: seq<Action>, k: nat, l: nat, x: nat, v: nat, t: nat)
    requires Run(ss, acts) && k <= l < |ss| && t in ss[k].threads && t in ss[l].threads && Busy(ss[l].threads[t])
    requires var th := ss[k].threads[t]; ListedAs(ss[k], x, th.id, v, th.d, th.u)
    ensures (var th := ss[l].threads[t]; ListedAs(ss[l], x, th.id, v, th.d, th.u)) ||
      exists m: nat :: k <= m < l && WonBy(ss, acts, m, x)
    decreases l
  {
    hide Enabled;
    hide Apply;
    hide Busy;
    hide ListedAs;
    if k < l {
      StillThere(ss, acts, k, l - 1, t);
      BusyAllAlong(ss, acts, l - 1, l, t);
      ListedUntilWon(ss, acts, k, l - 1, x, v, t);
      var th := ss[l - 1].threads[t];
      if ListedAs(ss[l - 1], x, th.id, v, th.d, th.u) { StaysOrIsWon(ss, acts, l - 1, x, v, t); }
    }
  }

  /** What the action says about the state it is taken in. */
  lemma NothingIsListed(s: State, a: Action, x: nat, v: nat)
    requires Inv(s) && FindsNothing(a) && Enabled(s, a)
    ensures a.t in s.threads && Busy(s.threads[a.t])
    ensures var th := s.threads[a.t]; !ListedAs(s, x, th.id, v, th.d, th.u)
  {
    var th := s.threads[a.t];
    assert FindEnabled(s, a, th);
    if ListedAs(s, x, th.id, v, th.d, th.u) {
      if a.NoService? { ServiceWouldBeFound(s, th, x, v); } else { SessionWouldBeFound(s, a.t, x, v); }
    }
  }

  lemma ServiceWouldBeFound(s: State, th: Thread, x: nat, v: nat)
    requires Inv(s) && ListedAs(s, x, th.id, v, th.d, th.u)
    ensures DeviceKnows(s, th.d, th.u)
  {
    ListedServiceExists(s, x);
    var i: nat :| SlotHolds(s, th.d, i, v) && i < SERVICES_MAX_COUNT;
    assert SlotHas(s, th.d, i, th.u);
  }

  lemma SessionWouldBeFound(s: State, t: nat, x: nat, v: nat)
    requires Inv(s) && t in s.threads && (s.threads[t].pc.SendFind? || s.threads[t].pc.CloseFind?)
    requires var th := s.threads[t]; ListedAs(s, x, th.id, v, th.d, th.u)
    ensures var th := s.threads[t]; Matches(s, x, th.v, th.d) && s.sessions[x].id == th.id
  {
    assert PlaceOk(s, s.threads[t]);
  }

  /**
    A call that finds nothing lost to a close that won: if at any time since it began a session of its id was listed on
    its device for its uuid, a close has taken that session off its list since then.
   */
  lemma LoserLostToWinner(ss: seq<State>, acts: seq<Action>, k: nat, l: nat, x: nat)
    requires Run(ss, acts) && k <= l < |acts| && FindsNothing(acts[l]) && acts[l].t in ss[k].threads
    requires Sought(ss[k], ss[k].threads[acts[l].t], x)
    ensures exists m: nat :: k <= m < l && WonBy(ss, acts, m, x)
  {
    hide Apply;
    hide Enabled;
    hide Busy;
    hide Inv;
    hide FindsNothing;
    hide ListedAs;
    var v := ss[k].sessions[x].svc;
    RunKeepsInv(ss, acts, l);
    NothingIsListed(ss[l], acts[l], x, v);
    ListedUntilWon(ss, acts, k, l, x, v, acts[l].t);
  }

  // ----- a close that ends

  /** A close that may still take its session off the list. */
  predicate Deciding(th: Thread) {
    th.pc.CloseStart? || th.pc.CloseWait? || th.pc.CloseFind? || th.pc.CloseEnter? || th.pc.CloseCall? ||
    th.pc.CloseUnlist?
  }

  /** A close decides until it takes a session off its list or finds nothing, and it wins nothing before that. */
  lemma PlanDecides(s: State, a: Action, th: Thread)
    requires EnabledAt(s, a, th)
    ensures Deciding(PlanOf(s, a, th).next) ==> Deciding(th) && PlanOf(s, a, th).next.won == th.won
    ensures Deciding(th) && !FindsNothing(a) && !a.TakeOffList? ==> Deciding(PlanOf(s, a, th).next)
    ensures !a.TakeOffList? ==> PlanOf(s, a, th).next.won == th.won
  {
    if OpenEnabled(s, a, th) { OpenIsNoClose(s, a, th); }
    else if FindEnabled(s, a, th) { FindDecides(s, a, th); }
    else if LockEnabled(s, a, th) { LockDecides(s, a, th); }
    else if DropEnabled(s, a, th) { DropIsNoClose(s, a, th); }
    else { SweepIsNoClose(s, a, th); }
  }

  lemma OpenIsNoClose(s: State, a: Action, th: Thread)
    requires OpenEnabled(s, a, th)
    ensures !Deciding(th) && !Deciding(OpenPlan(s, a, th).next) && OpenPlan(s, a, th).next.won == th.won
  {
    match a
    case OpenRef(_, _) | OpenRefFull(_, _) | OpenMiss(_) | OpenTake(_, _) | OpenCreate(_, _) | OpenNoMem(_) =>
    case OpenInsert(_, _) | OpenFull(_) | OpenAlloc(_) | OpenNoSession(_) | OpenList(_, _) | OpenFail(_) =>
  }

  lemma FindDecides(s: State, a: Action, th: Thread)
    requires FindEnabled(s, a, th)
    ensures var next := FindPlan(s, a, th).next;
      (Deciding(next) ==> Deciding(th)) && (!a.TakeOffList? ==> next.won == th.won) &&
      (a.TakeOffList? ==> !Deciding(next)) && (Deciding(th) && !FindsNothing(a) && !a.TakeOffList? ==> Deciding(next))
  {
    match a
    case GetByUuid(_, _) | NoService(_) | FindSession(_, _) | NoSession(_) | TakeOffList(_) =>
  }

  lemma LockDecides(s: State, a: Action, th: Thread)
    requires LockEnabled(s, a, th)
    ensures (Deciding(th) <==> Deciding(LockPlan(s, a, th).next)) && LockPlan(s, a, th).next.won == th.won
  {
    match a
    case OpenLock(_) | CloseLock(_) | LockSession(_) | UnlockSession(_) | Unlock(_) =>
  }

  lemma DropIsNoClose(s: State, a: Action, th: Thread)
    requires DropEnabled(s, a, th)
    ensures !Deciding(th) && !Deciding(DropPlan(s, a, th).next) && DropPlan(s, a, th).next.won == th.won
  {
    match a
    case DropRef(_, _) | DropNothing(_) | DropService(_) | DropSession(_) =>
  }

  lemma SweepIsNoClose(s: State, a: Action, th: Thread)
    requires SweepEnabled(s, a, th)
    ensures !Deciding(th) && !Deciding(SweepPlan(s, a, th).next) && SweepPlan(s, a, th).next.won == th.won
  {
    match a
    case SweepSkip(_) | SweepLock(_) | SweepTake(_, _) | SweepNone(_) | SweepService(_) | SweepEnd(_) =>
  }

  /** Thread `t` takes session `y` off its list with step `m`, and it is one of those its caller asked for. */
  ghost predicate WinsWith(ss: seq<State>, acts: seq<Action>, m: nat, t: nat, y: nat) {
    WonBy(ss, acts, m, y) && acts[m].t == t
  }

  predicate Undecided(s: State, t: nat) {
    t in s.threads && Deciding(s.threads[t]) && s.threads[t].won.None?
  }

  lemma StepDecides(s: State, a: Action, t: nat)
    requires Enabled(s, a) && t in s.threads
    ensures t in Apply(s, a).threads && SameCall(s.threads[t], Apply(s, a).threads[t])
    ensures Undecided(Apply(s, a), t) ==> Undecided(s, t)
    ensures Undecided(s, t) ==>
      Undecided(Apply(s, a), t) || (a.t == t && a.TakeOffList?) || (a.t == t && FindsNothing(a))
    ensures !(a.t == t && a.TakeOffList?) ==> Apply(s, a).threads[t].won == s.threads[t].won
  {
    hide EnabledAt;
    hide PlanOf;
    hide Deciding;
    hide FindsNothing;
    if a.t == t {
      OwnStepDecides(s, a);
    } else {
      ThreadRests(s, a, t);
    }
  }

  lemma ThreadRests(s: State, a: Action, t: nat)
    requires Enabled(s, a) && t in s.threads && a.t != t
    ensures t in Apply(s, a).threads && Apply(s, a).threads[t] == s.threads[t]
  {
    hide EnabledAt;
    hide PlanOf;
  }

  lemma OwnStepDecides(s: State, a: Action)
    requires Enabled(s, a) && a.t in s.threads
    ensures a.t in Apply(s, a).threads
    ensures var th, next := s.threads[a.t], Apply(s, a).threads[a.t];
      SameCall(th, next) && (!a.TakeOffList? ==> next.won == th.won) &&
      (Deciding(next) ==> Deciding(th) && next.won == th.won) &&
      (Deciding(th) && !FindsNothing(a) && !a.TakeOffList? ==> Deciding(next))
  {
    hide EnabledAt;
    hide PlanOf;
    hide Deciding;
    hide FindsNothing;
    hide IsSweep;
    hide Busy;
    PlanDecides(s, a, s.threads[a.t]);
    PlanStaysInKind(s, a, s.threads[a.t]);
  }

  lemma StartsUndecided(s: State, a: Action, t: nat)
    requires Enabled(s, a) && t !in s.threads && t in Apply(s, a).threads
    ensures Apply(s, a).threads[t].won.None?
  {
  }

  /** A close that is still deciding has won nothing. */
  lemma {:induction false} DecidingHasNotWon(ss: seq<State>, acts: seq<Action>, k: nat, t: nat)
    requires Run(ss, acts) && k < |ss| && t in ss[k].threads && Deciding(ss[k].threads[t])
    ensures ss[k].threads[t].won.None?
  {
    hide Enabled;
    hide Apply;
    if k > 0 {
      if t in ss[k - 1].threads {
        DecidingBefore(ss[k - 1], acts[k - 1], t);
        DecidingHasNotWon(ss, acts, k - 1, t);
        StepDecides(ss[k - 1], acts[k - 1], t);
      } else {
        StartsUndecided(ss[k - 1], acts[k - 1], t);
      }
    }
  }

  lemma DecidingBefore(s: State, a: Action, t: nat)
    requires Enabled(s, a) && t in s.threads && t in Apply(s, a).threads && Deciding(Apply(s, a).threads[t])
    ensures Deciding(s.threads[t]) && Apply(s, a).threads[t].won == s.threads[t].won
  {
    hide EnabledAt;
    hide PlanOf;
    hide Deciding;
    if a.t == t { PlanDecides(s, a, s.threads[t]); }
  }

  /** What has become of a close since state `k`: it is deciding, has won, or has found nothing. */
  ghost predicate Standing(ss: seq<State>, acts: seq<Action>, k: nat, n: nat, t: nat) {
    |ss| == |acts| + 1 && n < |ss| && t in ss[n].threads &&
    (Undecided(ss[n], t) ||
     (ss[n].threads[t].won.Some? &&
      exists m: nat :: k <= m < n && WinsWith(ss, acts, m, t, ss[n].threads[t].won.value)) ||
     exists l: nat :: k <= l < n && FindsNothing(acts[l]) && acts[l].t == t)
  }

  lemma {:induction false} DecidedBetween(ss: seq<State>, acts: seq<Action>, k: nat, n: nat, t: nat)
    requires Run(ss, acts) && k <= n < |ss| && Undecided(ss[k], t)
    ensures Standing(ss, acts, k, n, t) && SameCall(ss[k].threads[t], ss[n].threads[t])
    decreases n
  {
    hide Enabled;
    hide Apply;
    hide Undecided;
    hide FindsNothing;
    hide WonBy;
    if k < n {
      DecidedBetween(ss, acts, k, n - 1, t);
      OneMoreStep(ss, acts, k, n - 1, t);
    } else {
      assert t in ss[k].threads by { UndecidedIsThere(ss[k], t); }
    }
  }

  lemma UndecidedIsThere(s: State, t: nat)
    requires Undecided(s, t)
    ensures t in s.threads
  {
  }

  lemma OneMoreStep(ss: seq<State>, acts: seq<Action>, k: nat, n: nat, t: nat)
    requires Run(ss, acts) && k <= n < |acts| && Standing(ss, acts, k, n, t)
    ensures Standing(ss, acts, k, n + 1, t) && SameCall(ss[n].threads[t], ss[n + 1].threads[t])
  {
    hide Enabled;
    hide Apply;
    hide Undecided;
    hide FindsNothing;
    hide WonBy;
    hide Inv;
    hide AllFit;
    var a := acts[n];
    StepDecides(ss[n], a, t);
    if a.t == t && a.TakeOffList? {
      RunKeepsInv(ss, acts, n);
      RunKeepsFit(ss, acts, n);
      WinningStep(ss, acts, n);
      assert WinsWith(ss, acts, n, t, ss[n + 1].threads[t].won.value);
    } else if Undecided(ss[n], t) {
      assert a.t == t && FindsNothing(a) ==> exists l: nat :: k <= l < n + 1 && FindsNothing(acts[l]) && acts[l].t == t;
    } else if l: nat :| k <= l < n && FindsNothing(acts[l]) && acts[l].t == t {
      assert k <= l < n + 1;
    } else {
      var m: nat :| k <= m < n && WinsWith(ss, acts, m, t, ss[n].threads[t].won.value);
      assert WinsWith(ss, acts, m, t, ss[n + 1].threads[t].won.value);
    }
  }

  lemma WinningStep(ss: seq<State>, acts: seq<Action>, n: nat)
    requires Run(ss, acts) && n < |acts| && acts[n].TakeOffList? && Inv(ss[n]) && AllFit(ss[n])
    ensures acts[n].t in ss[n + 1].threads && ss[n + 1].threads[acts[n].t].won.Some?
    ensures WonBy(ss, acts, n, ss[n + 1].threads[acts[n].t].won.value)
  {
    hide Enabled;
    hide Apply;
    hide Inv;
    hide AllFit;
    UnlistsItsOwn(ss[n], acts[n]);
  }

  /**
    A close of a listed session succeeds or has lost it to another: when the call is over, it has taken off its list a
    session of the id, device and uuid it was called with, or a close for this one has taken this one since the call
    began.
   */
  lemma CloseWinsOrLoses(ss: seq<State>, acts: seq<Action>, k: nat, n: nat, t: nat, x: nat)
    requires Run(ss, acts) && k <= n < |ss| && t in ss[k].threads && ss[k].threads[t].pc.CloseStart?
    requires Sought(ss[k], ss[k].threads[t], x) && t in ss[n].threads && ss[n].threads[t].pc.Finished?
    ensures (ss[n].threads[t].won.Some? && exists m: nat ::
        k <= m < n && WinsWith(ss, acts, m, t, ss[n].threads[t].won.value) &&
        Sought(ss[m], ss[k].threads[t], ss[n].threads[t].won.value)) ||
      exists m: nat :: k <= m < n && WonBy(ss, acts, m, x)
  {
    hide Enabled;
    hide Apply;
    hide Sought;
    hide FindsNothing;
    DecidingHasNotWon(ss, acts, k, t);
    DecidedBetween(ss, acts, k, n, t);
    if l: nat :| k <= l < n && FindsNothing(acts[l]) && acts[l].t == t {
      LoserLostToWinner(ss, acts, k, l, x);
    } else {
      var y := ss[n].threads[t].won.value;
      var m: nat :| k <= m < n && WinsWith(ss, acts, m, t, y);
      DecidedBetween(ss, acts, k, m, t);
      SoughtByArguments(ss[m], ss[m].threads[t], ss[k].threads[t], y);
    }
  }

  lemma SoughtByArguments(s: State, a: Thread, b: Thread, x: nat)
    requires SameCall(a, b) || SameCall(b, a)
    ensures Sought(s, a, x) <==> Sought(s, b, x)
  {
  }
}
