/**
  The invariant of the session manager: what every count counts, and what a thread may rely on
  at each point.
 */
module SessionInvariants {
  import opened Counting
  import opened Sessions

  ghost function ServiceHolder(v: nat): Thread -> bool { (th: Thread) => HoldsService(th, v) }
  ghost function SlotOf(v: nat): Slot -> bool { (slot: Slot) => slot.svc == v }
  ghost function RefHolder(d: nat, v: nat): Thread -> bool { (th: Thread) => HoldsRef(th, d, v) }
  ghost function ListedFor(d: nat, v: nat): Session -> bool { (e: Session) => e.listed && e.owner == d && e.svc == v }
  ghost function SessionHolder(x: nat): Thread -> bool { (th: Thread) => HoldsSession(th, x) }
  ghost function OpenHolder(x: nat): Thread -> bool { (th: Thread) => HoldsOpenUsage(th, x) }

  // ----- service usage

  ghost function Usage(s: State, v: nat): int {
    if v in s.services then s.services[v].usage else 0
  }

  /**
    A service's usage is the number of device slots that hold it plus the threads that hold it;
    the service exists as long as that is positive.
   */
  ghost predicate UsageOk(s: State) {
    (forall v: nat :: Usage(s, v) == Count(s.slots, SlotOf(v)) + Count(s.threads, ServiceHolder(v))) &&
    (forall v: nat :: v in s.services ==> s.services[v].usage >= 1)
  }

  // ----- session usage

  ghost function SessionUsage(s: State, x: nat): int {
    if x in s.sessions then s.sessions[x].usage else 0
  }

  ghost function Listed(s: State, x: nat): nat {
    One(x in s.sessions && s.sessions[x].listed)
  }

  ghost function HeldUsage(s: State, x: nat): nat {
    Listed(s, x) + Count(s.threads, SessionHolder(x)) + Count(s.threads, OpenHolder(x))
  }

  /** A session's usage is one for its place on the list plus what the threads hold of it. */
  ghost predicate SessionsOk(s: State) {
    (forall x: nat :: SessionUsage(s, x) == HeldUsage(s, x)) &&
    (forall x: nat :: x in s.sessions ==> s.sessions[x].usage >= 1)
  }

  /** Every session number given out belongs to a session that exists or to one that was freed, never to both. */
  ghost predicate NumbersOk(s: State) {
    forall x: nat :: (x < s.nextSession <==> x in s.sessions || x in s.freed) && !(x in s.sessions && x in s.freed)
  }

  // ----- service_ref

  ghost function RefTotal(s: State, d: nat, v: nat): nat {
    Count(s.sessions, ListedFor(d, v)) + Count(s.threads, RefHolder(d, v))
  }

  /** `service_ref` counts the device's listed sessions of the service and its opens and closes under way. */
  ghost predicate RefsOk(s: State) {
    (forall d: nat, i: nat :: (d, i) in s.slots && d !in s.closing ==>
      s.slots[(d, i)].ref == RefTotal(s, d, s.slots[(d, i)].svc) && 1 <= s.slots[(d, i)].ref <= MAX_REF_COUNT) &&
    (forall d: nat, v: nat :: !HasSlot(s, d, v) ==> RefTotal(s, d, v) == 0)
  }

  predicate SlotHolds(s: State, d: nat, i: nat, v: nat) {
    (d, i) in s.slots && s.slots[(d, i)].svc == v
  }

  // ----- tables and locks

  /** A device holds a service in at most one slot, and a uuid has at most one service. */
  ghost predicate TablesOk(s: State) {
    (forall d: nat, i: nat :: (d, i) in s.slots ==> i < SERVICES_MAX_COUNT && s.slots[(d, i)].svc in s.services) &&
    (forall d: nat, i: nat, j: nat ::
      (d, i) in s.slots && (d, j) in s.slots && s.slots[(d, i)].svc == s.slots[(d, j)].svc ==> i == j) &&
    (forall v: nat, w: nat ::
      v in s.services && w in s.services && s.services[v].uuid == s.services[w].uuid ==> v == w)
  }

  ghost predicate LocksOk(s: State) {
    (forall t: nat :: t in s.threads && InLookup(s.threads[t]) ==>
      s.threads[t].d in s.devLock && s.devLock[s.threads[t].d] == t) &&
    (forall t: nat :: t in s.threads && InOperation(s.threads[t]) ==>
      s.threads[t].v in s.opLock && s.opLock[s.threads[t].v] == t) &&
    (forall t: nat :: t in s.threads && InCall(s.threads[t]) ==>
      s.threads[t].x in s.sesLock && s.sesLock[s.threads[t].x] == t)
  }

  ghost predicate ClosingOk(s: State) {
    (forall t: nat :: t in s.threads && IsSweep(s.threads[t]) ==>
      s.threads[t].d in s.closing && s.closing[s.threads[t].d] == t) &&
    (forall t: nat :: t in s.threads && Busy(s.threads[t]) ==> s.threads[t].d !in s.closing)
  }

  // ----- what a thread may rely on where it is

  ghost predicate SweptBelow(s: State, d: nat, i: nat) {
    forall j: nat :: j < i ==> (d, j) !in s.slots
  }

  ghost predicate HasListed(s: State, d: nat, v: nat) {
    exists x: nat :: Matches(s, x, v, d)
  }

  /** Every slot from `i` up has a session to close. */
  ghost predicate ListedFrom(s: State, d: nat, i: nat) {
    forall j: nat :: i <= j && (d, j) in s.slots ==> HasListed(s, d, s.slots[(d, j)].svc)
  }

  ghost predicate InSweep(s: State, th: Thread) {
    th.i < SERVICES_MAX_COUNT && (th.d, th.i) in s.slots && s.slots[(th.d, th.i)].svc == th.v &&
    SweptBelow(s, th.d, th.i) && ListedFrom(s, th.d, th.i + 1)
  }

  /** The operation_lock keeps the session of these on its list. */
  predicate HasListedSession(th: Thread) {
    th.pc.OpenUnlock? || th.pc.CloseEnter? || th.pc.CloseCall? || th.pc.CloseUnlist?
  }

  ghost predicate PlaceOk(s: State, th: Thread) {
    (th.pc.OpenLookup? ==> !DeviceKnows(s, th.d, th.u)) &&
    (th.pc.OpenAdd? ==> !HasSlot(s, th.d, th.v) && ServiceIs(s, th.v, th.u)) &&
    (th.pc.SendFind? || th.pc.CloseWait? || th.pc.CloseFind? ==> ServiceIs(s, th.v, th.u)) &&
    (HasListedSession(th) ==> Matches(s, th.x, th.v, th.d)) &&
    (th.pc.SweepSlot? ==> th.i <= SERVICES_MAX_COUNT && SweptBelow(s, th.d, th.i) && ListedFrom(s, th.d, th.i)) &&
    (th.pc.SweepList? || th.pc.SweepPut1? || th.pc.SweepPut2? || th.pc.SweepPutSvc? ==> InSweep(s, th)) &&
    (th.pc.SweepPutSvc? ==> !HasListed(s, th.d, th.v)) &&
    (th.pc.SweepDone? ==> th.i <= SERVICES_MAX_COUNT && SweptBelow(s, th.d, SERVICES_MAX_COUNT))
  }

  ghost predicate PlacesOk(s: State) {
    forall t: nat :: t in s.threads ==> PlaceOk(s, s.threads[t])
  }

  /** No two closes have won the same session, and a session won is off its list for good. */
  ghost predicate WinsOk(s: State) {
    (forall t: nat :: t in s.threads && s.threads[t].won.Some? ==>
      s.threads[t].won.value < s.nextSession && Listed(s, s.threads[t].won.value) == 0) &&
    (forall t: nat, r: nat ::
      t in s.threads && r in s.threads && s.threads[t].won.Some? && s.threads[t].won == s.threads[r].won ==> t == r)
  }

  ghost predicate Inv(s: State) {
    UsageOk(s) && SessionsOk(s) && NumbersOk(s) && RefsOk(s) && TablesOk(s) &&
    LocksOk(s) && ClosingOk(s) && PlacesOk(s) && WinsOk(s)
  }

  // ----- consequences

  lemma SlotServiceExists(s: State, d: nat, i: nat)
    requires UsageOk(s) && (d, i) in s.slots
    ensures s.slots[(d, i)].svc in s.services
  {
    CountPositive(s.slots, (d, i), SlotOf(s.slots[(d, i)].svc));
  }

  lemma HeldServiceExists(s: State, t: nat, v: nat)
    requires UsageOk(s) && t in s.threads && HoldsService(s.threads[t], v)
    ensures v in s.services
  {
    CountPositive(s.threads, t, ServiceHolder(v));
  }

  lemma HeldSessionExists(s: State, t: nat, x: nat)
    requires SessionsOk(s) && t in s.threads && HoldsSession(s.threads[t], x)
    ensures x in s.sessions
  {
    CountPositive(s.threads, t, SessionHolder(x));
    assert SessionUsage(s, x) == HeldUsage(s, x);
  }

  lemma RefHolderHasSlot(s: State, t: nat, d: nat, v: nat)
    requires RefsOk(s) && t in s.threads && HoldsRef(s.threads[t], d, v)
    ensures HasSlot(s, d, v)
  {
    CountPositive(s.threads, t, RefHolder(d, v));
  }

  lemma ListedHasSlot(s: State, x: nat)
    requires RefsOk(s) && x in s.sessions && s.sessions[x].listed
    ensures HasSlot(s, s.sessions[x].owner, s.sessions[x].svc)
  {
    CountPositive(s.sessions, x, ListedFor(s.sessions[x].owner, s.sessions[x].svc));
  }

  /** How a count over the threads moves when one thread moves. */
  lemma ThreadMoves(m: map<nat, Thread>, t: nat, th: Thread, p: Thread -> bool)
    ensures Count(m[t := th], p) + One(t in m && p(m[t])) == Count(m, p) + One(p(th))
  {
    if t in m { CountReplace(m, t, th, p); } else { CountAdd(m, t, th, p); }
  }
}
