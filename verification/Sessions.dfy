/**
  Services, sessions and device files (core/session_manager.c) as a transition system: any number of
  threads opening, using and closing sessions, and close threads sweeping closed device files.
  A step is one critical section of service_lock, g_service_list_lock or session_lock; the long-held
  locks (a device's service_lock during a look-up, a service's operation_lock, a session's ta_session_lock) are
  explicit.
 */
module Sessions {
  import opened Options

  const SERVICES_MAX_COUNT: nat := 32
  const MAX_REF_COUNT: nat := 255

  /** An allocated service; it is on the global list exactly as long as it is allocated. */
  datatype Service = Service(uuid: nat, usage: int)

  /** An occupied entry of a device's `services[]`, with its `service_ref[]`. */
  datatype Slot = Slot(svc: nat, ref: nat)

  /** An allocated session; `listed` while it is on the session list of its service. */
  datatype Session = Session(id: nat, owner: nat, svc: nat, usage: int, listed: bool)

  datatype Pc =
    // tc_ns_open_session
    | OpenStart
    | OpenLookup     // service_lock held, the device does not have the service
    | OpenAdd        // service_lock held, one usage of v taken
    | OpenPutBack    // the device is full
    | OpenReady      // counted in service_ref
    | OpenWait       // session allocated
    | OpenLocked     // operation_lock held
    | OpenUnlock     // session x listed, operation_lock still held
    | OpenDrop       // failed, still counted in service_ref
    // tc_ns_send_cmd
    | SendStart
    | SendFind       // one usage of v taken
    | SendPut        // session x found and taken
    | SendPutNone    // no session found
    | SendWait       // only session x held, up to SendEnd
    | SendCall       // ta_session_lock held
    | SendEnd
    // tc_ns_close_session
    | CloseStart
    | CloseWait      // one usage of v taken, up to ClosePut
    | CloseFind      // operation_lock held, up to CloseUnlock
    | CloseEnter     // session x found and taken
    | CloseCall      // ta_session_lock held
    | CloseUnlist
    | ClosePut1      // x off the list, two usages of it to put
    | ClosePut2
    | CloseDrop      // still counted in service_ref
    | CloseUnlock
    | ClosePut
    // close_session_thread_fn
    | SweepSlot      // at slot i
    | SweepList      // operation_lock of v held, up to SweepPut2
    | SweepPut1
    | SweepPut2
    | SweepPutSvc
    | SweepDone
    | Finished

  /**
    A thread: device `d`, uuid `u` and session id `id` it was called with, service `v`, session `x` and
    slot index `i` it works on; `won` is the session a close has taken off its list.
   */
  datatype Thread = Thread(pc: Pc, d: nat, u: nat, id: nat, v: nat, x: nat, i: nat, won: Option<nat>)

  /**
    `devLock`, `opLock`, `sesLock` and `closing` name the holder of a device's service_lock, the holder of a service's
    operation_lock, the holder of a session's ta_session_lock and the close thread of a device. Session numbers are
    never used twice; `freed` collects those of sessions that have been freed.
   */
  datatype State = State(
    services: map<nat, Service>,
    slots: map<(nat, nat), Slot>,
    sessions: map<nat, Session>,
    threads: map<nat, Thread>,
    devLock: map<nat, nat>,
    opLock: map<nat, nat>,
    sesLock: map<nat, nat>,
    closing: map<nat, nat>,
    nextSession: nat,
    freed: set<nat>)

  // ----- what a thread holds at each point

  /** One `usage` of service `v`, outside the device slots. */
  predicate HoldsService(th: Thread, v: nat) {
    th.v == v &&
    (th.pc.OpenAdd? || th.pc.OpenPutBack? || th.pc.SendFind? || th.pc.SendPut? || th.pc.SendPutNone? ||
     th.pc.CloseWait? || th.pc.CloseFind? || th.pc.CloseEnter? || th.pc.CloseCall? || th.pc.CloseUnlist? ||
     th.pc.ClosePut1? || th.pc.ClosePut2? || th.pc.CloseDrop? || th.pc.CloseUnlock? || th.pc.ClosePut?)
  }

  /** One `service_ref` of device `d` for service `v` that no listed session accounts for. */
  predicate HoldsRef(th: Thread, d: nat, v: nat) {
    th.d == d && th.v == v &&
    (th.pc.OpenReady? || th.pc.OpenWait? || th.pc.OpenLocked? || th.pc.OpenDrop? ||
     th.pc.ClosePut1? || th.pc.ClosePut2? || th.pc.CloseDrop?)
  }

  /** One `usage` of session `x`. */
  predicate HoldsSession(th: Thread, x: nat) {
    th.x == x &&
    (th.pc.SendPut? || th.pc.SendWait? || th.pc.SendCall? || th.pc.SendEnd? ||
     th.pc.CloseEnter? || th.pc.CloseCall? || th.pc.CloseUnlist? || th.pc.ClosePut1? || th.pc.ClosePut2? ||
     th.pc.SweepPut1? || th.pc.SweepPut2?)
  }

  /** A second `usage` of session `x`: the one taken over from the open when it left the list. */
  predicate HoldsOpenUsage(th: Thread, x: nat) {
    th.x == x && (th.pc.ClosePut1? || th.pc.SweepPut1?)
  }

  /** The operation_lock of its service. */
  predicate InOperation(th: Thread) {
    (th.pc.OpenLocked? || th.pc.OpenUnlock? || th.pc.CloseFind? || th.pc.CloseEnter? || th.pc.CloseCall? ||
     th.pc.CloseUnlist? || th.pc.ClosePut1? || th.pc.ClosePut2? || th.pc.CloseDrop? || th.pc.CloseUnlock? ||
     th.pc.SweepList? || th.pc.SweepPut1? || th.pc.SweepPut2?)
  }

  predicate HoldsOpLock(th: Thread, v: nat) {
    InOperation(th) && th.v == v
  }

  /** The service_lock of its device, from one step to the next. */
  predicate InLookup(th: Thread) {
    th.pc.OpenLookup? || th.pc.OpenAdd?
  }

  predicate HoldsDevLock(th: Thread, d: nat) {
    InLookup(th) && th.d == d
  }

  /** The ta_session_lock of its session: a call into the secure world is under way for it. */
  predicate InCall(th: Thread) {
    th.pc.SendCall? || th.pc.CloseCall?
  }

  predicate HoldsSesLock(th: Thread, x: nat) {
    InCall(th) && th.x == x
  }

  predicate IsSweep(th: Thread) {
    th.pc.SweepSlot? || th.pc.SweepList? || th.pc.SweepPut1? || th.pc.SweepPut2? || th.pc.SweepPutSvc? ||
    th.pc.SweepDone?
  }

  /** The thread is making a call, and is no close thread. */
  predicate Busy(th: Thread) {
    !th.pc.Finished? && !IsSweep(th)
  }

  // ----- what a step does to the tables

  /** `PutService` is put_service_struct: the last usage takes the service off the global list and frees it. */
  datatype ServiceOp = KeepService | GetService(v: nat) | PutService(v: nat) | NewService(v: nat, u: nat)
  datatype SlotOp = KeepSlot | SetSlot(k: (nat, nat), slot: Slot) | ClearSlot(k: (nat, nat))
  datatype SessionOp =
    | KeepSession
    | SetSession(x: nat, e: Session)
    | NewSession(x: nat, e: Session)
    | FreeSession(x: nat)
  datatype LockOp = KeepLock | Lock(k: nat) | Release(k: nat)

  datatype Plan = Plan(
    service: ServiceOp,
    slot: SlotOp,
    session: SessionOp,
    devLock: LockOp,
    opLock: LockOp,
    sesLock: LockOp,
    next: Thread)

  function DoService(m: map<nat, Service>, op: ServiceOp): map<nat, Service>
    requires op.GetService? || op.PutService? ==> op.v in m
  {
    match op
    case KeepService => m
    case GetService(v) => m[v := m[v].(usage := m[v].usage + 1)]
    case PutService(v) => if m[v].usage == 1 then m - {v} else m[v := m[v].(usage := m[v].usage - 1)]
    case NewService(v, u) => m[v := Service(u, 1)]
  }

  function DoSlot(m: map<(nat, nat), Slot>, op: SlotOp): map<(nat, nat), Slot> {
    match op
    case KeepSlot => m
    case SetSlot(k, slot) => m[k := slot]
    case ClearSlot(k) => m - {k}
  }

  function DoSession(m: map<nat, Session>, op: SessionOp): map<nat, Session> {
    match op
    case KeepSession => m
    case SetSession(x, e) => m[x := e]
    case NewSession(x, e) => m[x := e]
    case FreeSession(x) => m - {x}
  }

  function DoLock(m: map<nat, nat>, op: LockOp, t: nat): map<nat, nat> {
    match op
    case KeepLock => m
    case Lock(k) => m[k := t]
    case Release(k) => m - {k}
  }

  predicate ServiceKnown(s: State, op: ServiceOp) {
    op.GetService? || op.PutService? ==> op.v in s.services
  }

  function Perform(s: State, t: nat, p: Plan): State
    requires ServiceKnown(s, p.service)
  {
    State(DoService(s.services, p.service), DoSlot(s.slots, p.slot), DoSession(s.sessions, p.session),
          s.threads[t := p.next], DoLock(s.devLock, p.devLock, t), DoLock(s.opLock, p.opLock, t),
          DoLock(s.sesLock, p.sesLock, t), s.closing,
          if p.session.NewSession? then s.nextSession + 1 else s.nextSession,
          if p.session.FreeSession? then s.freed + {p.session.x} else s.freed)
  }

  /** `put_session_struct`: the last usage frees the session. */
  function PutSession(s: State, x: nat): SessionOp
    requires x in s.sessions
  {
    if s.sessions[x].usage == 1 then FreeSession(x) else SetSession(x, s.sessions[x].(usage := s.sessions[x].usage - 1))
  }

  function GetSession(s: State, x: nat): Session
    requires x in s.sessions
  {
    s.sessions[x].(usage := s.sessions[x].usage + 1)
  }

  predicate SlotHas(s: State, d: nat, i: nat, u: nat) {
    i < SERVICES_MAX_COUNT && (d, i) in s.slots && s.slots[(d, i)].svc in s.services &&
    s.services[s.slots[(d, i)].svc].uuid == u
  }

  predicate Matches(s: State, x: nat, v: nat, d: nat) {
    x in s.sessions && s.sessions[x].listed && s.sessions[x].svc == v && s.sessions[x].owner == d
  }

  ghost predicate DeviceKnows(s: State, d: nat, u: nat) {
    exists i: nat :: SlotHas(s, d, i, u)
  }

  ghost predicate HasSlot(s: State, d: nat, v: nat) {
    exists i: nat :: (d, i) in s.slots && s.slots[(d, i)].svc == v
  }

  predicate ServiceIs(s: State, v: nat, u: nat) {
    v in s.services && s.services[v].uuid == u
  }

  predicate OnList(s: State, x: nat, v: nat) {
    x in s.sessions && s.sessions[x].listed && s.sessions[x].svc == v
  }

  datatype Action =
    | Begin(t: nat, call: Thread)
    // open
    | OpenRef(t: nat, i: nat)        // the device has the service: count one more caller
    | OpenRefFull(t: nat, i: nat)    // ... unless service_ref is at its limit
    | OpenMiss(t: nat)
    | OpenTake(t: nat, v: nat)       // another device has the service
    | OpenCreate(t: nat, v: nat)
    | OpenNoMem(t: nat)
    | OpenInsert(t: nat, i: nat)
    | OpenFull(t: nat)
    | OpenAlloc(t: nat)
    | OpenNoSession(t: nat)
    | OpenLock(t: nat)
    | OpenList(t: nat, id: nat)
    | OpenFail(t: nat)
    // find a service, then a session
    | GetByUuid(t: nat, i: nat)
    | NoService(t: nat)
    | FindSession(t: nat, x: nat)
    | NoSession(t: nat)
    // send and close
    | CloseLock(t: nat)
    | LockSession(t: nat)            // ta_session_lock
    | UnlockSession(t: nat)          // the call into the secure world is over
    | TakeOffList(t: nat)
    // shared by the calls
    | DropRef(t: nat, i: nat)        // del_service_from_dev
    | DropNothing(t: nat)            // ... when no slot holds the service
    | DropService(t: nat)            // put_service_struct
    | DropSession(t: nat)            // put_session_struct
    | Unlock(t: nat)                 // operation_lock
    // device close
    | SweepStart(t: nat, d: nat)
    | SweepSkip(t: nat)
    | SweepLock(t: nat)
    | SweepTake(t: nat, x: nat)
    | SweepNone(t: nat)              // no session of the device is left on the list
    | SweepService(t: nat)           // put_service_struct for the slot
    | SweepEnd(t: nat)

  ghost predicate Enabled(s: State, a: Action) {
    if a.Begin? then
      a.t !in s.threads && (a.call.pc.OpenStart? || a.call.pc.SendStart? || a.call.pc.CloseStart?) &&
      a.call.d !in s.closing && a.call.won == None
    else if a.SweepStart? then
      a.t !in s.threads && a.d !in s.closing &&
      forall r: nat :: r in s.threads && Busy(s.threads[r]) ==> s.threads[r].d != a.d
    else
      a.t in s.threads && EnabledAt(s, a, s.threads[a.t])
  }

  ghost predicate OpenEnabled(s: State, a: Action, th: Thread) {
    match a
    case OpenRef(_, i) =>
      th.pc.OpenStart? && th.d !in s.devLock && SlotHas(s, th.d, i, th.u) && s.slots[(th.d, i)].ref != MAX_REF_COUNT
    case OpenRefFull(_, i) =>
      th.pc.OpenStart? && th.d !in s.devLock && SlotHas(s, th.d, i, th.u) && s.slots[(th.d, i)].ref == MAX_REF_COUNT
    case OpenMiss(_) => th.pc.OpenStart? && th.d !in s.devLock && !DeviceKnows(s, th.d, th.u)
    case OpenTake(_, v) => th.pc.OpenLookup? && ServiceIs(s, v, th.u)
    case OpenCreate(_, v) => th.pc.OpenLookup? && (forall w: nat :: !ServiceIs(s, w, th.u)) && v !in s.services
    case OpenNoMem(_) => th.pc.OpenLookup? && forall w: nat :: !ServiceIs(s, w, th.u)
    case OpenInsert(_, i) =>
      th.pc.OpenAdd? && i < SERVICES_MAX_COUNT && (th.d, i) !in s.slots &&
      forall j: nat :: j < i ==> (th.d, j) in s.slots
    case OpenFull(_) => th.pc.OpenAdd? && forall j: nat :: j < SERVICES_MAX_COUNT ==> (th.d, j) in s.slots
    case OpenAlloc(_) => th.pc.OpenReady?
    case OpenNoSession(_) => th.pc.OpenReady?
    case OpenList(_, _) => th.pc.OpenLocked?
    case OpenFail(_) => th.pc.OpenLocked?
    case _ => false
  }

  ghost predicate FindEnabled(s: State, a: Action, th: Thread) {
    match a
    case GetByUuid(_, i) =>
      (th.pc.SendStart? || th.pc.CloseStart?) && th.d !in s.devLock && SlotHas(s, th.d, i, th.u)
    case NoService(_) =>
      (th.pc.SendStart? || th.pc.CloseStart?) && th.d !in s.devLock && !DeviceKnows(s, th.d, th.u)
    case FindSession(_, x) =>
      (th.pc.SendFind? || th.pc.CloseFind?) && Matches(s, x, th.v, th.d) && s.sessions[x].id == th.id
    case NoSession(_) =>
      (th.pc.SendFind? || th.pc.CloseFind?) &&
      forall x: nat :: Matches(s, x, th.v, th.d) ==> s.sessions[x].id != th.id
    case TakeOffList(_) => th.pc.CloseUnlist? && th.x in s.sessions
    case _ => false
  }

  /** The steps that take or give back a lock and do nothing else. */
  predicate LockEnabled(s: State, a: Action, th: Thread) {
    match a
    case OpenLock(_) => th.pc.OpenWait? && th.v !in s.opLock
    case CloseLock(_) => th.pc.CloseWait? && th.v !in s.opLock
    case LockSession(_) => (th.pc.SendWait? || th.pc.CloseEnter?) && th.x !in s.sesLock
    case UnlockSession(_) => th.pc.SendCall? || th.pc.CloseCall?
    case Unlock(_) => th.pc.OpenUnlock? || th.pc.CloseUnlock?
    case _ => false
  }

  ghost predicate DropEnabled(s: State, a: Action, th: Thread) {
    match a
    case DropRef(_, i) =>
      (th.pc.OpenDrop? || th.pc.CloseDrop?) && th.d !in s.devLock &&
      (th.d, i) in s.slots && s.slots[(th.d, i)].svc == th.v && th.v in s.services
    case DropNothing(_) => (th.pc.OpenDrop? || th.pc.CloseDrop?) && th.d !in s.devLock && !HasSlot(s, th.d, th.v)
    case DropService(_) =>
      (th.pc.OpenPutBack? || th.pc.SendPut? || th.pc.SendPutNone? || th.pc.ClosePut?) && th.v in s.services
    case DropSession(_) =>
      (th.pc.SendEnd? || th.pc.ClosePut1? || th.pc.ClosePut2? || th.pc.SweepPut1? || th.pc.SweepPut2?) &&
      th.x in s.sessions
    case _ => false
  }

  ghost predicate SweepEnabled(s: State, a: Action, th: Thread) {
    match a
    case SweepSkip(_) =>
      th.pc.SweepSlot? && th.i < SERVICES_MAX_COUNT &&
      ((th.d, th.i) in s.slots ==> forall x: nat :: !OnList(s, x, s.slots[(th.d, th.i)].svc))
    case SweepLock(_) =>
      th.pc.SweepSlot? && th.i < SERVICES_MAX_COUNT && (th.d, th.i) in s.slots &&
      s.slots[(th.d, th.i)].svc !in s.opLock && exists x: nat :: OnList(s, x, s.slots[(th.d, th.i)].svc)
    case SweepTake(_, x) => th.pc.SweepList? && Matches(s, x, th.v, th.d)
    case SweepNone(_) => th.pc.SweepList? && forall x: nat :: !Matches(s, x, th.v, th.d)
    case SweepService(_) => th.pc.SweepPutSvc? && th.v in s.services
    case SweepEnd(_) => th.pc.SweepSlot? && th.i == SERVICES_MAX_COUNT
    case _ => false
  }

  ghost predicate EnabledAt(s: State, a: Action, th: Thread) {
    OpenEnabled(s, a, th) || FindEnabled(s, a, th) || LockEnabled(s, a, th) || DropEnabled(s, a, th) ||
    SweepEnabled(s, a, th)
  }

  /** A step of thread state only. */
  function Move(next: Thread): Plan {
    Plan(KeepService, KeepSlot, KeepSession, KeepLock, KeepLock, KeepLock, next)
  }

  ghost function OpenPlan(s: State, a: Action, th: Thread): Plan
    requires OpenEnabled(s, a, th)
  {
    match a
    case OpenRef(_, i) =>
      var slot := s.slots[(th.d, i)];
      Move(th.(pc := OpenReady, v := slot.svc)).(slot := SetSlot((th.d, i), Slot(slot.svc, slot.ref + 1)))
    case OpenRefFull(_, _) => Move(th.(pc := Finished))
    case OpenMiss(_) => Move(th.(pc := OpenLookup)).(devLock := Lock(th.d))
    case OpenTake(_, v) => Move(th.(pc := OpenAdd, v := v)).(service := GetService(v))
    case OpenCreate(_, v) => Move(th.(pc := OpenAdd, v := v)).(service := NewService(v, th.u))
    case OpenNoMem(_) => Move(th.(pc := Finished)).(devLock := Release(th.d))
    case OpenInsert(_, i) =>
      Move(th.(pc := OpenReady)).(slot := SetSlot((th.d, i), Slot(th.v, 1)), devLock := Release(th.d))
    case OpenFull(_) => Move(th.(pc := OpenPutBack)).(devLock := Release(th.d))
    case OpenAlloc(_) => Move(th.(pc := OpenWait))
    case OpenNoSession(_) => Move(th.(pc := OpenDrop))
    case OpenList(_, id) =>
      Move(th.(pc := OpenUnlock, x := s.nextSession))
        .(session := NewSession(s.nextSession, Session(id, th.d, th.v, 1, true)))
    case OpenFail(_) => Move(th.(pc := OpenDrop)).(opLock := Release(th.v))
  }

  ghost function FindPlan(s: State, a: Action, th: Thread): Plan
    requires FindEnabled(s, a, th)
  {
    match a
    case GetByUuid(_, i) =>
      var v := s.slots[(th.d, i)].svc;
      Move(th.(pc := if th.pc.SendStart? then SendFind else CloseWait, v := v)).(service := GetService(v))
    case NoService(_) => Move(th.(pc := Finished))
    case FindSession(_, x) =>
      Move(th.(pc := if th.pc.SendFind? then SendPut else CloseEnter, x := x))
        .(session := SetSession(x, GetSession(s, x)))
    case NoSession(_) => Move(th.(pc := if th.pc.SendFind? then SendPutNone else CloseUnlock))
    case TakeOffList(_) =>
      Move(th.(pc := ClosePut1, won := Some(th.x))).(session := SetSession(th.x, s.sessions[th.x].(listed := false)))
  }

  ghost function LockPlan(s: State, a: Action, th: Thread): Plan
    requires LockEnabled(s, a, th)
  {
    match a
    case OpenLock(_) => Move(th.(pc := OpenLocked)).(opLock := Lock(th.v))
    case CloseLock(_) => Move(th.(pc := CloseFind)).(opLock := Lock(th.v))
    case LockSession(_) =>
      Move(th.(pc := if th.pc.SendWait? then SendCall else CloseCall)).(sesLock := Lock(th.x))
    case UnlockSession(_) =>
      Move(th.(pc := if th.pc.SendCall? then SendEnd else CloseUnlist)).(sesLock := Release(th.x))
    case Unlock(_) => Move(th.(pc := if th.pc.CloseUnlock? then ClosePut else Finished)).(opLock := Release(th.v))
  }

  ghost function DropPlan(s: State, a: Action, th: Thread): Plan
    requires DropEnabled(s, a, th)
  {
    match a
    case DropRef(_, i) =>
      var ref := s.slots[(th.d, i)].ref;
      var m := Move(th.(pc := if th.pc.OpenDrop? then Finished else CloseUnlock));
      if ref == 0 then m
      else if ref == 1 then m.(slot := ClearSlot((th.d, i)), service := PutService(th.v))
      else m.(slot := SetSlot((th.d, i), Slot(th.v, ref - 1)))
    case DropNothing(_) => Move(th.(pc := if th.pc.OpenDrop? then Finished else CloseUnlock))
    case DropService(_) =>
      Move(th.(pc := if th.pc.SendPut? then SendWait else Finished)).(service := PutService(th.v))
    case DropSession(_) =>
      Move(th.(pc := if th.pc.ClosePut1? then ClosePut2 else if th.pc.ClosePut2? then CloseDrop
                     else if th.pc.SweepPut1? then SweepPut2 else if th.pc.SweepPut2? then SweepList else Finished))
        .(session := PutSession(s, th.x))
  }

  ghost function SweepPlan(s: State, a: Action, th: Thread): Plan
    requires SweepEnabled(s, a, th)
  {
    match a
    case SweepSkip(_) => Move(th.(i := th.i + 1))
    case SweepLock(_) =>
      var v := s.slots[(th.d, th.i)].svc;
      Move(th.(pc := SweepList, v := v)).(opLock := Lock(v))
    case SweepTake(_, x) =>
      Move(th.(pc := SweepPut1, x := x)).(session := SetSession(x, GetSession(s, x).(listed := false)))
    case SweepNone(_) => Move(th.(pc := SweepPutSvc)).(opLock := Release(th.v))
    case SweepService(_) =>
      // the device file is about to be freed: its slot stops counting
      Move(th.(pc := SweepSlot, i := th.i + 1)).(slot := ClearSlot((th.d, th.i)), service := PutService(th.v))
    case SweepEnd(_) => Move(th.(pc := SweepDone))
  }

  /** What each step of a running thread does. */
  ghost function PlanOf(s: State, a: Action, th: Thread): Plan
    requires EnabledAt(s, a, th)
  {
    if OpenEnabled(s, a, th) then OpenPlan(s, a, th)
    else if FindEnabled(s, a, th) then FindPlan(s, a, th)
    else if LockEnabled(s, a, th) then LockPlan(s, a, th)
    else if DropEnabled(s, a, th) then DropPlan(s, a, th)
    else SweepPlan(s, a, th)
  }

  // ----- a step uses services that exist

  lemma PlanServiceKnown(s: State, a: Action, th: Thread)
    requires EnabledAt(s, a, th)
    ensures ServiceKnown(s, PlanOf(s, a, th).service)
  {
    if OpenEnabled(s, a, th) { OpenServiceKnown(s, a, th); }
    else if FindEnabled(s, a, th) { FindServiceKnown(s, a, th); }
    else if LockEnabled(s, a, th) { LockServiceKnown(s, a, th); }
    else if DropEnabled(s, a, th) { DropServiceKnown(s, a, th); }
    else { SweepServiceKnown(s, a, th); }
  }

  lemma OpenServiceKnown(s: State, a: Action, th: Thread)
    requires OpenEnabled(s, a, th)
    ensures ServiceKnown(s, OpenPlan(s, a, th).service)
  {
    match a
    case OpenMiss(_) | OpenTake(_, _) | OpenCreate(_, _) | OpenRef(_, _) | OpenRefFull(_, _) | OpenNoMem(_) =>
    case OpenInsert(_, _) | OpenFull(_) | OpenAlloc(_) | OpenNoSession(_) | OpenList(_, _) | OpenFail(_) =>
  }

  lemma FindServiceKnown(s: State, a: Action, th: Thread)
    requires FindEnabled(s, a, th)
    ensures ServiceKnown(s, FindPlan(s, a, th).service)
  {
    match a
    case GetByUuid(_, _) | NoService(_) | FindSession(_, _) | NoSession(_) | TakeOffList(_) =>
  }

  lemma LockServiceKnown(s: State, a: Action, th: Thread)
    requires LockEnabled(s, a, th)
    ensures ServiceKnown(s, LockPlan(s, a, th).service)
  {
    match a
    case OpenLock(_) | CloseLock(_) | LockSession(_) | UnlockSession(_) | Unlock(_) =>
  }

  lemma DropServiceKnown(s: State, a: Action, th: Thread)
    requires DropEnabled(s, a, th)
    ensures ServiceKnown(s, DropPlan(s, a, th).service)
  {
    match a
    case DropRef(_, _) | DropNothing(_) | DropService(_) | DropSession(_) =>
  }

  lemma SweepServiceKnown(s: State, a: Action, th: Thread)
    requires SweepEnabled(s, a, th)
    ensures ServiceKnown(s, SweepPlan(s, a, th).service)
  {
    match a
    case SweepSkip(_) | SweepLock(_) | SweepTake(_, _) | SweepNone(_) | SweepService(_) | SweepEnd(_) =>
  }

  ghost function Apply(s: State, a: Action): State
    requires Enabled(s, a)
  {
    if a.Begin? then s.(threads := s.threads[a.t := a.call])
    else if a.SweepStart? then
      s.(closing := s.closing[a.d := a.t], threads := s.threads[a.t := Thread(SweepSlot, a.d, 0, 0, 0, 0, 0, None)])
    else
      PlanServiceKnown(s, a, s.threads[a.t]);
      Perform(s, a.t, PlanOf(s, a, s.threads[a.t]))
  }

  predicate Init(s: State) {
    s.services == map[] && s.slots == map[] && s.sessions == map[] && s.threads == map[] && s.devLock == map[] &&
    s.opLock == map[] && s.sesLock == map[] && s.closing == map[] && s.nextSession == 0 && s.freed == {}
  }

  ghost predicate Run(ss: seq<State>, acts: seq<Action>) {
    |ss| == |acts| + 1 && Init(ss[0]) &&
    forall k :: 0 <= k < |acts| ==> Enabled(ss[k], acts[k]) && ss[k + 1] == Apply(ss[k], acts[k])
  }
}
