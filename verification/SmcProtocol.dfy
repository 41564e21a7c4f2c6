/**
  Any number of calls running `smp_smc_send_func` against the secure side, one atomic step per
  critical section of the queue lock and per decision of the retry loop (core/smc_smp.c).
 */
module SmcProtocol {
  import opened Options
  import opened SmcQueue

  /**
    What a call came back with. `Crashed` is the exit after a TEE crash or an invalid work state; `Refused` is a resend
    that came back before it began, because there was no memory for it or the TEE had crashed.
   */
  datatype Result = Undecided | Finished | Suspended | Crashed | Refused | Failed

  datatype Usage = Clear | Resend
  datatype Ops = Normal | SchedTo | AbortTask

  /** Program points of `smp_smc_send_func`. */
  datatype Pc =
    | Retry        // at the retry label, before smc_ops_normal
    | Building     // slot claimed, command being set up outside the lock
    | Rebuilding   // slot reused, command being set up outside the lock
    | Unusable     // the slot cannot be reused, before its release
    | Send         // command published, before the SMC
    | Poll         // SMC returned, before the test of the out bit
    | NotDone      // out bit seen clear
    | Done         // out bit seen set
    | Clean        // before clean_smc_resrc
    | Returned

  datatype Call = Call(
    pc: Pc, cmdIndex: nat, savedIndex: nat, usage: Usage, ops: Ops, serial: nat, cmd: Cmd, result: Result)

  /** An answer as a call collected it. */
  datatype Delivery = Delivery(call: nat, serial: nat, answer: Cmd)

  /**
    `taken[i]` is what the secure side holds of slot `i`; `owner[i]` is the call that claimed slot `i`
    (a history variable: no step reads it).
   */
  datatype State = State(
    slots: seq<Slot>,
    taken: seq<Option<Cmd>>,
    calls: map<nat, Call>,
    owner: seq<Option<nat>>,
    delivered: seq<Delivery>)

  datatype Action =
    | Start(c: nat)               // smp_smc_send_func(in, false)
    | StartFails(c: nat)          // ... without memory for its pending entry
    | Resume(c: nat)              // smp_smc_send_func(in, true), after a TEEC_PENDING return
    | ResumeFails(c: nat)         // ... without memory for its pending entry, or after a crash
    | OpsNormal(c: nat)           // smc_ops_normal, up to the end of its first critical section
    | ReleaseUnusable(c: nat)     // release_smc_entry after a refused reuse
    | Stamp(c: nat)               // update_timestamp
    | Seal(c: nat)                // update_chksum
    | BuildFail(c: nat)           // one of the two failed
    | Publish(c: nat)             // clear doing, rest of smc_ops_normal
    | SmcReturns(c: nat)
    | SmcFails(c: nat)            // power failure or TSP_CRASH
    | PollOut(c: nat)             // is_cmd_working_done
    | WaitAgain(c: nat)           // back to the secure side without an answer
    | SeenDone(c: nat)            // proc_ta_pending returns PD_DONE
    | Abort(c: nat)               // process_abort_cmd
    | InvalidState(c: nat)
    | Collect(c: nat)             // handle_cmd_working_done
    | CleanUp(c: nat)             // clean_smc_resrc
    | Take(i: nat)                // the secure side takes a command
    | Respond(i: nat, ret: Ret)   // the secure side posts an answer

  predicate At(s: State, c: nat, pc: Pc) {
    c in s.calls && s.calls[c].pc == pc &&
    (pc in {Building, Rebuilding, Unusable, Send, Poll, NotDone, Done} ==> s.calls[c].cmdIndex < |s.slots|)
  }

  predicate SameLengths(s: State) {
    |s.taken| == |s.slots| && |s.owner| == |s.slots|
  }

  predicate Enabled(s: State, a: Action)
    requires SameLengths(s)
  {
    match a
    case Start(c) => c !in s.calls
    case StartFails(c) => c !in s.calls
    case Resume(c) => At(s, c, Returned) && s.calls[c].result == Suspended
    case ResumeFails(c) => At(s, c, Returned) && s.calls[c].result == Suspended
    case ReleaseUnusable(c) => At(s, c, Unusable)
    case OpsNormal(c) => At(s, c, Retry) && (s.calls[c].usage == Resend ==> s.calls[c].cmdIndex < |s.slots|)
    case Stamp(c) => At(s, c, Building) || At(s, c, Rebuilding)
    case Seal(c) => (At(s, c, Building) || At(s, c, Rebuilding)) && s.slots[s.calls[c].cmdIndex].inCmd.stamped
    case BuildFail(c) => At(s, c, Building) || At(s, c, Rebuilding)
    case Publish(c) =>
      (At(s, c, Building) || At(s, c, Rebuilding)) &&
      s.slots[s.calls[c].cmdIndex].inCmd.stamped && s.slots[s.calls[c].cmdIndex].inCmd.sealed
    case SmcReturns(c) => At(s, c, Send)
    case SmcFails(c) => At(s, c, Send)
    case PollOut(c) => At(s, c, Poll)
    case WaitAgain(c) => At(s, c, NotDone)
    case SeenDone(c) => At(s, c, NotDone) && s.slots[s.calls[c].cmdIndex].out
    case Abort(c) => At(s, c, NotDone)
    case InvalidState(c) => At(s, c, NotDone)
    case Collect(c) => At(s, c, Done)
    case CleanUp(c) => At(s, c, Clean) && s.calls[c].cmdIndex < |s.slots|
    // the secure side: takes a published command, and answers only what it took
    case Take(i) => i < |s.slots| && s.slots[i].inBit && !s.slots[i].doing
    case Respond(i, ret) => i < |s.slots| && s.taken[i].Some?
  }

  function Go(s: State, c: nat, call: Call): (r: State)
    ensures r.slots == s.slots && r.taken == s.taken && r.owner == s.owner
  {
    s.(calls := s.calls[c := call])
  }

  function PutSlot(s: State, i: nat, slot: Slot): (r: State)
    requires i < |s.slots|
  {
    s.(slots := s.slots[i := slot])
  }

  /** Write slot `i` and, when that clears its in bit, end its ownership. */
  function GiveUp(s: State, i: nat, slot: Slot): (r: State)
    requires i < |s.slots| && SameLengths(s)
  {
    s.(slots := s.slots[i := slot], owner := s.owner[i := None])
  }

  function Fresh(c: nat): Cmd {
    Cmd(c, 1, 0, false, false, false, Final)
  }

  function Apply(s: State, a: Action): (r: State)
    requires SameLengths(s) && Enabled(s, a)
    ensures SameLengths(r) && |r.slots| == |s.slots|
  {
    match a
    case Start(c) => Go(s, c, Call(Retry, 0, 0, Clear, Normal, 0, Fresh(c), Undecided))
    case StartFails(c) => Go(s, c, Call(Returned, 0, 0, Clear, Normal, 0, Fresh(c), Failed))
    case ResumeFails(c) => Go(s, c, s.calls[c].(result := Refused))
    case ReleaseUnusable(c) =>
      var i := s.calls[c].cmdIndex;
      Go(GiveUp(s, i, Released(s.slots[i])), c, s.calls[c].(pc := Returned, result := Failed))
    case Resume(c) =>
      var call := s.calls[c];
      Go(s, c, call.(pc := Retry, cmdIndex := call.cmd.eventNr, savedIndex := call.cmd.eventNr,
                     usage := Resend, ops := Normal, result := Undecided))
    case OpsNormal(c) =>
      var call := s.calls[c];
      if call.ops != Normal then Go(s, c, call.(pc := Send))
      else if call.usage == Resend then ApplyReuse(s, c)
      else ApplyOccupy(s, c)
    case Stamp(c) =>
      var i := s.calls[c].cmdIndex;
      PutSlot(s, i, Stamped(s.slots[i]))
    case Seal(c) =>
      var i := s.calls[c].cmdIndex;
      PutSlot(s, i, Sealed(s.slots[i]))
    case BuildFail(c) =>
      var call := s.calls[c];
      var i := call.cmdIndex;
      Go(GiveUp(s, i, if call.pc == Building then Cleaned(s.slots[i]) else Released(s.slots[i])),
         c, call.(pc := Returned, result := Failed))
    case Publish(c) =>
      var call := s.calls[c];
      var i := call.cmdIndex;
      Go(PutSlot(s, i, Published(s.slots[i])), c,
         if call.usage != Clear then call.(pc := Send, cmdIndex := call.savedIndex, usage := Clear)
         else call.(pc := Send, savedIndex := call.cmdIndex))
    case SmcReturns(c) => Go(s, c, s.calls[c].(pc := Poll))
    case SmcFails(c) => Go(s, c, s.calls[c].(pc := Clean, result := Crashed))
    case PollOut(c) =>
      Go(s, c, s.calls[c].(pc := if s.slots[s.calls[c].cmdIndex].out then Done else NotDone))
    case WaitAgain(c) => Go(s, c, s.calls[c].(pc := Retry, ops := SchedTo))
    case SeenDone(c) => Go(s, c, s.calls[c].(pc := Done))
    case Abort(c) =>
      var call := s.calls[c];
      var i := call.cmdIndex;
      if s.slots[i].doing then Go(PutSlot(s, i, Aborted(s.slots[i])), c, call.(pc := Retry, ops := AbortTask))
      else Go(s, c, call.(pc := Retry, ops := SchedTo))
    case InvalidState(c) => Go(s, c, s.calls[c].(pc := Clean, result := Crashed))
    case Collect(c) => ApplyCollect(s, c)
    case CleanUp(c) =>
      var call := s.calls[c];
      var t := if call.usage != Clear && call.result != Suspended
               then GiveUp(s, call.cmdIndex, Released(s.slots[call.cmdIndex])) else s;
      Go(t, c, call.(pc := Returned))
    case Take(i) =>
      s.(slots := s.slots[i := s.slots[i].(doing := true)], taken := s.taken[i := Some(s.slots[i].inCmd)])
    case Respond(i, ret) =>
      s.(slots := s.slots[i := s.slots[i].(out := true, outCmd := s.taken[i].value.(ret := ret))],
         taken := s.taken[i := None])
  }

  /** The resend branch of `smc_ops_normal`: take over the slot, or find that it cannot be reused. */
  function ApplyReuse(s: State, c: nat): (r: State)
    requires SameLengths(s) && c in s.calls && s.calls[c].cmdIndex < |s.slots|
    ensures SameLengths(r) && |r.slots| == |s.slots|
  {
    var call := s.calls[c];
    var i := call.cmdIndex;
    if Reusable(s.slots[i]) then
      Go(PutSlot(s, i, Reused(s.slots[i])), c, call.(pc := Rebuilding, serial := call.serial + 1))
    else
      Go(s, c, call.(pc := Unusable))
  }

  /** The fresh branch of `smc_ops_normal`: claim the first free slot, or fail. */
  function ApplyOccupy(s: State, c: nat): (r: State)
    requires SameLengths(s) && c in s.calls
    ensures SameLengths(r) && |r.slots| == |s.slots|
  {
    var call := s.calls[c];
    var i := FirstFree(s.slots);
    if i == |s.slots| then Go(s, c, call.(pc := Returned, result := Failed))
    else
      var t := PutSlot(s, i, Occupied(s.slots[i], Fresh(c), i));
      Go(t.(owner := t.owner[i := Some(c)]), c, call.(pc := Building, cmdIndex := i, serial := 1))
  }

  /** Collect the answer and decide by its return value. */
  function ApplyCollect(s: State, c: nat): (r: State)
    requires SameLengths(s) && c in s.calls && s.calls[c].cmdIndex < |s.slots|
    ensures SameLengths(r) && |r.slots| == |s.slots|
  {
    var call := s.calls[c];
    var i := call.cmdIndex;
    if !s.slots[i].out then
      Go(s, c, call.(pc := Clean, result := Crashed))   // "cmd out is not ready"
    else
      var answer := s.slots[i].outCmd;
      var t := s.(delivered := s.delivered + [Delivery(c, call.serial, answer)]);
      match answer.ret
      case Pending2 =>
        Go(PutSlot(t, i, Collected(s.slots[i])), c, call.(pc := Retry, usage := Resend, ops := Normal, cmd := answer))
      case Pending =>
        Go(PutSlot(t, i, Collected(s.slots[i])), c,
           call.(pc := Clean, usage := Resend, result := Suspended, cmd := answer))
      case Final =>
        Go(GiveUp(t, i, Collected(s.slots[i])), c,
           call.(pc := Clean, usage := Clear, result := Finished, cmd := answer))
  }

  /** Nothing submitted, nothing taken. */
  predicate Init(s: State) {
    SameLengths(s) && s.calls == map[] && s.delivered == [] &&
    forall i :: 0 <= i < |s.slots| ==>
      !s.slots[i].inBit && !s.slots[i].doing && !s.slots[i].out && s.taken[i] == None && s.owner[i] == None
  }

  /** A run: the states passed through under a sequence of actions. */
  ghost predicate Run(ss: seq<State>, acts: seq<Action>) {
    |ss| == |acts| + 1 && Init(ss[0]) &&
    forall k :: 0 <= k < |acts| ==>
      SameLengths(ss[k]) && Enabled(ss[k], acts[k]) && ss[k + 1] == Apply(ss[k], acts[k])
  }

  // ----- what the driver's comments do not promise

  /** The action aborts no command whose answer is already posted. */
  predicate AbortsUnanswered(s: State, a: Action) {
    a.Abort? && At(s, a.c, NotDone) ==> !s.slots[s.calls[a.c].cmdIndex].out
  }

  /** The secure side posts no answer while an abort has cleared the doing bit of the slot. */
  predicate AnswersWhileDoing(s: State, a: Action) {
    a.Respond? && a.i < |s.slots| ==> s.slots[a.i].doing
  }
}
