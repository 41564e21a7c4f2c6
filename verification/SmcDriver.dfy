/**
  The queue in memory against the protocol: the methods on the shared slots, called as the retry loop calls them
  (core/smc_smp.c), take the slots through exactly the states of the protocol.
 */
module SmcDriver {
  import opened SmcQueue
  import opened SmcProtocol

  /** The slots after a step of the secure side. */
  method SecureStep(q: Queue, s: State, a: Action)
    requires SameLengths(s) && Enabled(s, a) && (a.Take? || a.Respond?) && q.slots[..] == s.slots
    modifies q.slots
    ensures q.slots[..] == Apply(s, a).slots
  {
    if a.Take? {
      q.slots[a.i] := q.slots[a.i].(doing := true);
    } else {
      q.slots[a.i] := q.slots[a.i].(outCmd := s.taken[a.i].value.(ret := a.ret));
      q.slots[a.i] := q.slots[a.i].(out := true);
    }
  }

  /** `smc_ops_normal`, up to the end of its first hold of the lock. */
  method OpsStep(q: Queue, s: State, c: nat)
    requires SameLengths(s) && Enabled(s, OpsNormal(c)) && q.slots[..] == s.slots
    modifies q.slots
    ensures q.slots[..] == Apply(s, OpsNormal(c)).slots
  {
    var call := s.calls[c];
    if call.ops != Normal {
      return;
    }
    if call.usage == Resend {
      var _ := q.ReuseEntry(call.cmdIndex);
    } else {
      var _ := q.OccupyFree(Fresh(c));
    }
  }

  /** The other steps of a call that touch its slot. */
  method SlotStep(q: Queue, s: State, a: Action)
    requires SameLengths(s) && Enabled(s, a) && !a.Take? && !a.Respond? && !a.OpsNormal? && q.slots[..] == s.slots
    modifies q.slots
    ensures q.slots[..] == Apply(s, a).slots
  {
    match a
    case Stamp(c) => q.Stamp(s.calls[c].cmdIndex);
    case Seal(c) => q.Seal(s.calls[c].cmdIndex);
    case Publish(c) => q.Publish(s.calls[c].cmdIndex);
    case BuildFail(c) =>
      if s.calls[c].pc == Building { q.CleanEntry(s.calls[c].cmdIndex); } else { q.ReleaseEntry(s.calls[c].cmdIndex); }
    case ReleaseUnusable(c) => q.ReleaseEntry(s.calls[c].cmdIndex);
    case Abort(c) =>
      var _ := q.SetAbort(s.calls[c].cmdIndex);
    case Collect(c) =>
      var _, _ := q.CopyOut(s.calls[c].cmdIndex);
    case CleanUp(c) =>
      if s.calls[c].usage != Clear && s.calls[c].result != Suspended { q.ReleaseEntry(s.calls[c].cmdIndex); }
    case _ =>
  }

  /** Any step, by its critical section on the shared slots. */
  method Step(q: Queue, s: State, a: Action)
    requires SameLengths(s) && Enabled(s, a) && q.slots[..] == s.slots
    modifies q.slots
    ensures q.slots[..] == Apply(s, a).slots
  {
    if a.Take? || a.Respond? {
      SecureStep(q, s, a);
    } else if a.OpsNormal? {
      OpsStep(q, s, a.c);
    } else {
      SlotStep(q, s, a);
    }
  }

  /** The critical sections of a whole run, one after the other, leave the shared slots as the run says. */
  method Replay(q: Queue, ss: seq<State>, acts: seq<Action>)
    requires Run(ss, acts) && q.slots[..] == ss[0].slots
    modifies q.slots
    ensures q.slots[..] == ss[|acts|].slots
  {
    var k := 0;
    while k < |acts|
      invariant k <= |acts| && q.slots[..] == ss[k].slots
    {
      Step(q, ss[k], acts[k]);
      k := k + 1;
    }
  }
}
