/**
  The shared command queue (core/smc_smp.h, core/smc_smp.c): the in, doing and out bits of every
  slot with its two command copies, and one method per critical section of the queue lock.
 */
module SmcQueue {
  import opened Options

  /** `Pending` and `Pending2` are the two return values that keep the slot for a resend. */
  datatype Ret = Final | Pending | Pending2

  /**
    A command as it travels through a slot. `caller` and `serial` identify the submission it stems from
    (a call and the number of commands that call has submitted); `stamped` and `sealed` record the two set-up
    steps done outside the lock; `kill` marks a command rewritten by an abort.
   */
  datatype Cmd = Cmd(caller: nat, serial: nat, eventNr: nat, stamped: bool, sealed: bool, kill: bool, ret: Ret)

  datatype Slot = Slot(inBit: bool, doing: bool, out: bool, inCmd: Cmd, outCmd: Cmd)

  predicate Complete(cmd: Cmd) {
    (cmd.stamped && cmd.sealed) || cmd.kill
  }

  // ----- the critical sections, as functions on one slot

  function Occupied(slot: Slot, cmd: Cmd, i: nat): Slot {
    slot.(inBit := true, doing := true, inCmd := cmd.(eventNr := i))
  }

  function Stamped(slot: Slot): Slot {
    slot.(inCmd := slot.inCmd.(stamped := true))
  }

  function Sealed(slot: Slot): Slot {
    slot.(inCmd := slot.inCmd.(sealed := true))
  }

  function Published(slot: Slot): Slot {
    slot.(doing := false)
  }

  function Cleaned(slot: Slot): Slot {
    slot.(inBit := false, doing := false)
  }

  function Released(slot: Slot): Slot {
    slot.(inBit := false, doing := false, out := false)
  }

  function Resubmitted(cmd: Cmd): Cmd {
    cmd.(serial := cmd.serial + 1, stamped := false, sealed := false, kill := false)
  }

  predicate Reusable(slot: Slot) {
    slot.inBit && slot.doing
  }

  function Reused(slot: Slot): Slot {
    slot.(inCmd := Resubmitted(slot.outCmd))
  }

  function Collected(slot: Slot): Slot {
    if slot.outCmd.ret == Final then Released(slot) else slot.(out := false)
  }

  function Aborted(slot: Slot): Slot {
    slot.(inCmd := slot.inCmd.(kill := true), doing := false)
  }

  /** The least slot whose in bit is clear, or the number of slots. */
  function FirstFree(slots: seq<Slot>): (i: nat)
    ensures i <= |slots|
    ensures forall j :: 0 <= j < i ==> slots[j].inBit
    ensures i < |slots| ==> !slots[i].inBit
  {
    if slots == [] || !slots[0].inBit then 0 else 1 + FirstFree(slots[1..])
  }

  /** The queue shared with the secure side; every method is one hold of the queue lock. */
  class Queue {
    const slots: array<Slot>

    constructor (a: array<Slot>)
      ensures slots == a
    {
      slots := a;
    }

    /** Claim the first free slot, with both its in and its doing bit set. */
    method OccupyFree(cmd: Cmd) returns (idx: Option<nat>)
      modifies slots
      ensures var i := FirstFree(old(slots[..]));
        if i == slots.Length then idx == None && slots[..] == old(slots[..])
        else idx == Some(i) && slots[..] == old(slots[..])[i := Occupied(old(slots[..])[i], cmd, i)]
    {
      var i := 0;
      while i < slots.Length && slots[i].inBit
        invariant 0 <= i <= slots.Length
        invariant forall j :: 0 <= j < i ==> slots[j].inBit
      {
        i := i + 1;
      }
      FirstFreeIs(slots[..], i);
      if i == slots.Length {
        return None;
      }
      slots[i] := slots[i].(inCmd := cmd);
      slots[i] := slots[i].(inCmd := slots[i].inCmd.(eventNr := i));
      slots[i] := slots[i].(inBit := true);
      slots[i] := slots[i].(doing := true);
      idx := Some(i);
    }

    /** The time stamp of a command is updated, outside the lock. */
    method Stamp(idx: nat)
      requires idx < slots.Length
      modifies slots
      ensures slots[..] == old(slots[..])[idx := Stamped(old(slots[idx]))]
    {
      slots[idx] := slots[idx].(inCmd := slots[idx].inCmd.(stamped := true));
    }

    /** The checksum of a command is updated, outside the lock. */
    method Seal(idx: nat)
      requires idx < slots.Length
      modifies slots
      ensures slots[..] == old(slots[..])[idx := Sealed(old(slots[idx]))]
    {
      slots[idx] := slots[idx].(inCmd := slots[idx].inCmd.(sealed := true));
    }

    /** The command is set up: the secure side may take it. */
    method Publish(idx: nat)
      requires idx < slots.Length
      modifies slots
      ensures slots[..] == old(slots[..])[idx := Published(old(slots[idx]))]
    {
      slots[idx] := slots[idx].(doing := false);
    }

    /** The set-up of a fresh command failed: the slot is free again. */
    method CleanEntry(idx: nat)
      requires idx < slots.Length
      modifies slots
      ensures slots[..] == old(slots[..])[idx := Cleaned(old(slots[idx]))]
    {
      slots[idx] := slots[idx].(inBit := false);
      slots[idx] := slots[idx].(doing := false);
    }

    /** Give up a slot whatever its state. */
    method ReleaseEntry(idx: nat)
      requires idx < slots.Length
      modifies slots
      ensures slots[..] == old(slots[..])[idx := Released(old(slots[idx]))]
    {
      slots[idx] := slots[idx].(inBit := false);
      slots[idx] := slots[idx].(doing := false);
      slots[idx] := slots[idx].(out := false);
    }

    /** First half of a reuse: the last answer becomes the next command, if the slot is still ours. */
    method ReuseEntry(idx: nat) returns (ok: bool)
      requires idx < slots.Length
      modifies slots
      ensures ok == old(Reusable(slots[idx]))
      ensures slots[..] == if ok then old(slots[..])[idx := Reused(old(slots[idx]))] else old(slots[..])
    {
      ok := slots[idx].inBit && slots[idx].doing;
      if ok {
        slots[idx] := slots[idx].(inCmd := Resubmitted(slots[idx].outCmd));
      }
    }

    /** Collect the answer; only a final one gives the slot up. */
    method CopyOut(idx: nat) returns (copy: Option<Cmd>, resend: bool)
      requires idx < slots.Length
      modifies slots
      ensures copy == if old(slots[idx].out) then Some(old(slots[idx].outCmd)) else None
      ensures slots[..] == if copy.Some? then old(slots[..])[idx := Collected(old(slots[idx]))] else old(slots[..])
      ensures resend <==> copy.Some? && copy.value.ret != Final
    {
      copy, resend := None, false;
      if !slots[idx].out {
        return;
      }
      copy := Some(slots[idx].outCmd);
      if slots[idx].outCmd.ret == Pending2 || slots[idx].outCmd.ret == Pending {
        resend := true;
      } else {
        slots[idx] := slots[idx].(inBit := false);
        slots[idx] := slots[idx].(doing := false);
      }
      slots[idx] := slots[idx].(out := false);
    }

    /** Rewrite a command the secure side has taken into a kill, and offer it again. */
    method SetAbort(idx: nat) returns (ok: bool)
      requires idx < slots.Length
      modifies slots
      ensures ok == old(slots[idx].doing)
      ensures slots[..] == if ok then old(slots[..])[idx := Aborted(old(slots[idx]))] else old(slots[..])
    {
      ok := slots[idx].doing;
      if ok {
        slots[idx] := slots[idx].(inCmd := slots[idx].inCmd.(kill := true));
        slots[idx] := slots[idx].(doing := false);
      }
    }
  }

  lemma FirstFreeIs(slots: seq<Slot>, i: nat)
    requires i <= |slots| && (forall j :: 0 <= j < i ==> slots[j].inBit) && (i < |slots| ==> !slots[i].inBit)
    ensures FirstFree(slots) == i
  {
  }
}
