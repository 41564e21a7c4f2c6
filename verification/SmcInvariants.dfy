/**
  What every interleaving of the calls and the secure side keeps: exclusive slots, no half-built
  command offered, slots given back, and (when no answered command is aborted) answers that match.
 */
module SmcInvariants {
  import opened Options
  import opened SmcQueue
  import opened SmcProtocol

  /** Program points at which a call has a slot. */
  predicate Holds(call: Call) {
    match call.pc
    case Retry => call.usage == Resend || call.ops != Normal
    case Building | Rebuilding | Unusable | Send | Poll | NotDone | Done => true
    case Clean | Returned => call.result == Suspended || call.result == Crashed || call.result == Refused
  }

  /** Between publishing a command and having its answer collected. */
  predicate Waiting(call: Call) {
    match call.pc
    case Retry => call.usage == Clear && call.ops != Normal
    case Send | Poll | NotDone | Done => true
    case Clean | Returned => call.result == Crashed
    case Building | Rebuilding | Unusable => false
  }

  /** A collected answer asked for a resend that has not been built yet. */
  predicate Resending(call: Call) {
    match call.pc
    case Retry => call.usage == Resend
    case Unusable => true
    case Clean | Returned => call.result == Suspended || call.result == Refused
    case _ => false
  }

  /** The call has left by the crash exit. */
  predicate Dead(call: Call) {
    (call.pc == Clean || call.pc == Returned) && call.result == Crashed
  }

  // ----- the part that holds in every run

  /** How the variables of the retry loop go together at each point. */
  predicate LocalOk(call: Call) {
    match call.pc
    case Retry => (call.usage == Resend ==> call.ops == Normal) && (Holds(call) ==> call.savedIndex == call.cmdIndex)
    case Building => call.usage == Clear && call.ops == Normal
    case Rebuilding | Unusable => call.usage == Resend && call.ops == Normal && call.savedIndex == call.cmdIndex
    case Send | Poll | NotDone | Done => call.usage == Clear && call.savedIndex == call.cmdIndex
    case Clean =>
      (call.result == Finished || call.result == Crashed || call.result == Suspended) &&
      (call.result == Suspended <==> call.usage == Resend) && call.savedIndex == call.cmdIndex
    case Returned => call.result != Undecided
  }

  predicate HolderOk(call: Call, i: nat, slot: Slot) {
    Holds(call) && call.cmdIndex == i &&
    match call.pc
    case Building | Rebuilding => slot.doing
    case Done => slot.out && Complete(slot.inCmd)
    case _ =>
      Complete(slot.inCmd) &&
      (Resending(call) ==> slot.outCmd.eventNr == i && call.cmd.eventNr == i)
  }

  predicate SlotOk(s: State, i: nat)
    requires SameLengths(s) && i < |s.slots|
  {
    var slot := s.slots[i];
    (slot.inBit <==> s.owner[i].Some?) &&
    (!slot.inBit ==> !slot.doing) &&
    (slot.inBit ==> slot.inCmd.eventNr == i) &&
    (slot.out ==> slot.outCmd.eventNr == i) &&
    (s.taken[i].Some? ==> s.taken[i].value.eventNr == i) &&
    (s.owner[i].Some? ==> s.owner[i].value in s.calls && HolderOk(s.calls[s.owner[i].value], i, slot))
  }

  predicate CallOk(s: State, c: nat)
    requires SameLengths(s) && c in s.calls
  {
    var call := s.calls[c];
    LocalOk(call) && (Holds(call) ==> call.cmdIndex < |s.slots| && s.owner[call.cmdIndex] == Some(c)) &&
    (call.pc == Clean ==> call.cmdIndex < |s.slots|)
  }

  ghost predicate Inv(s: State) {
    SameLengths(s) &&
    (forall i: nat :: i < |s.slots| ==> SlotOk(s, i)) &&
    (forall c: nat :: c in s.calls ==> CallOk(s, c))
  }

  /** A step that touches only call `c` and slot `i` keeps the invariant if it keeps it for those two. */
  lemma FrameInv(s: State, r: State, c: nat, i: nat)
    requires Inv(s) && SameLengths(r) && |r.slots| == |s.slots|
    requires forall j: nat :: j < |s.slots| && j != i ==>
      r.slots[j] == s.slots[j] && r.taken[j] == s.taken[j] && r.owner[j] == s.owner[j]
    requires forall d: nat :: d != c ==> (d in r.calls <==> d in s.calls) && (d in s.calls ==> r.calls[d] == s.calls[d])
    requires i < |r.slots| ==> SlotOk(r, i)
    requires c in r.calls ==> CallOk(r, c)
    requires i < |s.slots| ==>
      (s.owner[i] == None || s.owner[i] == Some(c)) && (r.owner[i] == None || r.owner[i] == Some(c))
    requires c in s.calls && Holds(s.calls[c]) ==> s.calls[c].cmdIndex == i
    ensures Inv(r)
  {
    forall j: nat | j < |r.slots|
      ensures SlotOk(r, j)
    {
      if j != i {
        assert SlotOk(s, j);
        assert c in s.calls ==> CallOk(s, c);
      }
    }
    forall d: nat | d in r.calls
      ensures CallOk(r, d)
    {
      if d != c {
        assert CallOk(s, d);
      }
    }
  }

  lemma InitInv(s: State)
    requires Init(s)
    ensures Inv(s)
  {
  }

  lemma StepKeepsInv(s: State, a: Action)
    requires Inv(s) && Enabled(s, a)
    ensures Inv(Apply(s, a))
  {
    match a {
      case Take(i) => SecureKeepsInv(s, a, i);
      case Respond(i, ret) => SecureKeepsInv(s, a, i);
      case Start(c) => FrameInv(s, Apply(s, a), c, |s.slots|);
      case StartFails(c) => FrameInv(s, Apply(s, a), c, |s.slots|);
      case ReleaseUnusable(c) => BuildKeepsInv(s, a);
      case OpsNormal(c) => OpsKeepsInv(s, c);
      case Collect(c) => CollectKeepsInv(s, c);
      case Stamp(c) => BuildKeepsInv(s, a);
      case Seal(c) => BuildKeepsInv(s, a);
      case BuildFail(c) => BuildKeepsInv(s, a);
      case Publish(c) => BuildKeepsInv(s, a);
      case Abort(c) => AbortKeepsInv(s, c);
      case Resume(c) => ReturnKeepsInv(s, a);
      case ResumeFails(c) => ReturnKeepsInv(s, a);
      case CleanUp(c) => ReturnKeepsInv(s, a);
      case _ => LoopKeepsInv(s, a);
    }
  }

  lemma BuildKeepsInv(s: State, a: Action)
    requires Inv(s) && Enabled(s, a) && (a.Stamp? || a.Seal? || a.BuildFail? || a.Publish? || a.ReleaseUnusable?)
    ensures Inv(Apply(s, a))
  {
    assert CallOk(s, a.c);
    assert SlotOk(s, s.calls[a.c].cmdIndex);
    FrameInv(s, Apply(s, a), a.c, s.calls[a.c].cmdIndex);
  }

  /** The steps of the retry loop that write no slot. */
  lemma LoopKeepsInv(s: State, a: Action)
    requires Inv(s) && Enabled(s, a)
    requires a.SmcReturns? || a.SmcFails? || a.PollOut? || a.WaitAgain? || a.SeenDone? || a.InvalidState?
    ensures Inv(Apply(s, a))
  {
    assert CallOk(s, a.c);
    assert SlotOk(s, s.calls[a.c].cmdIndex);
    FrameInv(s, Apply(s, a), a.c, s.calls[a.c].cmdIndex);
  }

  lemma AbortKeepsInv(s: State, c: nat)
    requires Inv(s) && At(s, c, NotDone)
    ensures Inv(Apply(s, Abort(c)))
  {
    assert CallOk(s, c);
    assert SlotOk(s, s.calls[c].cmdIndex);
    FrameInv(s, Apply(s, Abort(c)), c, s.calls[c].cmdIndex);
  }

  lemma ReturnKeepsInv(s: State, a: Action)
    requires Inv(s) && Enabled(s, a) && (a.Resume? || a.ResumeFails? || a.CleanUp?)
    ensures Inv(Apply(s, a))
  {
    assert CallOk(s, a.c);
    var i := if Holds(s.calls[a.c]) then s.calls[a.c].cmdIndex else |s.slots|;
    assert i < |s.slots| ==> SlotOk(s, i);
    FrameInv(s, Apply(s, a), a.c, i);
  }

  lemma SecureKeepsInv(s: State, a: Action, i: nat)
    requires Inv(s) && Enabled(s, a) && (a == Take(i) || (a.Respond? && a.i == i))
    ensures Inv(Apply(s, a))
  {
    assert SlotOk(s, i);
    if s.owner[i].Some? {
      assert CallOk(s, s.owner[i].value);
      FrameInv(s, Apply(s, a), s.owner[i].value, i);
    } else {
      AnswerToNobody(s, Apply(s, a), i);
    }
  }

  /** A late answer in a slot that nobody owns. */
  lemma AnswerToNobody(s: State, r: State, i: nat)
    requires Inv(s) && i < |s.slots| && s.owner[i] == None && SameLengths(r)
    requires r.calls == s.calls && r.owner == s.owner && |r.slots| == |s.slots|
    requires forall j: nat :: j < |s.slots| && j != i ==> r.slots[j] == s.slots[j] && r.taken[j] == s.taken[j]
    requires SlotOk(r, i)
    ensures Inv(r)
  {
    forall j: nat | j < |r.slots|
      ensures SlotOk(r, j)
    {
      assert SlotOk(s, j);
    }
    forall c: nat | c in r.calls
      ensures CallOk(r, c)
    {
      assert CallOk(s, c);
    }
  }

  lemma OpsKeepsInv(s: State, c: nat)
    requires Inv(s) && Enabled(s, OpsNormal(c))
    ensures Inv(Apply(s, OpsNormal(c)))
  {
    assert CallOk(s, c);
    var r := Apply(s, OpsNormal(c));
    var call := s.calls[c];
    if Holds(call) {
      assert SlotOk(s, call.cmdIndex);
      FrameInv(s, r, c, call.cmdIndex);
    } else {
      var i := FirstFree(s.slots);
      if i < |s.slots| {
        assert SlotOk(s, i);
      }
      FrameInv(s, r, c, i);
    }
  }

  lemma CollectKeepsInv(s: State, c: nat)
    requires Inv(s) && At(s, c, Done)
    ensures Inv(Apply(s, Collect(c)))
  {
    assert CallOk(s, c);
    assert SlotOk(s, s.calls[c].cmdIndex);
    if s.slots[s.calls[c].cmdIndex].outCmd.ret == Final { FinalKeepsInv(s, c); } else { AgainKeepsInv(s, c); }
  }

  lemma FinalKeepsInv(s: State, c: nat)
    requires Inv(s) && At(s, c, Done) && s.slots[s.calls[c].cmdIndex].out
    requires s.slots[s.calls[c].cmdIndex].outCmd.ret == Final
    ensures Inv(Apply(s, Collect(c)))
  {
    assert CallOk(s, c);
    assert SlotOk(s, s.calls[c].cmdIndex);
    FrameInv(s, Apply(s, Collect(c)), c, s.calls[c].cmdIndex);
  }

  lemma AgainKeepsInv(s: State, c: nat)
    requires Inv(s) && At(s, c, Done) && s.slots[s.calls[c].cmdIndex].out
    requires s.slots[s.calls[c].cmdIndex].outCmd.ret != Final
    ensures Inv(Apply(s, Collect(c)))
  {
    assert CallOk(s, c);
    assert SlotOk(s, s.calls[c].cmdIndex);
    FrameInv(s, Apply(s, Collect(c)), c, s.calls[c].cmdIndex);
  }

  // ----- the part that needs every abort to hit an unanswered command

  predicate Matches(cmd: Cmd, c: nat, serial: nat, i: nat) {
    cmd.caller == c && cmd.serial == serial && cmd.eventNr == i
  }

  /**
    Nothing the secure side holds or has posted belongs to anything but the holder's last submission. A slot whose
    holder left by the crash exit is out of use for good, and what happens in it matters to nobody.
   */
  predicate SlotMatched(s: State, i: nat)
    requires SameLengths(s) && i < |s.slots| && (s.owner[i].Some? ==> s.owner[i].value in s.calls)
  {
    var slot := s.slots[i];
    match s.owner[i]
    case None => !slot.out && s.taken[i] == None
    case Some(c) =>
      var call := s.calls[c];
      Dead(call) ||
      ((Waiting(call) ==>
        Matches(slot.inCmd, c, call.serial, i) &&
        (slot.out ==> slot.doing && s.taken[i] == None && Matches(slot.outCmd, c, call.serial, i)) &&
        (slot.doing && !slot.out ==> s.taken[i].Some?) &&
        (s.taken[i].Some? ==> Matches(s.taken[i].value, c, call.serial, i))) &&
      (!Waiting(call) ==> slot.doing && !slot.out && s.taken[i] == None) &&
      (call.pc == Building || call.pc == Rebuilding ==> Matches(slot.inCmd, c, call.serial, i)) &&
      (Resending(call) ==> Matches(slot.outCmd, c, call.serial, i)))
  }

  /** The secure side still holds a command of a live call although an abort has cleared the doing bit. */
  predicate Exposed(s: State, i: nat)
    requires SameLengths(s) && i < |s.slots|
  {
    s.taken[i].Some? && !s.slots[i].doing &&
    s.owner[i].Some? && s.owner[i].value in s.calls && !Dead(s.calls[s.owner[i].value])
  }

  ghost predicate MatchInv(s: State) {
    Inv(s) && forall i: nat :: i < |s.slots| ==> OwnerKnown(s, i) && SlotMatched(s, i)
  }

  predicate OwnerKnown(s: State, i: nat)
    requires SameLengths(s) && i < |s.slots|
  {
    s.owner[i].Some? ==> s.owner[i].value in s.calls
  }

  lemma FrameMatch(s: State, r: State, c: nat, i: nat)
    requires MatchInv(s) && Inv(r) && |r.slots| == |s.slots|
    requires forall j: nat :: j < |s.slots| && j != i ==>
      r.slots[j] == s.slots[j] && r.taken[j] == s.taken[j] && r.owner[j] == s.owner[j]
    requires forall d: nat :: d != c ==> (d in r.calls <==> d in s.calls) && (d in s.calls ==> r.calls[d] == s.calls[d])
    requires i < |r.slots| ==> OwnerKnown(r, i) && SlotMatched(r, i)
    requires i < |s.slots| ==>
      (s.owner[i] == None || s.owner[i] == Some(c)) && (r.owner[i] == None || r.owner[i] == Some(c))
    requires c in s.calls && Holds(s.calls[c]) ==> s.calls[c].cmdIndex == i
    ensures MatchInv(r)
  {
    forall j: nat | j < |r.slots|
      ensures OwnerKnown(r, j) && SlotMatched(r, j)
    {
      if j != i {
        assert SlotOk(s, j) && SlotMatched(s, j);
        assert c in s.calls ==> CallOk(s, c);
      }
    }
  }

  lemma StepKeepsMatch(s: State, a: Action)
    requires MatchInv(s) && Enabled(s, a) && AbortsUnanswered(s, a) && (a.Respond? ==> !Exposed(s, a.i))
    ensures MatchInv(Apply(s, a))
  {
    StepKeepsInv(s, a);
    var r := Apply(s, a);
    match a {
      case Take(i) => SecureKeepsMatch(s, a, i);
      case Respond(i, ret) => SecureKeepsMatch(s, a, i);
      case Start(c) => FrameMatch(s, r, c, |s.slots|);
      case StartFails(c) => FrameMatch(s, r, c, |s.slots|);
      case ReleaseUnusable(c) => GiveUpKeepsMatch(s, a);
      case OpsNormal(c) => OpsKeepsMatch(s, c);
      case Stamp(c) => BuildKeepsMatch(s, a);
      case Seal(c) => BuildKeepsMatch(s, a);
      case BuildFail(c) => GiveUpKeepsMatch(s, a);
      case Publish(c) => BuildKeepsMatch(s, a);
      case Collect(c) => CollectKeepsMatch(s, c);
      case Abort(c) => AbortKeepsMatch(s, c);
      case CleanUp(c) => ReturnKeepsMatch(s, a);
      case Resume(c) => ReturnKeepsMatch(s, a);
      case ResumeFails(c) => ReturnKeepsMatch(s, a);
      case _ => LoopKeepsMatch(s, a);
    }
  }

  lemma BuildKeepsMatch(s: State, a: Action)
    requires MatchInv(s) && Enabled(s, a) && Inv(Apply(s, a)) && (a.Stamp? || a.Seal? || a.Publish?)
    ensures MatchInv(Apply(s, a))
  {
    var i := s.calls[a.c].cmdIndex;
    assert CallOk(s, a.c) && SlotOk(s, i) && SlotMatched(s, i);
    FrameMatch(s, Apply(s, a), a.c, i);
  }

  lemma GiveUpKeepsMatch(s: State, a: Action)
    requires MatchInv(s) && Enabled(s, a) && Inv(Apply(s, a)) && (a.BuildFail? || a.ReleaseUnusable?)
    ensures MatchInv(Apply(s, a))
  {
    var i := s.calls[a.c].cmdIndex;
    assert CallOk(s, a.c) && SlotOk(s, i) && SlotMatched(s, i);
    FrameMatch(s, Apply(s, a), a.c, i);
  }

  lemma LoopKeepsMatch(s: State, a: Action)
    requires MatchInv(s) && Enabled(s, a) && Inv(Apply(s, a))
    requires a.SmcReturns? || a.SmcFails? || a.PollOut? || a.WaitAgain? || a.SeenDone? || a.InvalidState?
    ensures MatchInv(Apply(s, a))
  {
    var i := s.calls[a.c].cmdIndex;
    assert CallOk(s, a.c) && SlotOk(s, i) && SlotMatched(s, i);
    FrameMatch(s, Apply(s, a), a.c, i);
  }

  lemma ReturnKeepsMatch(s: State, a: Action)
    requires MatchInv(s) && Enabled(s, a) && Inv(Apply(s, a)) && (a.Resume? || a.ResumeFails? || a.CleanUp?)
    ensures MatchInv(Apply(s, a))
  {
    assert CallOk(s, a.c);
    var i := if Holds(s.calls[a.c]) then s.calls[a.c].cmdIndex else |s.slots|;
    assert i < |s.slots| ==> SlotOk(s, i) && SlotMatched(s, i);
    FrameMatch(s, Apply(s, a), a.c, i);
  }

  lemma AbortKeepsMatch(s: State, c: nat)
    requires MatchInv(s) && At(s, c, NotDone) && !s.slots[s.calls[c].cmdIndex].out && Inv(Apply(s, Abort(c)))
    ensures MatchInv(Apply(s, Abort(c)))
  {
    var i := s.calls[c].cmdIndex;
    assert CallOk(s, c) && SlotOk(s, i) && SlotMatched(s, i);
    FrameMatch(s, Apply(s, Abort(c)), c, i);
  }

  lemma CollectKeepsMatch(s: State, c: nat)
    requires MatchInv(s) && At(s, c, Done) && Inv(Apply(s, Collect(c)))
    ensures MatchInv(Apply(s, Collect(c)))
  {
    var i := s.calls[c].cmdIndex;
    assert CallOk(s, c) && SlotOk(s, i) && SlotMatched(s, i);
    CollectMatches(s, c, i);
    FrameMatch(s, Apply(s, Collect(c)), c, i);
  }

  /** What collecting leaves of the slot. */
  lemma CollectMatches(s: State, c: nat, i: nat)
    requires SameLengths(s) && At(s, c, Done) && s.calls[c].cmdIndex == i && s.owner[i] == Some(c)
    requires s.slots[i].out && SlotMatched(s, i)
    ensures var r := Apply(s, Collect(c));
      (r.owner[i] == None || r.owner[i] == Some(c)) && OwnerKnown(r, i) && SlotMatched(r, i)
  {
    match s.slots[i].outCmd.ret
    case Final =>
    case Pending =>
    case Pending2 =>
  }

  lemma SecureKeepsMatch(s: State, a: Action, i: nat)
    requires MatchInv(s) && Enabled(s, a) && Inv(Apply(s, a))
    requires a == Take(i) || (a.Respond? && a.i == i && !Exposed(s, i))
    ensures MatchInv(Apply(s, a))
  {
    assert SlotOk(s, i) && SlotMatched(s, i);
    var c := s.owner[i].value;
    assert CallOk(s, c);
    FrameMatch(s, Apply(s, a), c, i);
  }

  lemma OpsKeepsMatch(s: State, c: nat)
    requires MatchInv(s) && Enabled(s, OpsNormal(c)) && Inv(Apply(s, OpsNormal(c)))
    ensures MatchInv(Apply(s, OpsNormal(c)))
  {
    assert CallOk(s, c);
    var r := Apply(s, OpsNormal(c));
    var call := s.calls[c];
    var i := if Holds(call) then call.cmdIndex else FirstFree(s.slots);
    if i < |s.slots| {
      assert SlotOk(s, i) && SlotMatched(s, i);
    }
    FrameMatch(s, r, c, i);
  }
}
