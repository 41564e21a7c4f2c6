/**
  The abort taken on a timeout does not look at the out bit, and nothing the driver says keeps the secure side from
  answering a command after its abort. This module settles when an abort is harmless: from any state reached
  so far without a wrong answer, for a secure side that is silent while the doing bit is clear and for one that is not.
 */
module SmcAbort {
  import opened Options
  import opened SmcQueue
  import opened SmcProtocol
  import opened SmcInvariants
  import opened SmcTheorems

  predicate Wrong(d: Delivery) {
    d.answer.caller != d.call || d.answer.serial != d.serial
  }

  /** A step that is no abort and, if `silent`, no answer while the doing bit of its slot is clear. */
  predicate Allowed(s: State, a: Action, silent: bool) {
    !a.Abort? && (silent ==> AnswersWhileDoing(s, a))
  }

  /** After some `n` further steps of that kind a call has collected an answer that is not its own. */
  ghost predicate CanMisdeliver(s: State, silent: bool, n: nat)
    decreases n, 1
  {
    if n == 0 then exists k: nat :: k < |s.delivered| && Wrong(s.delivered[k])
    else SameLengths(s) && exists a: Action :: Continues(s, a, silent, n)
  }

  ghost predicate Continues(s: State, a: Action, silent: bool, n: nat)
    requires n > 0 && SameLengths(s)
    decreases n, 0
  {
    Allowed(s, a, silent) && Enabled(s, a) && CanMisdeliver(Apply(s, a), silent, n - 1)
  }

  /** Some continuation without further aborts delivers a wrong answer. */
  ghost predicate Endangered(s: State, silent: bool) {
    exists n: nat :: CanMisdeliver(s, silent, n)
  }

  lemma Later(s: State, a: Action, silent: bool)
    requires SameLengths(s) && Enabled(s, a) && Allowed(s, a, silent) && Endangered(Apply(s, a), silent)
    ensures Endangered(s, silent)
  {
    var n: nat :| CanMisdeliver(Apply(s, a), silent, n);
    assert Continues(s, a, silent, n + 1);
    assert CanMisdeliver(s, silent, n + 1);
  }

  // ----- what is harmless

  /** No slot of a live call has a command that the secure side holds while the doing bit is clear. */
  ghost predicate NoneExposed(s: State)
    requires SameLengths(s)
  {
    forall i: nat :: i < |s.slots| ==> !Exposed(s, i)
  }

  /** Without an effective abort nothing becomes exposed. */
  lemma StepExposesNothing(s: State, a: Action)
    requires MatchInv(s) && NoneExposed(s) && Enabled(s, a) && !a.Abort?
    ensures NoneExposed(Apply(s, a))
  {
    forall i: nat | i < |s.slots|
      ensures !Exposed(Apply(s, a), i)
    {
      assert SlotOk(s, i) && SlotMatched(s, i) && !Exposed(s, i);
      if a.Take? || a.Respond? { SecureExposesNothing(s, a, i); } else { CallExposesNothing(s, a, i); }
    }
  }

  lemma SecureExposesNothing(s: State, a: Action, i: nat)
    requires SameLengths(s) && Enabled(s, a) && (a.Take? || a.Respond?) && i < |s.slots| && !Exposed(s, i)
    ensures !Exposed(Apply(s, a), i)
  {
  }

  lemma CallExposesNothing(s: State, a: Action, i: nat)
    requires MatchInv(s) && Enabled(s, a) && !a.Abort? && !a.Take? && !a.Respond? && i < |s.slots| && !Exposed(s, i)
    ensures !Exposed(Apply(s, a), i)
  {
    if a.OpsNormal? {
      OpsExposesNothing(s, a.c, i);
    } else if a.Collect? || a.Publish? || a.BuildFail? || a.ReleaseUnusable? || a.CleanUp? {
      SlotExposesNothing(s, a, i);
    } else {
      LoopExposesNothing(s, a, i);
    }
  }

  lemma SlotExposesNothing(s: State, a: Action, i: nat)
    requires MatchInv(s) && Enabled(s, a) && i < |s.slots| && !Exposed(s, i)
    requires a.Collect? || a.Publish? || a.BuildFail? || a.ReleaseUnusable? || a.CleanUp?
    ensures !Exposed(Apply(s, a), i)
  {
    assert SlotOk(s, i) && SlotMatched(s, i);
    assert CallOk(s, a.c);
  }

  /** The other steps of a call clear no doing bit, and revive no dead call. */
  lemma LoopExposesNothing(s: State, a: Action, i: nat)
    requires SameLengths(s) && Enabled(s, a) && i < |s.slots| && !Exposed(s, i) && SlotOk(s, i)
    requires !(a.Collect? || a.Publish? || a.BuildFail? || a.ReleaseUnusable? || a.CleanUp? || a.OpsNormal?)
    requires !a.Abort? && !a.Take? && !a.Respond?
    ensures !Exposed(Apply(s, a), i)
  {
  }

  lemma OpsExposesNothing(s: State, c: nat, i: nat)
    requires MatchInv(s) && Enabled(s, OpsNormal(c)) && i < |s.slots| && !Exposed(s, i)
    ensures !Exposed(Apply(s, OpsNormal(c)), i)
  {
    assert SlotOk(s, i) && SlotMatched(s, i);
    assert CallOk(s, c);
  }

  /** A step that is harmless for this secure side. */
  lemma HarmlessStep(s: State, a: Action, silent: bool)
    requires DeliveredInv(s) && (silent || NoneExposed(s)) && Enabled(s, a) && Allowed(s, a, silent)
    ensures DeliveredInv(Apply(s, a)) && (silent || NoneExposed(Apply(s, a)))
  {
    StepKeepsMatch(s, a);
    if a.Collect? { CollectKeepsDelivered(s, a.c); } else { QuietStep(s, a); }
    if !silent { StepExposesNothing(s, a); }
  }

  /** Nothing goes wrong without an abort. */
  lemma {:induction false} NoAbortNoHarm(s: State, silent: bool, n: nat)
    requires DeliveredInv(s) && (silent || NoneExposed(s))
    ensures !CanMisdeliver(s, silent, n)
    decreases n
  {
    if n == 0 {
      forall k: nat | k < |s.delivered|
        ensures !Wrong(s.delivered[k])
      {
        assert DeliveryOk(s, s.delivered[k]);
      }
    } else {
      forall a: Action | Allowed(s, a, silent) && Enabled(s, a)
        ensures !Continues(s, a, silent, n)
      {
        HarmlessStep(s, a, silent);
        NoAbortNoHarm(Apply(s, a), silent, n - 1);
      }
    }
  }

  // ----- what is not

  /** A posted answer that is not the one the waiting call `d` is waiting for. */
  lemma WrongAnswerPosted(s: State, d: nat, i: nat, silent: bool)
    requires SameLengths(s) && At(s, d, Send) && s.calls[d].cmdIndex == i && s.slots[i].out
    requires s.slots[i].outCmd.caller != d || s.slots[i].outCmd.serial != s.calls[d].serial
    ensures Endangered(s, silent)
  {
    var s1 := Apply(s, SmcReturns(d));
    WrongAnswerCollected(Apply(s1, PollOut(d)), d, i, silent);
    Later(s1, PollOut(d), silent);
    Later(s, SmcReturns(d), silent);
  }

  lemma WrongAnswerCollected(s: State, d: nat, i: nat, silent: bool)
    requires SameLengths(s) && At(s, d, Done) && s.calls[d].cmdIndex == i && s.slots[i].out
    requires s.slots[i].outCmd.caller != d || s.slots[i].outCmd.serial != s.calls[d].serial
    ensures Endangered(s, silent)
  {
    CollectDelivers(s, d);
    var r := Apply(s, Collect(d));
    assert Wrong(r.delivered[|s.delivered|]);
    assert CanMisdeliver(r, silent, 0);
    Later(s, Collect(d), silent);
  }

  /** The secure side still holds somebody else's command of the slot that `d` is setting up. */
  predicate Haunted(s: State, d: nat, i: nat) {
    SameLengths(s) && d in s.calls && i < |s.slots| && s.calls[d].cmdIndex == i &&
    (s.calls[d].pc == Building || s.calls[d].pc == Rebuilding) &&
    (s.calls[d].usage == Resend ==> s.calls[d].savedIndex == i) &&
    s.slots[i].doing && s.taken[i].Some? &&
    (s.taken[i].value.caller != d || s.taken[i].value.serial != s.calls[d].serial)
  }

  lemma HauntedBuildMisdelivers(s: State, d: nat, i: nat, silent: bool)
    requires Haunted(s, d, i)
    ensures Endangered(s, silent)
  {
    var s1 := Apply(s, Respond(i, Final));
    var s2 := Apply(s1, Stamp(d));
    BuiltOverAnswer(s2, d, i, silent);
    Later(s1, Stamp(d), silent);
    Later(s, Respond(i, Final), silent);
  }

  /** Call `d` is setting up a slot in which an answer is posted already. */
  lemma BuiltOverAnswer(s: State, d: nat, i: nat, silent: bool)
    requires SameLengths(s) && (At(s, d, Building) || At(s, d, Rebuilding)) && s.calls[d].cmdIndex == i
    requires s.calls[d].usage == Resend ==> s.calls[d].savedIndex == i
    requires s.slots[i].out && s.slots[i].inCmd.stamped
    requires s.slots[i].outCmd.caller != d || s.slots[i].outCmd.serial != s.calls[d].serial
    ensures Endangered(s, silent)
  {
    var s1 := Apply(s, Seal(d));
    WrongAnswerPosted(Apply(s1, Publish(d)), d, i, silent);
    Later(s1, Publish(d), silent);
    Later(s, Seal(d), silent);
  }

  lemma {:induction false} UnusedCall(used: set<nat>) returns (d: nat)
    ensures forall c: nat :: c in used ==> c < d
    decreases |used|
  {
    if used == {} {
      d := 0;
    } else {
      var c :| c in used;
      var e := UnusedCall(used - {c});
      d := if e <= c then c + 1 else e;
      forall x: nat | x in used
        ensures x < d
      {
        assert x == c || x in used - {c};
      }
    }
  }

  /** A free slot of which the secure side still holds a command: some later call will get that command's answer. */
  lemma {:induction false} OrphanMisdelivers(s: State, i: nat, silent: bool)
    requires SameLengths(s) && i < |s.slots| && !s.slots[i].inBit
    requires s.taken[i].Some? && s.taken[i].value.caller in s.calls
    ensures Endangered(s, silent)
    decreases i - FirstFree(s.slots)
  {
    var d := UnusedCall(s.calls.Keys);
    assert d !in s.calls;
    var j := FirstFree(s.slots);
    assert j <= i;
    var s1 := Apply(s, Start(d));
    var s2 := Apply(s1, OpsNormal(d));
    assert s2.slots == s.slots[j := Occupied(s.slots[j], Fresh(d), j)] && s2.taken == s.taken;
    if j == i {
      HauntedBuildMisdelivers(s2, d, i, silent);
    } else {
      assert FirstFree(s2.slots) > j;
      OrphanMisdelivers(s2, i, silent);
    }
    Later(s1, OpsNormal(d), silent);
    Later(s, Start(d), silent);
  }

  /** A resend of a slot whose previous command, a kill, the secure side still holds. */
  lemma ResendMisdelivers(s: State, c: nat, i: nat, silent: bool)
    requires SameLengths(s) && At(s, c, Retry) && s.calls[c].usage == Resend && s.calls[c].ops == Normal
    requires s.calls[c].cmdIndex == s.calls[c].savedIndex == i < |s.slots| && s.slots[i].inBit && s.slots[i].doing
    requires s.taken[i].Some? && s.taken[i].value.serial == s.calls[c].serial
    ensures Endangered(s, silent)
  {
    HauntedBuildMisdelivers(Apply(s, OpsNormal(c)), c, i, silent);
    Later(s, OpsNormal(c), silent);
  }

  /** Slot `i` of call `c` has an answer posted, and the secure side holds a command of the same submission again. */
  predicate PostedAndTaken(s: State, c: nat, i: nat) {
    SameLengths(s) && c in s.calls && i < |s.slots| && s.calls[c].cmdIndex == s.calls[c].savedIndex == i &&
    s.slots[i].inBit && s.slots[i].doing && s.slots[i].out && s.slots[i].outCmd.eventNr == i &&
    s.taken[i].Some? && s.taken[i].value.caller == c && s.taken[i].value.serial == s.calls[c].serial
  }

  lemma SeenButTakenMisdelivers(r: State, c: nat, i: nat, silent: bool)
    requires PostedAndTaken(r, c, i) && r.calls[c].pc == Done
    ensures Endangered(r, silent)
  {
    var r1 := Apply(r, Collect(c));
    match r.slots[i].outCmd.ret {
      case Final =>
        OrphanMisdelivers(r1, i, silent);
      case Pending2 =>
        ResendMisdelivers(r1, c, i, silent);
      case Pending =>
        var r2 := Apply(r1, CleanUp(c));
        var r3 := Apply(r2, Resume(c));
        ResendMisdelivers(r3, c, i, silent);
        Later(r2, Resume(c), silent);
        Later(r1, CleanUp(c), silent);
    }
    Later(r, Collect(c), silent);
  }

  /** Wherever the call is on its way round the loop, it will see that answer. */
  function StepsToSee(call: Call): nat {
    match call.pc
    case Retry => 4
    case Send => 3
    case Poll => 2
    case NotDone => 1
    case _ => 0
  }

  lemma {:induction false} PostedAndTakenMisdelivers(s: State, c: nat, i: nat, silent: bool)
    requires PostedAndTaken(s, c, i) && Waiting(s.calls[c]) && !Dead(s.calls[c])
    ensures Endangered(s, silent)
    decreases StepsToSee(s.calls[c])
  {
    if s.calls[c].pc == Done {
      SeenButTakenMisdelivers(s, c, i, silent);
    } else {
      var a := match s.calls[c].pc
        case Retry => OpsNormal(c)
        case Send => SmcReturns(c)
        case Poll => PollOut(c)
        case _ => SeenDone(c);
      PostedAndTakenMisdelivers(Apply(s, a), c, i, silent);
      Later(s, a, silent);
    }
  }

  // ----- the exact conditions

  lemma AnsweredAbortMisdelivers(s: State, c: nat, silent: bool)
    requires MatchInv(s) && At(s, c, NotDone) && s.slots[s.calls[c].cmdIndex].out
    ensures Endangered(Apply(s, Abort(c)), silent)
  {
    var i := s.calls[c].cmdIndex;
    assert CallOk(s, c) && SlotOk(s, i) && SlotMatched(s, i);
    AbortThenTake(s, c, i, silent);
  }

  lemma AbortThenTake(s: State, c: nat, i: nat, silent: bool)
    requires SameLengths(s) && At(s, c, NotDone) && s.calls[c].cmdIndex == s.calls[c].savedIndex == i
    requires s.calls[c].usage == Clear && s.slots[i].inBit && s.slots[i].doing && s.slots[i].out
    requires Matches(s.slots[i].inCmd, c, s.calls[c].serial, i) && Matches(s.slots[i].outCmd, c, s.calls[c].serial, i)
    ensures Endangered(Apply(s, Abort(c)), silent)
  {
    var s1 := Apply(s, Abort(c));
    PostedAndTakenMisdelivers(Apply(s1, Take(i)), c, i, silent);
    Later(s1, Take(i), silent);
  }

  /** For a secure side that is silent after an abort: an abort is dangerous if and only if the command was answered. */
  lemma AbortIsHarmlessIffUnanswered(s: State, c: nat)
    requires DeliveredInv(s) && At(s, c, NotDone)
    ensures Endangered(Apply(s, Abort(c)), true) <==> s.slots[s.calls[c].cmdIndex].out
  {
    if s.slots[s.calls[c].cmdIndex].out {
      AnsweredAbortMisdelivers(s, c, true);
    } else {
      StepKeepsMatch(s, Abort(c));
      QuietStep(s, Abort(c));
      forall n: nat
        ensures !CanMisdeliver(Apply(s, Abort(c)), true, n)
      {
        NoAbortNoHarm(Apply(s, Abort(c)), true, n);
      }
    }
  }

  /**
    A command of a live call that the secure side holds after its abort: it may answer it, take the kill, and answer
    that to whoever has the slot by then.
   */
  lemma ExposedMisdelivers(s: State, i: nat)
    requires MatchInv(s) && i < |s.slots| && Exposed(s, i)
    ensures Endangered(s, false)
  {
    var c := s.owner[i].value;
    assert SlotOk(s, i) && SlotMatched(s, i);
    assert CallOk(s, c);
    AnswerThenTake(s, c, i);
  }

  lemma AnswerThenTake(s: State, c: nat, i: nat)
    requires SameLengths(s) && c in s.calls && i < |s.slots| && s.calls[c].cmdIndex == s.calls[c].savedIndex == i
    requires Waiting(s.calls[c]) && !Dead(s.calls[c]) && s.slots[i].inBit && !s.slots[i].doing
    requires Matches(s.slots[i].inCmd, c, s.calls[c].serial, i)
    requires s.taken[i].Some? && Matches(s.taken[i].value, c, s.calls[c].serial, i)
    ensures Endangered(s, false)
  {
    var s1 := Apply(s, Respond(i, Final));
    PostedAndTakenMisdelivers(Apply(s1, Take(i)), c, i, false);
    Later(s1, Take(i), false);
    Later(s, Respond(i, Final), false);
  }

  /** For a secure side that is not silent: danger is exactly a command it holds while the doing bit is clear. */
  lemma EndangeredIffExposed(s: State)
    requires DeliveredInv(s)
    ensures Endangered(s, false) <==> !NoneExposed(s)
  {
    if NoneExposed(s) {
      forall n: nat
        ensures !CanMisdeliver(s, false, n)
      {
        NoAbortNoHarm(s, false, n);
      }
    } else {
      var i: nat :| i < |s.slots| && Exposed(s, i);
      ExposedMisdelivers(s, i);
    }
  }

  /**
    For a secure side that is not silent after an abort: an abort is dangerous if and only if it takes effect, that is
    the doing bit was set, or an earlier one is still dangerous.
   */
  lemma AbortIsHarmlessIffRefused(s: State, c: nat)
    requires DeliveredInv(s) && At(s, c, NotDone)
    ensures Endangered(Apply(s, Abort(c)), false) <==> s.slots[s.calls[c].cmdIndex].doing || !NoneExposed(s)
  {
    var i := s.calls[c].cmdIndex;
    var r := Apply(s, Abort(c));
    assert CallOk(s, c) && SlotOk(s, i) && SlotMatched(s, i);
    if s.slots[i].out {
      AnsweredAbortMisdelivers(s, c, false);
    } else {
      StepKeepsMatch(s, Abort(c));
      QuietStep(s, Abort(c));
      EndangeredIffExposed(r);
      AbortExposes(s, c, i);
    }
  }

  /**
    The two secure sides differ: the abort of a command that is being processed and not answered is harmless for the one
    and dangerous for the other.
   */
  lemma UnansweredAbortMisdelivers(s: State, c: nat)
    requires DeliveredInv(s) && At(s, c, NotDone)
    requires s.slots[s.calls[c].cmdIndex].doing && !s.slots[s.calls[c].cmdIndex].out
    ensures Endangered(Apply(s, Abort(c)), false) && !Endangered(Apply(s, Abort(c)), true)
  {
    AbortIsHarmlessIffRefused(s, c);
    AbortIsHarmlessIffUnanswered(s, c);
  }

  lemma AbortExposes(s: State, c: nat, i: nat)
    requires SameLengths(s) && At(s, c, NotDone) && s.calls[c].cmdIndex == i && s.owner[i] == Some(c)
    requires s.slots[i].doing ==> s.taken[i].Some?
    ensures NoneExposed(Apply(s, Abort(c))) <==> !s.slots[i].doing && NoneExposed(s)
  {
    var r := Apply(s, Abort(c));
    if s.slots[i].doing {
      assert Exposed(r, i);
    } else {
      assert forall j: nat :: j < |s.slots| ==> (Exposed(r, j) <==> Exposed(s, j));
    }
  }

  /** For such a secure side answers match in every run in which no abort takes effect. */
  lemma {:induction false} AnswersMatchWithoutAborts(ss: seq<State>, acts: seq<Action>, k: nat)
    requires Run(ss, acts) && k < |ss|
    requires forall l: nat :: l < |acts| ==> AbortsRefused(ss[l], acts[l])
    ensures DeliveredInv(ss[k]) && NoneExposed(ss[k])
    ensures forall n: nat :: n < |ss[k].delivered| ==> !Wrong(ss[k].delivered[n])
  {
    if k == 0 {
      InitInv(ss[0]);
      assert forall i: nat :: i < |ss[0].slots| ==> OwnerKnown(ss[0], i) && SlotMatched(ss[0], i) && !Exposed(ss[0], i);
    } else {
      AnswersMatchWithoutAborts(ss, acts, k - 1);
      RefusedStep(ss[k - 1], acts[k - 1]);
    }
    forall n: nat | n < |ss[k].delivered|
      ensures !Wrong(ss[k].delivered[n])
    {
      assert DeliveryOk(ss[k], ss[k].delivered[n]);
    }
  }

  /** The action is no abort of a command that is being processed. */
  predicate AbortsRefused(s: State, a: Action) {
    a.Abort? && At(s, a.c, NotDone) ==> !s.slots[s.calls[a.c].cmdIndex].doing
  }

  lemma RefusedStep(s: State, a: Action)
    requires DeliveredInv(s) && NoneExposed(s) && Enabled(s, a) && AbortsRefused(s, a)
    ensures DeliveredInv(Apply(s, a)) && NoneExposed(Apply(s, a))
  {
    if a.Abort? {
      var i := s.calls[a.c].cmdIndex;
      assert CallOk(s, a.c) && SlotOk(s, i) && SlotMatched(s, i);
      StepKeepsMatch(s, a);
      QuietStep(s, a);
      AbortExposes(s, a.c, i);
    } else {
      HarmlessStep(s, a, false);
    }
  }
}
