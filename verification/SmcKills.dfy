/**
  Aborts and posted answers, step by step: an abort that takes effect offers the secure side a kill in place of the
  command, nothing else does, and an answer that is posted is seen and collected by the call whose slot it is in.
 */
module SmcKills {
  import opened Options
  import opened SmcQueue
  import opened SmcProtocol
  import opened SmcInvariants
  import opened SmcTheorems
  import opened SmcAnswers

  // ----- kills

  /** While a call is in its abort, the command in its slot is a kill. */
  predicate KillOk(s: State, c: nat) {
    c in s.calls && s.calls[c].ops == AbortTask && Waiting(s.calls[c]) ==>
      s.calls[c].cmdIndex < |s.slots| && s.slots[s.calls[c].cmdIndex].inCmd.kill
  }

  /** Only the call that owns a slot rewrites the command in it, and only it takes away an answer posted there. */
  lemma OthersLeaveSlot(s: State, a: Action, c: nat, i: nat)
    requires Inv(s) && Enabled(s, a) && i < |s.slots| && s.owner[i] == Some(c) && Actor(a) != Some(c)
    ensures i < |Apply(s, a).slots| && Apply(s, a).slots[i].inCmd == s.slots[i].inCmd
    ensures s.slots[i].out ==> Apply(s, a).slots[i].out
  {
    assert SlotOk(s, i);
    match Actor(a)
    case None =>
    case Some(d) => if d in s.calls { assert CallOk(s, d); }
  }

  lemma OwnKill(s: State, a: Action, c: nat)
    requires Inv(s) && Enabled(s, a) && Actor(a) == Some(c) && KillOk(s, c)
    ensures KillOk(Apply(s, a), c)
  {
    hide Apply;
    if c in s.calls {
      assert CallOk(s, c);
      if a.Collect? || a.OpsNormal? { TurnKill(s, a, c); } else { OtherKill(s, a, c); }
    } else {
      FirstKill(s, a, c);
    }
  }

  lemma FirstKill(s: State, a: Action, c: nat)
    requires SameLengths(s) && Enabled(s, a) && Actor(a) == Some(c) && c !in s.calls
    ensures KillOk(Apply(s, a), c)
  {
  }

  lemma TurnKill(s: State, a: Action, c: nat)
    requires SameLengths(s) && Enabled(s, a) && Actor(a) == Some(c) && KillOk(s, c) && (a.Collect? || a.OpsNormal?)
    requires LocalOk(s.calls[c])
    ensures KillOk(Apply(s, a), c)
  {
  }

  lemma OtherKill(s: State, a: Action, c: nat)
    requires SameLengths(s) && Enabled(s, a) && Actor(a) == Some(c) && KillOk(s, c) && !a.Collect? && !a.OpsNormal?
    requires c in s.calls && LocalOk(s.calls[c])
    ensures KillOk(Apply(s, a), c)
  {
  }

  lemma StepKeepsKills(s: State, a: Action, c: nat)
    requires Inv(s) && Enabled(s, a) && KillOk(s, c)
    ensures KillOk(Apply(s, a), c)
  {
    hide Apply;
    if Actor(a) == Some(c) {
      OwnKill(s, a, c);
    } else if c in s.calls {
      assert CallOk(s, c);
      OthersLeaveCall(s, a, c);
      if Waiting(s.calls[c]) {
        WaitingHolds(s.calls[c]);
        OthersLeaveSlot(s, a, c, s.calls[c].cmdIndex);
      }
    } else {
      OthersAddNone(s, a, c);
    }
  }

  lemma WaitingHolds(call: Call)
    requires Waiting(call)
    ensures Holds(call)
  {
  }

  lemma OthersAddNone(s: State, a: Action, c: nat)
    requires SameLengths(s) && Enabled(s, a) && c !in s.calls && Actor(a) != Some(c)
    ensures c !in Apply(s, a).calls
  {
  }

  lemma {:induction false} RunKeepsKills(ss: seq<State>, acts: seq<Action>, k: nat, c: nat)
    requires Run(ss, acts) && k < |ss|
    ensures KillOk(ss[k], c)
  {
    hide Enabled;
    hide Apply;
    hide Inv;
    if k > 0 {
      RunKeepsKills(ss, acts, k - 1, c);
      RunKeepsInv(ss, acts, k - 1);
      StepKeepsKills(ss[k - 1], acts[k - 1], c);
    }
  }

  /**
    An abort takes effect exactly when the command is being processed: the command becomes a kill and is offered again;
    otherwise the queue is left alone. Either way the call goes on waiting in its slot.
   */
  lemma AbortOffersKill(ss: seq<State>, acts: seq<Action>, k: nat)
    requires Run(ss, acts) && k < |acts| && acts[k].Abort?
    ensures acts[k].c in ss[k].calls && acts[k].c in ss[k + 1].calls
    ensures var c, i := acts[k].c, ss[k].calls[acts[k].c].cmdIndex;
      i < |ss[k].slots| == |ss[k + 1].slots| && SameLengths(ss[k + 1]) &&
      Waiting(ss[k + 1].calls[c]) && OwnsSlot(ss[k + 1], c, i) && ss[k + 1].calls[c].cmdIndex == i &&
      if ss[k].slots[i].doing then
        ss[k + 1].slots[i].inBit && !ss[k + 1].slots[i].doing && ss[k + 1].slots[i].inCmd.kill &&
        ss[k + 1].calls[c].ops == AbortTask && (forall j :: 0 <= j < |ss[k].slots| && j != i ==>
          ss[k + 1].slots[j] == ss[k].slots[j])
      else
        ss[k + 1].slots == ss[k].slots && ss[k + 1].calls[c].ops == SchedTo
  {
    RunKeepsInv(ss, acts, k);
    assert CallOk(ss[k], acts[k].c);
    assert SlotOk(ss[k], ss[k].calls[acts[k].c].cmdIndex);
  }

  /** What the secure side takes from the slot of a call in its abort is the kill. */
  lemma AbortedCommandIsKilled(ss: seq<State>, acts: seq<Action>, k: nat, c: nat)
    requires Run(ss, acts) && k < |acts| && c in ss[k].calls && ss[k].calls[c].ops == AbortTask
    requires Waiting(ss[k].calls[c]) && acts[k] == Take(ss[k].calls[c].cmdIndex)
    ensures var i := ss[k].calls[c].cmdIndex;
      i < |ss[k + 1].taken| && ss[k + 1].taken[i].Some? && ss[k + 1].taken[i].value.kill
  {
    RunKeepsKills(ss, acts, k, c);
  }

  predicate NoKills(s: State) {
    forall i :: 0 <= i < |s.slots| && s.slots[i].inBit ==> !s.slots[i].inCmd.kill
  }

  lemma StepAddsNoKill(s: State, a: Action)
    requires SameLengths(s) && Enabled(s, a) && NoKills(s) && !(a.Abort? && s.slots[s.calls[a.c].cmdIndex].doing)
    ensures NoKills(Apply(s, a))
  {
  }

  /** Kills come from aborts that take effect, and from nothing else. */
  lemma {:induction false} KillsComeFromAborts(ss: seq<State>, acts: seq<Action>, k: nat)
    requires Run(ss, acts) && k < |ss|
    requires forall m: nat :: m < k && acts[m].Abort? ==> !ss[m].slots[ss[m].calls[acts[m].c].cmdIndex].doing
    ensures NoKills(ss[k])
  {
    hide Enabled;
    hide Apply;
    if k > 0 {
      KillsComeFromAborts(ss, acts, k - 1);
      StepAddsNoKill(ss[k - 1], acts[k - 1]);
    }
  }

  // ----- posted answers

  lemma {:induction false} AnswerStays(ss: seq<State>, acts: seq<Action>, k: nat, l: nat, c: nat)
    requires Run(ss, acts) && k <= l < |ss| && c in ss[k].calls && Holds(ss[k].calls[c])
    requires ss[k].calls[c].cmdIndex < |ss[k].slots| && ss[k].slots[ss[k].calls[c].cmdIndex].out
    requires forall m: nat :: k <= m < l ==> Actor(acts[m]) != Some(c)
    ensures c in ss[l].calls && ss[l].calls[c] == ss[k].calls[c]
    ensures ss[k].calls[c].cmdIndex < |ss[l].slots| && ss[l].slots[ss[k].calls[c].cmdIndex].out
    decreases l
  {
    hide Enabled;
    hide Apply;
    CallRests(ss, acts, k, l, c);
    if k < l {
      AnswerStays(ss, acts, k, l - 1, c);
      RunKeepsInv(ss, acts, l - 1);
      assert CallOk(ss[l - 1], c);
      OthersLeaveSlot(ss[l - 1], acts[l - 1], c, ss[k].calls[c].cmdIndex);
    }
  }

  lemma PollStep(s: State, a: Action, c: nat)
    requires SameLengths(s) && Enabled(s, a) && Actor(a) == Some(c) && c in s.calls
    ensures s.calls[c].pc == Poll && s.slots[s.calls[c].cmdIndex].out ==> a == PollOut(c) && At(Apply(s, a), c, Done)
    ensures s.calls[c].pc == Done ==> a == Collect(c)
    ensures a.SeenDone? ==> At(Apply(s, a), c, Done)
  {
  }

  /** A call that comes back from the secure side when its answer is posted sees it, whatever happens in between. */
  lemma PostedAnswerIsSeen(ss: seq<State>, acts: seq<Action>, k: nat, l: nat, c: nat)
    requires Run(ss, acts) && k <= l < |acts| && At(ss[k], c, Poll) && ss[k].slots[ss[k].calls[c].cmdIndex].out
    requires Actor(acts[l]) == Some(c) && forall m: nat :: k <= m < l ==> Actor(acts[m]) != Some(c)
    ensures acts[l] == PollOut(c) && At(ss[l + 1], c, Done)
  {
    hide Enabled;
    hide Apply;
    AnswerStays(ss, acts, k, l, c);
    PollStep(ss[l], acts[l], c);
  }

  /** A call that has seen its answer collects it in its next step: it is delivered what is posted in its slot then. */
  lemma SeenAnswerIsCollected(ss: seq<State>, acts: seq<Action>, k: nat, l: nat, c: nat)
    requires Run(ss, acts) && k <= l < |acts| && At(ss[k], c, Done)
    requires Actor(acts[l]) == Some(c) && forall m: nat :: k <= m < l ==> Actor(acts[m]) != Some(c)
    ensures var i := ss[k].calls[c].cmdIndex;
      i < |ss[l].slots| && acts[l] == Collect(c) &&
      ss[l + 1].delivered == ss[l].delivered + [Delivery(c, ss[k].calls[c].serial, ss[l].slots[i].outCmd)]
  {
    hide Enabled;
    hide Apply;
    RunKeepsInv(ss, acts, k);
    RunKeepsInv(ss, acts, l);
    DoneHasAnswer(ss[k], c);
    AnswerStays(ss, acts, k, l, c);
    PollStep(ss[l], acts[l], c);
    CollectCollects(ss[l], c);
  }

  // ----- crashes

  /** The step takes call `c` out by the crash exit: the SMC failed, or the work state is invalid. */
  predicate CrashesCall(a: Action, c: nat) {
    (a.SmcFails? || a.InvalidState?) && a.c == c
  }

  predicate IsDead(s: State, c: nat) {
    c in s.calls && Dead(s.calls[c])
  }

  lemma StepCrashesIff(s: State, a: Action, c: nat)
    requires Inv(s) && Enabled(s, a)
    ensures IsDead(Apply(s, a), c) <==> IsDead(s, c) || CrashesCall(a, c)
  {
    hide Apply;
    if Actor(a) == Some(c) {
      OwnCrash(s, a, c);
    } else if c in s.calls {
      OthersLeaveCall(s, a, c);
    } else {
      OthersAddNone(s, a, c);
    }
  }

  lemma OwnCrash(s: State, a: Action, c: nat)
    requires Inv(s) && Enabled(s, a) && Actor(a) == Some(c)
    ensures IsDead(Apply(s, a), c) <==> IsDead(s, c) || CrashesCall(a, c)
  {
    if c in s.calls {
      assert CallOk(s, c);
      assert s.calls[c].pc == Done ==> SlotOk(s, s.calls[c].cmdIndex);
    }
  }

  /** A call comes back by the crash exit if and only if the SMC failed or the work state was invalid at some time. */
  lemma {:induction false} CrashedIff(ss: seq<State>, acts: seq<Action>, k: nat, c: nat)
    requires Run(ss, acts) && k < |ss|
    ensures IsDead(ss[k], c) <==> exists m: nat :: m < k && CrashesCall(acts[m], c)
  {
    hide Enabled;
    hide Apply;
    hide Inv;
    if k > 0 {
      CrashedIff(ss, acts, k - 1, c);
      RunKeepsInv(ss, acts, k - 1);
      StepCrashesIff(ss[k - 1], acts[k - 1], c);
      if CrashesCall(acts[k - 1], c) { assert k - 1 < k; }
    }
  }
}
