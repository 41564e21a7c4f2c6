/**
  The guarantees of the command-slot protocol over whole runs.
 */
module SmcTheorems {
  import opened Options
  import opened SmcQueue
  import opened SmcProtocol
  import opened SmcInvariants

  lemma {:induction false} RunKeepsInv(ss: seq<State>, acts: seq<Action>, k: nat)
    requires Run(ss, acts) && k < |ss|
    ensures Inv(ss[k])
  {
    hide Enabled;
    hide Apply;
    hide Inv;
    if k == 0 {
      InitInv(ss[0]);
    } else {
      RunKeepsInv(ss, acts, k - 1);
      StepKeepsInv(ss[k - 1], acts[k - 1]);
    }
  }

  /** In every state of every run, a set in bit belongs to exactly one call, and a call has at most one slot. */
  lemma SlotsAreExclusive(ss: seq<State>, acts: seq<Action>, k: nat, i: nat)
    requires Run(ss, acts) && k < |ss| && i < |ss[k].slots|
    ensures ss[k].slots[i].inBit <==>
      exists c: nat :: c in ss[k].calls && Holds(ss[k].calls[c]) && ss[k].calls[c].cmdIndex == i
    ensures forall c: nat, d: nat ::
      (c in ss[k].calls && d in ss[k].calls && Holds(ss[k].calls[c]) && Holds(ss[k].calls[d]) &&
       ss[k].calls[c].cmdIndex == ss[k].calls[d].cmdIndex) ==> c == d
  {
    RunKeepsInv(ss, acts, k);
    var s := ss[k];
    assert SlotOk(s, i);
    forall c: nat | c in s.calls && Holds(s.calls[c])
      ensures s.calls[c].cmdIndex < |s.slots| && s.owner[s.calls[c].cmdIndex] == Some(c)
    {
      assert CallOk(s, c);
    }
  }

  /** The secure side never takes a half-built command, although set-up runs outside the lock. */
  lemma TakenCommandsAreComplete(ss: seq<State>, acts: seq<Action>, k: nat, i: nat)
    requires Run(ss, acts) && k < |ss| && i < |ss[k].slots|
    ensures ss[k].slots[i].inBit && !ss[k].slots[i].doing ==> Complete(ss[k].slots[i].inCmd)
    ensures k < |acts| && acts[k] == Take(i) ==> Complete(ss[k + 1].taken[i].value)
  {
    RunKeepsInv(ss, acts, k);
    assert SlotOk(ss[k], i);
  }

  /** The results with which a call returns although its slot is still taken. */
  predicate LeavesSlot(r: Result) {
    r == Suspended || r == Crashed || r == Refused
  }

  /**
    A call that has returned owns a slot if and only if it was suspended, left by the crash exit, or was a resend
    refused before it began. It is then the one slot it worked with, with its in bit set; a suspended call can resume
    with it.
   */
  lemma ReturnedCallKeepsSlotIff(ss: seq<State>, acts: seq<Action>, k: nat, c: nat)
    requires Run(ss, acts) && k < |ss| && c in ss[k].calls && ss[k].calls[c].pc == Returned
    ensures SameLengths(ss[k])
    ensures LeavesSlot(ss[k].calls[c].result) <==> exists i: nat :: OwnsSlot(ss[k], c, i)
    ensures forall i: nat :: OwnsSlot(ss[k], c, i) ==> i == ss[k].calls[c].cmdIndex && ss[k].slots[i].inBit
    ensures ss[k].calls[c].result == Suspended ==> OwnsSlot(ss[k], c, ss[k].calls[c].cmd.eventNr)
    ensures !LeavesSlot(ss[k].calls[c].result) ==> ss[k].calls[c].result in {Finished, Failed}
  {
    RunKeepsInv(ss, acts, k);
    var s := ss[k];
    assert CallOk(s, c);
    forall i: nat | OwnsSlot(s, c, i)
      ensures Holds(s.calls[c]) && i == s.calls[c].cmdIndex && s.slots[i].inBit
    {
      assert SlotOk(s, i);
    }
    if LeavesSlot(s.calls[c].result) {
      assert OwnsSlot(s, c, s.calls[c].cmdIndex);
      assert SlotOk(s, s.calls[c].cmdIndex);
    }
  }

  predicate OwnsSlot(s: State, c: nat, i: nat) {
    SameLengths(s) && i < |s.slots| && s.owner[i] == Some(c)
  }

  /** The call has returned, will never be resumed, and has left its slot taken. */
  predicate Stranded(s: State, c: nat) {
    c in s.calls && s.calls[c].pc == Returned && (s.calls[c].result == Crashed || s.calls[c].result == Refused)
  }

  /** The slot of a stranded call is never free again, in any continuation of the run. */
  lemma StrandedSlotsAreLost(ss: seq<State>, acts: seq<Action>, k: nat, l: nat, c: nat)
    requires Run(ss, acts) && k <= l < |ss| && Stranded(ss[k], c)
    ensures Stranded(ss[l], c) && OwnsSlot(ss[l], c, ss[k].calls[c].cmdIndex)
    ensures ss[l].slots[ss[k].calls[c].cmdIndex].inBit
  {
    StrandedForGood(ss, acts, k, l, c);
    RunKeepsInv(ss, acts, l);
    StrandedOwns(ss[l], c);
  }

  lemma StrandedOwns(s: State, c: nat)
    requires Inv(s) && Stranded(s, c)
    ensures OwnsSlot(s, c, s.calls[c].cmdIndex) && s.slots[s.calls[c].cmdIndex].inBit
  {
    assert CallOk(s, c);
    assert SlotOk(s, s.calls[c].cmdIndex);
  }

  lemma {:induction false} StrandedForGood(ss: seq<State>, acts: seq<Action>, k: nat, l: nat, c: nat)
    requires Run(ss, acts) && k <= l < |ss| && Stranded(ss[k], c)
    ensures c in ss[l].calls && ss[l].calls[c] == ss[k].calls[c]
    decreases l
  {
    hide Enabled;
    hide Apply;
    if k < l {
      StrandedForGood(ss, acts, k, l - 1, c);
      StrandedStays(ss[l - 1], acts[l - 1], c);
    }
  }

  lemma StrandedStays(s: State, a: Action, c: nat)
    requires SameLengths(s) && Enabled(s, a) && Stranded(s, c)
    ensures c in Apply(s, a).calls && Apply(s, a).calls[c] == s.calls[c]
  {
  }

  // ----- a resend refused before it began does strand a slot

  ghost predicate Reachable(s: State) {
    exists ss: seq<State>, acts: seq<Action> :: Run(ss, acts) && ss[|acts|] == s
  }

  lemma ReachFirst(s: State)
    requires Init(s)
    ensures Reachable(s)
  {
    assert Run([s], []);
  }

  lemma ReachNext(s: State, a: Action)
    requires Reachable(s) && SameLengths(s) && Enabled(s, a)
    ensures Reachable(Apply(s, a))
  {
    hide Enabled;
    hide Apply;
    var ss: seq<State>, acts: seq<Action> :| Run(ss, acts) && ss[|acts|] == s;
    var tt, bb := ss + [Apply(s, a)], acts + [a];
    forall k | 0 <= k < |bb|
      ensures SameLengths(tt[k]) && Enabled(tt[k], bb[k]) && tt[k + 1] == Apply(tt[k], bb[k])
    {
      assert k < |acts| ==> tt[k] == ss[k] && tt[k + 1] == ss[k + 1] && bb[k] == acts[k];
    }
    assert Run(tt, bb) && tt[|bb|] == Apply(s, a);
  }

  /** The first call ever is set up in the first slot. */
  lemma FirstSetUp(s: State, c: nat) returns (r: State)
    requires Init(s) && |s.slots| > 0
    ensures Reachable(r) && SameLengths(r) && |r.slots| > 0 && At(r, c, Building) && r.calls[c].cmdIndex == 0
    ensures r.slots[0].inBit && r.slots[0].inCmd.eventNr == 0 && r.calls[c].usage == Clear
  {
    ReachFirst(s);
    var s1 := Apply(s, Start(c));
    ReachNext(s, Start(c));
    r := Apply(s1, OpsNormal(c));
    ReachNext(s1, OpsNormal(c));
  }

  lemma FirstPublished(s: State, c: nat) returns (r: State)
    requires Init(s) && |s.slots| > 0
    ensures Reachable(r) && SameLengths(r) && |r.slots| > 0 && At(r, c, Send) && r.calls[c].cmdIndex == 0
    ensures r.slots[0].inBit && !r.slots[0].doing && r.slots[0].inCmd.eventNr == 0
  {
    var s1 := FirstComplete(s, c);
    r := Apply(s1, Publish(c));
    ReachNext(s1, Publish(c));
  }

  lemma FirstComplete(s: State, c: nat) returns (r: State)
    requires Init(s) && |s.slots| > 0
    ensures Reachable(r) && SameLengths(r) && |r.slots| > 0 && At(r, c, Building) && r.calls[c].cmdIndex == 0
    ensures r.slots[0].inBit && r.slots[0].inCmd.eventNr == 0 && r.calls[c].usage == Clear
    ensures r.slots[0].inCmd.stamped && r.slots[0].inCmd.sealed
  {
    var s1 := FirstSetUp(s, c);
    var s2 := Apply(s1, Stamp(c));
    ReachNext(s1, Stamp(c));
    r := Apply(s2, Seal(c));
    ReachNext(s2, Seal(c));
  }

  /** The first call ever sees the answer PENDING. */
  lemma FirstAnswered(s: State, c: nat) returns (r: State)
    requires Init(s) && |s.slots| > 0
    ensures Reachable(r) && SameLengths(r) && At(r, c, Done) && r.calls[c].cmdIndex == 0 && |r.slots| > 0
    ensures r.slots[0].out && r.slots[0].outCmd.ret == Pending
  {
    var s1 := FirstPosted(s, c);
    var s2 := Apply(s1, SmcReturns(c));
    ReachNext(s1, SmcReturns(c));
    r := Apply(s2, PollOut(c));
    ReachNext(s2, PollOut(c));
  }

  lemma FirstPosted(s: State, c: nat) returns (r: State)
    requires Init(s) && |s.slots| > 0
    ensures Reachable(r) && SameLengths(r) && |r.slots| > 0 && At(r, c, Send) && r.calls[c].cmdIndex == 0
    ensures r.slots[0].out && r.slots[0].outCmd.ret == Pending
  {
    var s1 := FirstPublished(s, c);
    var s2 := Apply(s1, Take(0));
    ReachNext(s1, Take(0));
    r := Apply(s2, Respond(0, Pending));
    ReachNext(s2, Respond(0, Pending));
  }

  /**
    With any number of slots: a call that is answered PENDING and whose resend finds no memory comes back with an error
    while its slot is still taken.
   */
  lemma RefusedResendStrandsSlot(s: State, c: nat) returns (r: State)
    requires Init(s) && |s.slots| > 0
    ensures Reachable(r) && Stranded(r, c) && r.calls[c].result == Refused && OwnsSlot(r, c, 0) && r.slots[0].inBit
  {
    var s1 := FirstAnswered(s, c);
    var s2 := Apply(s1, Collect(c));
    ReachNext(s1, Collect(c));
    var s3 := Apply(s2, CleanUp(c));
    ReachNext(s2, CleanUp(c));
    r := Apply(s3, ResumeFails(c));
    ReachNext(s3, ResumeFails(c));
    ReachableInv(r);
    StrandedOwns(r, c);
  }

  lemma ReachableInv(s: State)
    requires Reachable(s)
    ensures Inv(s)
  {
    var ss: seq<State>, acts: seq<Action> :| Run(ss, acts) && ss[|acts|] == s;
    RunKeepsInv(ss, acts, |acts|);
  }

  /** "cmd out is not ready" cannot happen, and the release in the clean-up is never needed. */
  lemma CollectFindsAnswer(ss: seq<State>, acts: seq<Action>, k: nat)
    requires Run(ss, acts) && k < |acts|
    ensures acts[k].Collect? ==> ss[k].slots[ss[k].calls[acts[k].c].cmdIndex].out
    ensures acts[k].CleanUp? ==>
      !(ss[k].calls[acts[k].c].usage != Clear && ss[k].calls[acts[k].c].result != Suspended)
  {
    RunKeepsInv(ss, acts, k);
    if acts[k].Collect? || acts[k].CleanUp? {
      var c := acts[k].c;
      assert CallOk(ss[k], c);
      assert acts[k].Collect? ==> SlotOk(ss[k], ss[k].calls[c].cmdIndex);
    }
  }

  // ----- answers

  /** A submission of this call is on its way: its answer has not been collected. */
  predicate InFlight(call: Call) {
    call.pc == Building || call.pc == Rebuilding || Waiting(call)
  }

  predicate DeliveryOk(s: State, d: Delivery) {
    d.answer.caller == d.call && d.answer.serial == d.serial && d.call in s.calls &&
    1 <= d.serial <= s.calls[d.call].serial && (InFlight(s.calls[d.call]) ==> d.serial < s.calls[d.call].serial)
  }

  predicate NumberOk(call: Call) {
    (call.pc == Retry && !Holds(call) ==> call.serial == 0) && (Holds(call) ==> call.serial >= 1)
  }

  ghost predicate DeliveriesOk(s: State) {
    (forall c: nat :: c in s.calls ==> NumberOk(s.calls[c])) &&
    (forall k: nat :: k < |s.delivered| ==> DeliveryOk(s, s.delivered[k])) &&
    (forall k: nat, l: nat :: k < l < |s.delivered| ==>
      s.delivered[k].call != s.delivered[l].call || s.delivered[k].serial != s.delivered[l].serial)
  }

  ghost predicate DeliveredInv(s: State) {
    MatchInv(s) && DeliveriesOk(s)
  }

  /** A call never goes back to an earlier submission, and puts a new one in flight only under a new number. */
  ghost predicate Progress(before: Call, after: Call) {
    after.serial >= before.serial && NumberOk(after) &&
    (InFlight(after) && !InFlight(before) ==> after.serial > before.serial)
  }

  lemma CallsProgress(s: State, a: Action, c: nat)
    requires Inv(s) && Enabled(s, a) && c in s.calls && NumberOk(s.calls[c])
    ensures c in Apply(s, a).calls && Progress(s.calls[c], Apply(s, a).calls[c])
  {
    assert CallOk(s, c);
    if a.Collect? {
      CollectProgress(s, a.c, c);
    } else if a.OpsNormal? {
      OpsProgress(s, a.c, c);
    } else if a.Start? || a.StartFails? || a.Resume? || a.ResumeFails? || a.CleanUp? {
      EndsProgress(s, a, c);
    } else {
      OtherProgress(s, a, c);
    }
  }

  lemma EndsProgress(s: State, a: Action, c: nat)
    requires SameLengths(s) && Enabled(s, a) && (a.Start? || a.StartFails? || a.Resume? || a.ResumeFails? || a.CleanUp?)
    requires c in s.calls && NumberOk(s.calls[c]) && LocalOk(s.calls[c])
    ensures c in Apply(s, a).calls && Progress(s.calls[c], Apply(s, a).calls[c])
  {
  }

  lemma CollectProgress(s: State, d: nat, c: nat)
    requires SameLengths(s) && Enabled(s, Collect(d)) && c in s.calls && NumberOk(s.calls[c])
    ensures c in Apply(s, Collect(d)).calls && Progress(s.calls[c], Apply(s, Collect(d)).calls[c])
  {
  }

  lemma OpsProgress(s: State, d: nat, c: nat)
    requires SameLengths(s) && Enabled(s, OpsNormal(d)) && c in s.calls && NumberOk(s.calls[c]) && LocalOk(s.calls[c])
    ensures c in Apply(s, OpsNormal(d)).calls && Progress(s.calls[c], Apply(s, OpsNormal(d)).calls[c])
  {
  }

  lemma OtherProgress(s: State, a: Action, c: nat)
    requires SameLengths(s) && Enabled(s, a) && !a.Collect? && !a.OpsNormal?
    requires !(a.Start? || a.StartFails? || a.Resume? || a.ResumeFails? || a.CleanUp?)
    requires c in s.calls && NumberOk(s.calls[c]) && LocalOk(s.calls[c])
    ensures c in Apply(s, a).calls && Progress(s.calls[c], Apply(s, a).calls[c])
  {
  }

  /** Any step other than collecting: no delivery is added, and none becomes wrong. */
  lemma QuietStep(s: State, a: Action)
    requires Inv(s) && DeliveriesOk(s) && Enabled(s, a) && !a.Collect?
    ensures DeliveriesOk(Apply(s, a))
  {
    var r := Apply(s, a);
    assert r.delivered == s.delivered;
    forall c: nat | c in r.calls
      ensures NumberOk(r.calls[c])
    {
      if c in s.calls { CallsProgress(s, a, c); }
    }
    forall k: nat | k < |r.delivered|
      ensures DeliveryOk(r, r.delivered[k])
    {
      assert DeliveryOk(s, s.delivered[k]);
      CallsProgress(s, a, s.delivered[k].call);
    }
  }

  /** Collecting a matching answer of a submission in flight. */
  lemma CollectStep(s: State, r: State, c: nat, answer: Cmd)
    requires DeliveriesOk(s) && c in s.calls && InFlight(s.calls[c]) && s.calls[c].serial >= 1
    requires answer.caller == c && answer.serial == s.calls[c].serial
    requires r.delivered == s.delivered + [Delivery(c, s.calls[c].serial, answer)]
    requires c in r.calls && Progress(s.calls[c], r.calls[c]) && !InFlight(r.calls[c])
    requires forall d: nat :: d != c ==> (d in s.calls <==> d in r.calls) && (d in s.calls ==> r.calls[d] == s.calls[d])
    ensures DeliveriesOk(r)
  {
    forall k: nat | k < |r.delivered|
      ensures DeliveryOk(r, r.delivered[k])
    {
      if k < |s.delivered| {
        assert DeliveryOk(s, s.delivered[k]);
      }
    }
    forall k: nat, l: nat | k < l < |r.delivered|
      ensures r.delivered[k].call != r.delivered[l].call || r.delivered[k].serial != r.delivered[l].serial
    {
      if l == |s.delivered| {
        assert DeliveryOk(s, s.delivered[k]);
      }
    }
  }

  lemma CollectKeepsDelivered(s: State, c: nat)
    requires DeliveredInv(s) && At(s, c, Done)
    ensures DeliveriesOk(Apply(s, Collect(c)))
  {
    var i := s.calls[c].cmdIndex;
    assert CallOk(s, c) && SlotOk(s, i) && SlotMatched(s, i);
    CallsProgress(s, Collect(c), c);
    CollectDelivers(s, c);
    CollectStep(s, Apply(s, Collect(c)), c, s.slots[i].outCmd);
  }

  lemma CollectDelivers(s: State, c: nat)
    requires SameLengths(s) && At(s, c, Done) && s.slots[s.calls[c].cmdIndex].out
    ensures var r, answer := Apply(s, Collect(c)), s.slots[s.calls[c].cmdIndex].outCmd;
      r.delivered == s.delivered + [Delivery(c, s.calls[c].serial, answer)] &&
      r.calls == s.calls[c := r.calls[c]] && !InFlight(r.calls[c])
  {
  }

  lemma {:induction false} RunKeepsDelivered(ss: seq<State>, acts: seq<Action>, k: nat)
    requires Run(ss, acts) && k < |ss|
    requires forall l: nat :: l < |acts| ==> AbortsUnanswered(ss[l], acts[l]) && AnswersWhileDoing(ss[l], acts[l])
    ensures DeliveredInv(ss[k])
  {
    hide Apply;
    if k == 0 {
      InitInv(ss[0]);
      assert forall i: nat :: i < |ss[0].slots| ==> OwnerKnown(ss[0], i) && SlotMatched(ss[0], i);
    } else {
      RunKeepsDelivered(ss, acts, k - 1);
      StepKeepsMatch(ss[k - 1], acts[k - 1]);
      if acts[k - 1].Collect? {
        CollectKeepsDelivered(ss[k - 1], acts[k - 1].c);
      } else {
        QuietStep(ss[k - 1], acts[k - 1]);
      }
    }
  }

  /**
    In every run whose aborts hit unanswered commands and whose secure side is silent while the doing bit is clear, each
    answer a call collects is the answer to its own latest submission, and no submission is answered twice.
   */
  lemma AnswersMatch(ss: seq<State>, acts: seq<Action>, k: nat)
    requires Run(ss, acts) && k < |ss|
    requires forall l: nat :: l < |acts| ==> AbortsUnanswered(ss[l], acts[l]) && AnswersWhileDoing(ss[l], acts[l])
    ensures forall n :: 0 <= n < |ss[k].delivered| ==>
      ss[k].delivered[n].answer.caller == ss[k].delivered[n].call &&
      ss[k].delivered[n].answer.serial == ss[k].delivered[n].serial
    ensures forall n, m :: 0 <= n < m < |ss[k].delivered| ==>
      ss[k].delivered[n].call != ss[k].delivered[m].call || ss[k].delivered[n].serial != ss[k].delivered[m].serial
    ensures k < |acts| && acts[k].Collect? ==>
      |ss[k + 1].delivered| == |ss[k].delivered| + 1 &&
      ss[k + 1].delivered[|ss[k].delivered|].call == acts[k].c &&
      ss[k + 1].delivered[|ss[k].delivered|].serial == ss[k].calls[acts[k].c].serial
  {
    RunKeepsDelivered(ss, acts, k);
    forall n: nat | n < |ss[k].delivered|
      ensures DeliveryOk(ss[k], ss[k].delivered[n])
    {
    }
    if k < |acts| {
      CollectFindsAnswer(ss, acts, k);
    }
  }
}
