/**
  What an answer makes of the call that collects it: a final answer ends the call, PENDING suspends it, PENDING2 makes
  it go round again with the same slot; and a call that has returned has its result from the last answer it collected.
 */
module SmcAnswers {
  import opened Options
  import opened SmcQueue
  import opened SmcProtocol
  import opened SmcInvariants
  import opened SmcTheorems

  /** The last answer that call `c` has collected. */
  function LastAnswer(ds: seq<Delivery>, c: nat): (r: Option<Delivery>)
    ensures r.Some? ==> r.value in ds && r.value.call == c
    ensures r.None? ==> forall d :: d in ds ==> d.call != c
  {
    if ds == [] then None
    else if ds[|ds| - 1].call == c then Some(ds[|ds| - 1])
    else LastAnswer(ds[..|ds| - 1], c)
  }

  lemma LastAnswerAdded(ds: seq<Delivery>, d: Delivery, c: nat)
    ensures LastAnswer(ds + [d], c) == if d.call == c then Some(d) else LastAnswer(ds, c)
  {
    assert (ds + [d])[..|ds|] == ds;
  }

  predicate Decided(call: Call) {
    call.pc == Clean || call.pc == Returned
  }

  /** Where a call can be once the answer to its latest submission has this return value. */
  predicate GoesBy(call: Call, ret: Ret) {
    match ret
    case Final => Decided(call) && call.result == Finished
    case Pending => (Decided(call) && (call.result == Suspended || call.result == Refused)) || MayResend(call)
    case Pending2 => MayResend(call)
  }

  /** About to send again, or found unable to. */
  predicate MayResend(call: Call) {
    (call.pc == Retry && call.usage == Resend && call.ops == Normal) || call.pc == Unusable ||
    (call.pc == Returned && call.result == Failed)
  }

  /** A call and the last answer it has collected. */
  predicate LineOk(call: Call, last: Option<Delivery>) {
    NumberOk(call) && (Decided(call) <==> call.result != Undecided) &&
    match last
    case None => call.result == Undecided || call.result == Crashed || call.result == Failed
    case Some(d) =>
      d.serial <= call.serial && (InFlight(call) ==> d.serial < call.serial) &&
      (call.result == Finished || call.result == Suspended || call.result == Refused ==> d.serial == call.serial) &&
      (d.answer.ret == Final ==> d.serial == call.serial) &&
      (d.serial == call.serial ==> GoesBy(call, d.answer.ret))
  }

  ghost predicate LinesOk(s: State) {
    (forall c: nat :: c in s.calls ==> LineOk(s.calls[c], LastAnswer(s.delivered, c))) &&
    (forall c: nat :: c !in s.calls ==> LastAnswer(s.delivered, c) == None)
  }

  // ----- whose step it is

  /** The call whose step the action is. */
  function Actor(a: Action): Option<nat> {
    match a
    case Take(_) | Respond(_, _) => None
    case _ => Some(a.c)
  }

  lemma OthersLeaveCall(s: State, a: Action, c: nat)
    requires SameLengths(s) && Enabled(s, a) && c in s.calls && Actor(a) != Some(c)
    ensures c in Apply(s, a).calls && Apply(s, a).calls[c] == s.calls[c]
  {
  }

  // ----- every step keeps it

  lemma QuietLine(s: State, a: Action, c: nat, last: Option<Delivery>)
    requires Inv(s) && Enabled(s, a) && !a.Collect? && c in s.calls && LineOk(s.calls[c], last)
    ensures c in Apply(s, a).calls && LineOk(Apply(s, a).calls[c], last)
  {
    hide Apply;
    assert CallOk(s, c);
    if Actor(a) != Some(c) {
      OthersLeaveCall(s, a, c);
    } else if a.OpsNormal? {
      CallsProgress(s, a, c);
      OpsLine(s, c, last);
    } else if a.Resume? || a.ResumeFails? || a.CleanUp? {
      EndsLine(s, a, last);
    } else if a.Stamp? || a.Seal? || a.BuildFail? || a.Publish? || a.ReleaseUnusable? {
      BuildLine(s, a, last);
    } else {
      LoopLine(s, a, last);
    }
  }

  lemma OpsLine(s: State, c: nat, last: Option<Delivery>)
    requires SameLengths(s) && Enabled(s, OpsNormal(c)) && LocalOk(s.calls[c]) && LineOk(s.calls[c], last)
    requires c in Apply(s, OpsNormal(c)).calls && NumberOk(Apply(s, OpsNormal(c)).calls[c])
    ensures LineOk(Apply(s, OpsNormal(c)).calls[c], last)
  {
  }

  lemma EndsLine(s: State, a: Action, last: Option<Delivery>)
    requires SameLengths(s) && Enabled(s, a) && (a.Resume? || a.ResumeFails? || a.CleanUp?)
    requires LocalOk(s.calls[a.c]) && LineOk(s.calls[a.c], last)
    ensures a.c in Apply(s, a).calls && LineOk(Apply(s, a).calls[a.c], last)
  {
  }

  lemma BuildLine(s: State, a: Action, last: Option<Delivery>)
    requires SameLengths(s) && Enabled(s, a)
    requires a.Stamp? || a.Seal? || a.BuildFail? || a.Publish? || a.ReleaseUnusable?
    requires LocalOk(s.calls[a.c]) && LineOk(s.calls[a.c], last)
    ensures a.c in Apply(s, a).calls && LineOk(Apply(s, a).calls[a.c], last)
  {
  }

  lemma LoopLine(s: State, a: Action, last: Option<Delivery>)
    requires SameLengths(s) && Enabled(s, a)
    requires a.SmcReturns? || a.SmcFails? || a.PollOut? || a.WaitAgain? || a.SeenDone? || a.Abort? || a.InvalidState?
    requires LocalOk(s.calls[a.c]) && LineOk(s.calls[a.c], last)
    ensures a.c in Apply(s, a).calls && LineOk(Apply(s, a).calls[a.c], last)
  {
  }

  lemma QuietLines(s: State, a: Action)
    requires Inv(s) && LinesOk(s) && Enabled(s, a) && !a.Collect?
    ensures LinesOk(Apply(s, a))
  {
    var r := Apply(s, a);
    QuietDelivers(s, a);
    forall c: nat | c in r.calls
      ensures LineOk(r.calls[c], LastAnswer(r.delivered, c))
    {
      if c in s.calls { QuietLine(s, a, c, LastAnswer(s.delivered, c)); } else { FirstLine(s, a, c); }
    }
  }

  lemma QuietDelivers(s: State, a: Action)
    requires SameLengths(s) && Enabled(s, a) && !a.Collect?
    ensures Apply(s, a).delivered == s.delivered && forall c: nat :: c in s.calls ==> c in Apply(s, a).calls
  {
  }

  lemma FirstLine(s: State, a: Action, c: nat)
    requires SameLengths(s) && Enabled(s, a) && !a.Collect? && c !in s.calls && c in Apply(s, a).calls
    ensures LineOk(Apply(s, a).calls[c], None)
  {
  }

  /** What collecting does, said on the call, its slot and what it has been delivered. */
  predicate Collects(s: State, r: State, c: nat, d: Delivery) {
    SameLengths(s) && SameLengths(r) && c in s.calls && c in r.calls && s.calls[c].cmdIndex < |s.slots| == |r.slots| &&
    var i := s.calls[c].cmdIndex;
    r.delivered == s.delivered + [d] && d == Delivery(c, s.calls[c].serial, s.slots[i].outCmd) && s.slots[i].out &&
    r.calls == s.calls[c := r.calls[c]] && r.calls[c].serial == s.calls[c].serial && r.calls[c].cmdIndex == i &&
    match d.answer.ret
    case Final => r.calls[c].pc == Clean && r.calls[c].result == Finished && r.owner[i].None? && !r.slots[i].inBit
    case Pending =>
      r.calls[c].pc == Clean && r.calls[c].result == Suspended && r.calls[c].cmd == d.answer &&
      r.owner[i] == s.owner[i] && r.slots[i] == s.slots[i].(out := false)
    case Pending2 =>
      r.calls[c].pc == Retry && r.calls[c].result == s.calls[c].result && r.calls[c].usage == Resend &&
      r.calls[c].ops == Normal && r.owner[i] == s.owner[i] && r.slots[i] == s.slots[i].(out := false)
  }

  lemma CollectCollects(s: State, c: nat)
    requires SameLengths(s) && At(s, c, Done) && s.slots[s.calls[c].cmdIndex].out
    ensures var i := s.calls[c].cmdIndex;
      Collects(s, Apply(s, Collect(c)), c, Delivery(c, s.calls[c].serial, s.slots[i].outCmd))
  {
  }

  lemma CollectLines(s: State, r: State, c: nat, d: Delivery)
    requires LinesOk(s) && Collects(s, r, c, d) && s.calls[c].pc == Done && NumberOk(r.calls[c])
    ensures LinesOk(r)
  {
    hide LineOk;
    hide LastAnswer;
    CollectedLine(s, r, c, d);
    forall e: nat
      ensures LastAnswer(r.delivered, e) == if e == c then Some(d) else LastAnswer(s.delivered, e)
    {
      LastAnswerAdded(s.delivered, d, e);
    }
  }

  lemma CollectedLine(s: State, r: State, c: nat, d: Delivery)
    requires LinesOk(s) && Collects(s, r, c, d) && s.calls[c].pc == Done && NumberOk(r.calls[c])
    ensures LineOk(r.calls[c], Some(d))
  {
    hide LastAnswer;
    assert LineOk(s.calls[c], LastAnswer(s.delivered, c));
  }

  lemma StepKeepsLines(s: State, a: Action)
    requires Inv(s) && LinesOk(s) && Enabled(s, a)
    ensures LinesOk(Apply(s, a))
  {
    hide LinesOk;
    hide Apply;
    if a.Collect? {
      DoneHasAnswer(s, a.c);
      CollectCollects(s, a.c);
      CallNumber(s, a);
      CollectLines(s, Apply(s, a), a.c, Delivery(a.c, s.calls[a.c].serial, s.slots[s.calls[a.c].cmdIndex].outCmd));
    } else {
      QuietLines(s, a);
    }
  }

  lemma CallNumber(s: State, a: Action)
    requires Inv(s) && LinesOk(s) && Enabled(s, a) && a.Collect?
    ensures a.c in Apply(s, a).calls && NumberOk(Apply(s, a).calls[a.c])
  {
    hide Apply;
    assert LineOk(s.calls[a.c], LastAnswer(s.delivered, a.c));
    CallsProgress(s, a, a.c);
  }

  lemma DoneHasAnswer(s: State, c: nat)
    requires Inv(s) && At(s, c, Done)
    ensures s.slots[s.calls[c].cmdIndex].out && s.owner[s.calls[c].cmdIndex] == Some(c)
    ensures s.slots[s.calls[c].cmdIndex].inBit
  {
    assert CallOk(s, c);
    assert SlotOk(s, s.calls[c].cmdIndex);
  }

  lemma {:induction false} RunKeepsLines(ss: seq<State>, acts: seq<Action>, k: nat)
    requires Run(ss, acts) && k < |ss|
    ensures LinesOk(ss[k])
  {
    hide Enabled;
    hide Apply;
    hide Inv;
    if k > 0 {
      RunKeepsLines(ss, acts, k - 1);
      RunKeepsInv(ss, acts, k - 1);
      StepKeepsLines(ss[k - 1], acts[k - 1]);
    }
  }

  // ----- what it means

  /**
    A call that has returned finished if and only if the last answer it collected is final. It is suspended, or refused
    on its resend, only if that answer is PENDING and answers its latest submission; in particular an answer PENDING2
    never makes a call return, except through a failure.
   */
  lemma ReturnedAsAnswered(ss: seq<State>, acts: seq<Action>, k: nat, c: nat)
    requires Run(ss, acts) && k < |ss| && c in ss[k].calls && ss[k].calls[c].pc == Returned
    ensures var call, last := ss[k].calls[c], LastAnswer(ss[k].delivered, c);
      (call.result == Finished <==> last.Some? && last.value.answer.ret == Final) &&
      (call.result == Suspended || call.result == Refused ==>
        last.Some? && last.value.answer.ret == Pending && last.value.serial == call.serial) &&
      (last.None? || last.value.answer.ret == Pending2 ==> call.result == Crashed || call.result == Failed)
  {
    RunKeepsLines(ss, acts, k);
    assert LineOk(ss[k].calls[c], LastAnswer(ss[k].delivered, c));
  }

  /**
    The step in which an answer is collected: the call was waiting for it in slot `i`. A final answer ends the call and
    gives up the slot; PENDING suspends the call and PENDING2 sends it back to the retry label to send again, both with
    the slot still its own.
   */
  lemma AnswerDecides(ss: seq<State>, acts: seq<Action>, k: nat) returns (d: Delivery, i: nat)
    requires Run(ss, acts) && k < |acts| && ss[k + 1].delivered != ss[k].delivered
    ensures ss[k + 1].delivered == ss[k].delivered + [d] && d.call in ss[k].calls && d.call in ss[k + 1].calls
    ensures i == ss[k].calls[d.call].cmdIndex < |ss[k].slots| == |ss[k + 1].slots| && SameLengths(ss[k + 1])
    ensures d.answer == ss[k].slots[i].outCmd && ss[k].slots[i].out && d.serial == ss[k].calls[d.call].serial
    ensures var call := ss[k + 1].calls[d.call];
      call.serial == d.serial && call.cmdIndex == i &&
      match d.answer.ret
      case Final => call.pc == Clean && call.result == Finished && ss[k + 1].owner[i].None? && !ss[k + 1].slots[i].inBit
      case Pending => call.pc == Clean && call.result == Suspended && OwnsTaken(ss[k + 1], d.call, i)
      case Pending2 => AtResend(call) && call.result == Undecided && OwnsTaken(ss[k + 1], d.call, i)
  {
    hide Enabled;
    hide Apply;
    var s, a := ss[k], acts[k];
    RunKeepsInv(ss, acts, k);
    RunKeepsLines(ss, acts, k);
    if !a.Collect? { QuietDelivers(s, a); }
    var c := a.c;
    EnabledCollect(s, c);
    DoneHasAnswer(s, c);
    CollectCollects(s, c);
    i := s.calls[c].cmdIndex;
    d := Delivery(c, s.calls[c].serial, s.slots[i].outCmd);
    assert LineOk(s.calls[c], LastAnswer(s.delivered, c));
  }

  lemma EnabledCollect(s: State, c: nat)
    requires SameLengths(s) && Enabled(s, Collect(c))
    ensures At(s, c, Done)
  {
  }

  predicate OwnsTaken(s: State, c: nat, i: nat) {
    OwnsSlot(s, c, i) && s.slots[i].inBit && !s.slots[i].out
  }

  /** At the retry label, to send again with the slot it has. */
  predicate AtResend(call: Call) {
    call.pc == Retry && call.usage == Resend && call.ops == Normal
  }

  // ----- sending again

  lemma {:induction false} CallRests(ss: seq<State>, acts: seq<Action>, k: nat, l: nat, c: nat)
    requires Run(ss, acts) && k <= l < |ss| && c in ss[k].calls
    requires forall m: nat :: k <= m < l ==> Actor(acts[m]) != Some(c)
    ensures c in ss[l].calls && ss[l].calls[c] == ss[k].calls[c]
    decreases l
  {
    hide Enabled;
    hide Apply;
    if k < l {
      CallRests(ss, acts, k, l - 1, c);
      OthersLeaveCall(ss[l - 1], acts[l - 1], c);
    }
  }

  lemma ResendStep(s: State, a: Action, c: nat)
    requires Inv(s) && Enabled(s, a) && Actor(a) == Some(c) && c in s.calls && AtResend(s.calls[c])
    ensures var r, i := Apply(s, a), s.calls[c].cmdIndex;
      a == OpsNormal(c) && i < |s.slots| == |r.slots| && c in r.calls && r.calls[c].cmdIndex == i &&
      if s.slots[i].doing then
        r.calls[c].pc == Rebuilding && r.calls[c].serial == s.calls[c].serial + 1 &&
        r.slots[i].inCmd.serial == s.slots[i].outCmd.serial + 1 &&
        r.slots[i].inCmd.caller == s.slots[i].outCmd.caller && !r.slots[i].inCmd.stamped && !r.slots[i].inCmd.sealed
      else
        r.calls[c].pc == Unusable && r.slots == s.slots
  {
    assert CallOk(s, c);
    assert SlotOk(s, s.calls[c].cmdIndex);
  }

  /**
    After an answer PENDING2 the next step of the call is to send again in the same slot, under the next number; only a
    slot whose doing bit is clear cannot be reused.
   */
  lemma Pending2SendsAgain(ss: seq<State>, acts: seq<Action>, k: nat, l: nat, d: Delivery)
    requires Run(ss, acts) && k < l < |acts| && ss[k + 1].delivered == ss[k].delivered + [d] && d.answer.ret == Pending2
    requires Actor(acts[l]) == Some(d.call) && forall m: nat :: k < m < l ==> Actor(acts[m]) != Some(d.call)
    ensures d.call in ss[k].calls && d.call in ss[l + 1].calls
    ensures var i, call := ss[k].calls[d.call].cmdIndex, ss[l + 1].calls[d.call];
      i < |ss[l].slots| == |ss[l + 1].slots| && acts[l] == OpsNormal(d.call) && call.cmdIndex == i &&
      if ss[l].slots[i].doing then
        call.pc == Rebuilding && call.serial == d.serial + 1 &&
        ss[l + 1].slots[i].inCmd.serial == ss[l].slots[i].outCmd.serial + 1
      else
        call.pc == Unusable
  {
    hide Enabled;
    hide Apply;
    hide Inv;
    assert ss[k + 1].delivered != ss[k].delivered;
    var e, i := AnswerDecides(ss, acts, k);
    assert (ss[k].delivered + [e])[|ss[k].delivered|] == (ss[k].delivered + [d])[|ss[k].delivered|];
    CallRests(ss, acts, k + 1, l, d.call);
    RunKeepsInv(ss, acts, l);
    ResendStep(ss[l], acts[l], d.call);
  }
}
