/**
  How long a pending call sleeps (core/smc_smp.c): the timeout asked for by the secure world becomes a
  schedule of sleeps that passes closely around it and ends late, kept in an array of five steps.
 */
module Timeout {

  const TO_STEP_SIZE: nat := 5
  /** Seconds after which a sleeping call looks again in any case. */
  const RESLEEP_TIMEOUT: nat := 15
  const MSEC_PER_SEC: nat := 1000
  const INVALID_STEP_SIZE: nat := 0xFFFF_FFFF

  /** `msecs_to_jiffies` at `hz` jiffies a second: rounded up. */
  function MsecsToJiffies(m: nat, hz: nat): (j: nat)
    ensures m > 0 && hz > 0 ==> j > 0
    ensures MSEC_PER_SEC * j >= m * hz && (j > 0 ==> MSEC_PER_SEC * (j - 1) < m * hz)
  {
    RoundUp(m * hz);
    (m * hz + MSEC_PER_SEC - 1) / MSEC_PER_SEC
  }

  lemma RoundUp(x: nat)
    ensures var j := (x + MSEC_PER_SEC - 1) / MSEC_PER_SEC;
      MSEC_PER_SEC * j >= x && (j > 0 ==> MSEC_PER_SEC * (j - 1) < x)
  {
  }

  lemma AtMostLimit(m: nat, hz: nat)
    ensures MsecsToJiffies(RESLEEP_TIMEOUT * MSEC_PER_SEC, hz) == RESLEEP_TIMEOUT * hz
    ensures m <= RESLEEP_TIMEOUT * MSEC_PER_SEC ==> MsecsToJiffies(m, hz) <= RESLEEP_TIMEOUT * hz
  {
    var limit := RESLEEP_TIMEOUT * MSEC_PER_SEC;
    assert limit * hz == MSEC_PER_SEC * (RESLEEP_TIMEOUT * hz);
    if m <= limit {
      assert (limit - m) * hz >= 0;
      assert m * hz <= limit * hz;
    }
  }

  /** The timeout in jiffies that a request stands for: its own, or 15 seconds if it asks for more. */
  function Requested(timeout: nat, hz: nat): (t: nat)
    ensures t <= RESLEEP_TIMEOUT * hz
    ensures timeout >= RESLEEP_TIMEOUT * MSEC_PER_SEC ==> t == RESLEEP_TIMEOUT * hz
    ensures timeout <= RESLEEP_TIMEOUT * MSEC_PER_SEC ==>
      MSEC_PER_SEC * t >= timeout * hz && (t > 0 ==> MSEC_PER_SEC * (t - 1) < timeout * hz)
  {
    AtMostLimit(timeout, hz);
    MsecsToJiffies(if timeout > RESLEEP_TIMEOUT * MSEC_PER_SEC then RESLEEP_TIMEOUT * MSEC_PER_SEC else timeout, hz)
  }

  // ----- what a schedule should do

  /** Jiffies that have passed after the first `k` sleeps. */
  function Elapsed(steps: seq<nat>, k: nat): (r: nat)
    requires k <= |steps|
  {
    if k == 0 then 0 else Elapsed(steps, k - 1) + steps[k - 1]
  }

  /** Some sleep ends after exactly `t` jiffies. */
  ghost predicate PassesThrough(steps: seq<nat>, t: nat) {
    exists k: nat :: 0 < k <= |steps| && Elapsed(steps, k) == t
  }

  function Max(a: nat, b: nat): nat {
    if a > b then a else b
  }

  /** The promise: around the requested time the call looks at every jiffy, and it gives up only after 15 seconds. */
  ghost predicate KeepsPromise(steps: seq<nat>, timeout: nat, hz: nat) {
    0 < |steps| <= TO_STEP_SIZE && (forall k :: 0 <= k < |steps| ==> steps[k] > 0) &&
    if timeout == 0 then steps == [RESLEEP_TIMEOUT * hz]
    else
      var t := Requested(timeout, hz);
      (t > 1 ==> PassesThrough(steps, t - 1)) && PassesThrough(steps, t) &&
      PassesThrough(steps, t + 1) && PassesThrough(steps, t + 2) &&
      Elapsed(steps, |steps|) == Max(RESLEEP_TIMEOUT * hz, t + 2)
  }

  lemma PromiseKept(steps: seq<nat>, timeout: nat, hz: nat)
    requires timeout > 0 && hz > 0
    requires var t := Requested(timeout, hz);
      steps == (if t > 1 then [t - 1, 1, 1, 1] else [t, 1, 1]) +
        (if RESLEEP_TIMEOUT * hz > t + 2 then [RESLEEP_TIMEOUT * hz - 2 - t] else [])
    ensures KeepsPromise(steps, timeout, hz)
  {
    var t := Requested(timeout, hz);
    var i := if t > 1 then 1 else 0;
    assert Elapsed(steps, 1) == steps[0];
    assert Elapsed(steps, 2) == steps[0] + steps[1];
    assert Elapsed(steps, 3) == steps[0] + steps[1] + steps[2];
    assert |steps| >= 4 ==> Elapsed(steps, 4) == steps[0] + steps[1] + steps[2] + steps[3];
    assert |steps| >= 5 ==> Elapsed(steps, 5) == steps[0] + steps[1] + steps[2] + steps[3] + steps[4];
    assert Elapsed(steps, i + 1) == t && Elapsed(steps, i + 2) == t + 1 && Elapsed(steps, i + 3) == t + 2;
  }

  /**
    A schedule that keeps the promise ends after 15 seconds or at most two jiffies later, and a request for 15 seconds
    or more is kept at 15 seconds.
   */
  lemma PromiseIsBounded(steps: seq<nat>, timeout: nat, hz: nat)
    requires KeepsPromise(steps, timeout, hz) && hz > 0
    ensures RESLEEP_TIMEOUT * hz <= Elapsed(steps, |steps|) <= RESLEEP_TIMEOUT * hz + 2
    ensures timeout >= RESLEEP_TIMEOUT * MSEC_PER_SEC ==>
      PassesThrough(steps, RESLEEP_TIMEOUT * hz) && Elapsed(steps, |steps|) == RESLEEP_TIMEOUT * hz + 2
  {
    if timeout == 0 {
      assert Elapsed(steps, 1) == Elapsed(steps, 0) + steps[0];
    }
  }

  // ----- the steps, updated in place

  datatype Pending = Woken | TimedOut | LastTimedOut

  /** `struct timeout_step_t` */
  class TimeoutStep {
    const steps: array<nat>
    var size: nat
    var cur: nat

    ghost predicate Ok()
      reads this
    {
      steps.Length == TO_STEP_SIZE && size <= TO_STEP_SIZE && (cur == INVALID_STEP_SIZE || cur < size)
    }

    constructor ()
      ensures Ok() && cur == INVALID_STEP_SIZE && fresh(steps)
    {
      steps := new nat[TO_STEP_SIZE](_ => 0);
      size, cur := TO_STEP_SIZE, INVALID_STEP_SIZE;
    }

    /** `init_timeout_step`: writing the steps never leaves the array. */
    method Init(timeout: nat, hz: nat)
      requires Ok() && hz > 0
      modifies this, steps
      ensures Ok() && cur == 0 && KeepsPromise(steps[..size], timeout, hz)
    {
      var i := 0;
      if timeout == 0 {
        steps[0] := RESLEEP_TIMEOUT * hz;
        size := 1;
        assert steps[..size] == [RESLEEP_TIMEOUT * hz];
      } else {
        var clamped := if timeout > RESLEEP_TIMEOUT * MSEC_PER_SEC then RESLEEP_TIMEOUT * MSEC_PER_SEC else timeout;
        var t := MsecsToJiffies(clamped, hz);
        if t > 1 {
          steps[i] := t - 1;
          i := i + 1;
          steps[i] := 1;
          i := i + 1;
        } else {
          steps[i] := t;
          i := i + 1;
        }
        steps[i] := 1;
        i := i + 1;
        steps[i] := 1;
        i := i + 1;
        if RESLEEP_TIMEOUT * hz > t + 2 {
          steps[i] := RESLEEP_TIMEOUT * hz - 2 - t;
          i := i + 1;
        }
        size := i;
        assert steps[..size] == (if t > 1 then [t - 1, 1, 1, 1] else [t, 1, 1]) +
          (if RESLEEP_TIMEOUT * hz > t + 2 then [RESLEEP_TIMEOUT * hz - 2 - t] else []);
        PromiseKept(steps[..size], timeout, hz);
      }
      cur := 0;
    }

    /**
      The sleeping part of `proc_ta_pending`: `wakes` says for each step whether the call is woken during it. The steps
      slept are consecutive, each at most once, from where the schedule stood; a call that is never woken sleeps them
      all, in one go or, where the secure world has no timer interrupt, one at a time.
     */
    method Sleep(timeout: nat, hz: nat, timerNoIrq: bool, wakes: nat -> bool)
      returns (r: Pending, slept: nat, ghost start: nat)
      requires Ok() && hz > 0
      modifies this, steps
      ensures Ok() && cur < size && start == if old(cur) == INVALID_STEP_SIZE then 0 else old(cur)
      ensures old(cur) == INVALID_STEP_SIZE ==> KeepsPromise(steps[..size], timeout, hz)
      ensures old(cur) != INVALID_STEP_SIZE ==> steps[..] == old(steps[..]) && size == old(size)
      ensures 0 < slept && start + slept <= size && forall k: nat :: start <= k < start + slept - 1 ==> !wakes(k)
      ensures r == Woken <==> wakes(start + slept - 1)
      ensures r == Woken ==> cur == start + slept - 1
      ensures r == TimedOut ==> timerNoIrq && slept == 1 && cur == start + 1
      ensures r == LastTimedOut ==> start + slept == size && cur == size - 1 && (timerNoIrq ==> slept == 1)
    {
      hide KeepsPromise;
      if cur == INVALID_STEP_SIZE {
        Init(timeout, hz);
      }
      start := cur;
      slept := 0;
      while true
        invariant Ok() && cur < size && cur == start + slept && (timerNoIrq ==> slept == 0)
        invariant start == if old(cur) == INVALID_STEP_SIZE then 0 else old(cur)
        invariant old(cur) == INVALID_STEP_SIZE ==> KeepsPromise(steps[..size], timeout, hz)
        invariant old(cur) != INVALID_STEP_SIZE ==> steps[..] == old(steps[..]) && size == old(size)
        invariant forall k: nat :: start <= k < cur ==> !wakes(k)
        decreases size - cur
      {
        slept := slept + 1;
        if wakes(cur) {
          return Woken, slept, start;
        }
        if cur >= size - 1 {
          return LastTimedOut, slept, start;
        }
        cur := cur + 1;
        if timerNoIrq {
          return TimedOut, slept, start;
        }
      }
    }
  }
}
