/**
  The session token over any sequence of calls: every call with the client's current part is accepted, and an old part
  is accepted again exactly when no call in between has moved the stamp.
 */
module TokenRuns {
  import opened Options
  import opened Octets
  import opened TokenStamp
  import opened Token

  /** A call whose command is submitted so many times and then answered by the secure world or not. */
  datatype Invocation = Invocation(submissions: nat, answered: bool)

  /**
    From fill to post-processing; the secure world marks the token of a command it answers and leaves the rest of it.
   */
  function AfterCall(st: Tokens, key: seq<byte>, api: seq<byte>, c: Invocation): (r: (Tokens, bool))
    requires Sized(st) && |key| > 0 && |api| == 2
    ensures Sized(r.0)
  {
    var (f, ok) := Filled(st, Invoke, api, true);
    if !ok then (f, false)
    else
      match SubmitTimes(f.pack, key, c.submissions)
      case None => (f, false)
      case Some(t) =>
        Processed(f.(pack := if c.answered then t[SYNC_INDEX := IS_SYNCED] else t), key, Invoke, true, true)
  }

  /** How far a call moves the stamp. */
  function Gain(c: Invocation): nat {
    if c.answered || c.submissions == 0 then c.submissions else c.submissions - 1
  }

  /** The token has some byte outside the stamp, so that it is never taken for an empty one. */
  predicate Marked(st: Tokens, api: seq<byte>)
    requires Sized(st)
  {
    !IsTokenEmpty(st.client[..TIMESTAMP_SAVE_INDEX]) || !IsTokenEmpty(api) ||
    !IsTokenEmpty(st.session[TIMESTAMP_SAVE_INDEX..TIMESTAMP_BUFFER_INDEX])
  }

  /** `r` is `st` with another stamp: the parts that are not the stamp are where and what they were. */
  predicate SameParts(st: Tokens, r: Tokens)
    requires Sized(st) && Sized(r)
  {
    r.client[..TIMESTAMP_SAVE_INDEX] == st.client[..TIMESTAMP_SAVE_INDEX] &&
    r.session[..TIMESTAMP_BUFFER_INDEX] == st.session[..TIMESTAMP_BUFFER_INDEX]
  }

  lemma NonzeroKept(part: seq<byte>, t: seq<byte>, at: nat)
    requires at + |part| <= |t| && forall i :: 0 <= i < |part| ==> t[at + i] == part[i]
    ensures !IsTokenEmpty(part) ==> !IsTokenEmpty(t)
  {
    if j: nat :| j < |part| && part[j] != 0 {
      assert t[at + j] != 0;
    }
  }

  lemma MarkedIsNotEmpty(st: Tokens, api: seq<byte>)
    requires Sized(st) && |api| == 2 && Marked(st, api) && Filled(st, Invoke, api, true).1
    ensures !IsTokenEmpty(Filled(st, Invoke, api, true).0.pack)
  {
    var t := Filled(st, Invoke, api, true).0.pack;
    var front, end := st.client[..TIMESTAMP_SAVE_INDEX], st.session[TIMESTAMP_SAVE_INDEX..KERNAL_API_INDEX];
    assert t == front + end + api;
    assert forall i :: 0 <= i < |front| ==> t[i] == front[i];
    assert forall i :: 0 <= i < |end| ==> t[|front| + i] == end[i];
    assert forall i :: 0 <= i < |api| ==> t[|front| + |end| + i] == api[i];
    var middle := st.session[TIMESTAMP_SAVE_INDEX..TIMESTAMP_BUFFER_INDEX];
    assert forall i :: 0 <= i < |middle| ==> middle[i] == end[i];
    NonzeroKept(front, t, 0);
    NonzeroKept(middle, t, |front|);
    NonzeroKept(api, t, |front| + |end|);
  }

  /** A call from a split token is accepted, splits the token again, and moves its stamp by what it gains. */
  lemma CallMovesStamp(st: Tokens, key: seq<byte>, api: seq<byte>, c: Invocation)
    requires Sized(st) && |key| > 0 && |api| == 2 && Split(st) && Marked(st, api) && c.submissions > 0
    requires Stamp(StampOf(st.session), key) + c.submissions < U64
    ensures var (r, ok) := AfterCall(st, key, api, c);
      ok && Split(r) && SameParts(st, r) && Stamp(StampOf(r.session), key) == Stamp(StampOf(st.session), key) + Gain(c)
  {
    var (f, _) := Filled(st, Invoke, api, true);
    MarkedIsNotEmpty(st, api);
    assert StampOf(f.pack) == StampOf(st.session);
    SubmitTimesStamp(f.pack, key, c.submissions);
    SubmittedStamp(StampOf(f.pack), key, c.submissions);
    var s := Submitted(StampOf(f.pack), key, c.submissions).value;
    var t := SubmitTimes(f.pack, key, c.submissions).value;
    assert t == WithStamp(f.pack, s)[SYNC_INDEX := UN_SYNCED];
    if c.answered {
      AnsweredSplits(st, f, api, key, t, s);
    } else {
      RollbackRestores(StampOf(f.pack), key, c.submissions);
      UnansweredSplits(st, f, api, key, t, s, Moved(s, key, Dec).value);
    }
  }

  lemma AnsweredSplits(st: Tokens, f: Tokens, api: seq<byte>, key: seq<byte>, t: seq<byte>, s: seq<byte>)
    requires Sized(st) && |key| > 0 && |api| == 2 && Split(st) && (f, true) == Filled(st, Invoke, api, true)
    requires |s| == STAMP_LEN && t == WithStamp(f.pack, s)[SYNC_INDEX := UN_SYNCED]
    ensures var (r, ok) := Processed(f.(pack := t[SYNC_INDEX := IS_SYNCED]), key, Invoke, true, true);
      ok && Split(r) && SameParts(st, r) && StampOf(r.session) == s
  {
    var m := t[SYNC_INDEX := IS_SYNCED];
    assert m[..TIMESTAMP_BUFFER_INDEX] == f.pack[..TIMESTAMP_BUFFER_INDEX];
    assert WithStamp(m, s) == m;
    RolledBack(st, f, m, s, api);
  }

  lemma UnansweredSplits(
    st: Tokens, f: Tokens, api: seq<byte>, key: seq<byte>, t: seq<byte>, s: seq<byte>, u: seq<byte>)
    requires Sized(st) && |key| > 0 && |api| == 2 && Split(st) && (f, true) == Filled(st, Invoke, api, true)
    requires |s| == |u| == STAMP_LEN && t == WithStamp(f.pack, s)[SYNC_INDEX := UN_SYNCED]
    requires Moved(s, key, Dec) == Some(u)
    ensures var (r, ok) := Processed(f.(pack := t), key, Invoke, true, true);
      ok && Split(r) && SameParts(st, r) && StampOf(r.session) == u
  {
    assert t[..TIMESTAMP_BUFFER_INDEX] == f.pack[..TIMESTAMP_BUFFER_INDEX];
    assert StampOf(t) == s;
    RolledBack(st, f, t, u, api);
  }

  // ----- sequences of calls

  function AfterCalls(st: Tokens, key: seq<byte>, api: seq<byte>, cs: seq<Invocation>): (r: (Tokens, bool))
    requires Sized(st) && |key| > 0 && |api| == 2
    ensures Sized(r.0)
    decreases |cs|
  {
    if cs == [] then (st, true)
    else
      var (q, ok) := AfterCall(st, key, api, cs[0]);
      if !ok then (q, false) else AfterCalls(q, key, api, cs[1..])
  }

  function Submissions(cs: seq<Invocation>): nat {
    if cs == [] then 0 else cs[0].submissions + Submissions(cs[1..])
  }

  function Gained(cs: seq<Invocation>): nat {
    if cs == [] then 0 else Gain(cs[0]) + Gained(cs[1..])
  }

  lemma MarkedStays(st: Tokens, r: Tokens, api: seq<byte>)
    requires Sized(st) && Sized(r) && SameParts(st, r) && Marked(st, api)
    ensures Marked(r, api)
  {
    assert r.session[TIMESTAMP_SAVE_INDEX..TIMESTAMP_BUFFER_INDEX] ==
      r.session[..TIMESTAMP_BUFFER_INDEX][TIMESTAMP_SAVE_INDEX..] ==
      st.session[..TIMESTAMP_BUFFER_INDEX][TIMESTAMP_SAVE_INDEX..];
  }

  /** Every call of a sequence is accepted, the token stays split, and the stamp moves by what the calls gain. */
  lemma {:induction false} CallsMoveStamp(st: Tokens, key: seq<byte>, api: seq<byte>, cs: seq<Invocation>)
    requires Sized(st) && |key| > 0 && |api| == 2 && Split(st) && Marked(st, api)
    requires forall i :: 0 <= i < |cs| ==> cs[i].submissions > 0
    requires Stamp(StampOf(st.session), key) + Submissions(cs) < U64
    ensures var (r, ok) := AfterCalls(st, key, api, cs);
      ok && Split(r) && SameParts(st, r) &&
      Stamp(StampOf(r.session), key) == Stamp(StampOf(st.session), key) + Gained(cs)
    decreases |cs|
  {
    if cs != [] {
      CallMovesStamp(st, key, api, cs[0]);
      var q := AfterCall(st, key, api, cs[0]).0;
      MarkedStays(st, q, api);
      CallsMoveStamp(q, key, api, cs[1..]);
    }
  }

  /**
    After any sequence of calls the part that the client had before it is accepted if and only if the stamp is where it
    was: every call in between was submitted once and not answered. A part that was used for an answered call is
    refused.
   */
  lemma OldTokenAccepted(st: Tokens, key: seq<byte>, api: seq<byte>, cs: seq<Invocation>)
    requires Sized(st) && |key| > 0 && |api| == 2 && Split(st) && Marked(st, api)
    requires forall i :: 0 <= i < |cs| ==> cs[i].submissions > 0
    requires Stamp(StampOf(st.session), key) + Submissions(cs) < U64
    ensures var now := AfterCalls(st, key, api, cs).0;
      Filled(now, Invoke, api, true).1 &&
      (Filled(now.(client := st.client), Invoke, api, true).1 <==> forall i :: 0 <= i < |cs| ==> Gain(cs[i]) == 0)
  {
    CallsMoveStamp(st, key, api, cs);
    OldPartAccepted(st, AfterCalls(st, key, api, cs).0, key, api);
    NothingGained(cs);
  }

  /**
    Of two split tokens, the one with the client's part of the other is accepted exactly when their stamps are equal.
   */
  lemma OldPartAccepted(st: Tokens, now: Tokens, key: seq<byte>, api: seq<byte>)
    requires Sized(st) && Sized(now) && Split(st) && Split(now) && |key| > 0 && |api| == 2
    ensures Filled(now, Invoke, api, true).1
    ensures (Filled(now.(client := st.client), Invoke, api, true).1 <==>
      Stamp(StampOf(now.session), key) == Stamp(StampOf(st.session), key))
  {
    CombineAcceptsIff(now, api);
    CombineAcceptsIff(now.(client := st.client), api);
    ScrambledOfStamp(StampOf(st.session), key);
    ScrambledOfStamp(StampOf(now.session), key);
  }

  lemma {:induction false} NothingGained(cs: seq<Invocation>)
    ensures Gained(cs) == 0 <==> forall i :: 0 <= i < |cs| ==> Gain(cs[i]) == 0
  {
    if cs != [] {
      NothingGained(cs[1..]);
      assert forall i :: 1 <= i < |cs| ==> cs[i] == cs[1..][i - 1];
    }
  }
}
