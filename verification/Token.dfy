/**
  The session token (auth/security_auth_enhance.c): 42 bytes of which the client keeps bytes 0..15 and a
  copy of the time stamp while the kernel keeps the rest; put together for a call and split again after it.
 */
module Token {
  import opened Options
  import opened Octets
  import opened TokenStamp

  const TOKEN_BUFFER_LEN: nat := 42
  const TOKEN_SAVE_LEN: nat := 24
  /** Length of the client's part, and where its copy of the stamp begins. */
  const TIMESTAMP_SAVE_INDEX: nat := 16
  const TIMESTAMP_BUFFER_INDEX: nat := 32
  const KERNAL_API_INDEX: nat := 40
  const SYNC_INDEX: nat := 41

  const UN_SYNCED: byte := 0x55
  const IS_SYNCED: byte := 0xaa

  /** The token in the session, the token in the command pack shared with the secure world, and the client's part. */
  datatype Tokens = Tokens(session: seq<byte>, pack: seq<byte>, client: seq<byte>)

  predicate Sized(st: Tokens) {
    |st.session| == TOKEN_BUFFER_LEN && |st.pack| == TOKEN_BUFFER_LEN && |st.client| == TOKEN_SAVE_LEN
  }

  /** What a call is for the token: an open session, an invoke, or a call that has nothing to do with it. */
  datatype Kind = Open | Invoke | Other

  function Zeros(n: nat): (r: seq<byte>)
    ensures |r| == n && forall i :: 0 <= i < n ==> r[i] == 0
  {
    seq(n, _ => 0)
  }

  predicate IsTokenEmpty(t: seq<byte>) {
    forall i :: 0 <= i < |t| ==> t[i] == 0
  }

  function StampOf(t: seq<byte>): seq<byte>
    requires |t| == TOKEN_BUFFER_LEN
  {
    t[TIMESTAMP_BUFFER_INDEX..KERNAL_API_INDEX]
  }

  function WithStamp(t: seq<byte>, stamp: seq<byte>): (r: seq<byte>)
    requires |t| == TOKEN_BUFFER_LEN && |stamp| == STAMP_LEN
    ensures |r| == TOKEN_BUFFER_LEN && StampOf(r) == stamp
  {
    t[..TIMESTAMP_BUFFER_INDEX] + stamp + t[KERNAL_API_INDEX..]
  }

  /** `descrambling_timestamp` on a token. */
  function MovedToken(t: seq<byte>, key: seq<byte>, flag: Change): (r: Option<seq<byte>>)
    requires |t| == TOKEN_BUFFER_LEN && |key| > 0
    ensures r.Some? ==> |r.value| == TOKEN_BUFFER_LEN
  {
    match Moved(StampOf(t), key, flag)
    case None => None
    case Some(s) => Some(WithStamp(t, s))
  }

  /** `update_timestamp` of a command to a trusted application, whose session is found: what it does to the token. */
  function Submit(t: seq<byte>, key: seq<byte>): (r: Option<seq<byte>>)
    requires |t| == TOKEN_BUFFER_LEN && |key| > 0
    ensures r.Some? ==> |r.value| == TOKEN_BUFFER_LEN
  {
    if IsTokenEmpty(t) then None
    else
      match MovedToken(t, key, Inc)
      case None => None
      case Some(m) => Some(m[SYNC_INDEX := UN_SYNCED])
  }

  /** `sync_timestamp`; `found` says whether the look-up of the session succeeds. */
  function Sync(t: seq<byte>, key: seq<byte>, kind: Kind, found: bool): (r: Option<seq<byte>>)
    requires |t| == TOKEN_BUFFER_LEN && |key| > 0
    ensures r.Some? ==> |r.value| == TOKEN_BUFFER_LEN
  {
    if kind == Open then Some(t)
    else if t[SYNC_INDEX] == UN_SYNCED then if found then MovedToken(t, key, Dec) else None
    else if t[SYNC_INDEX] == IS_SYNCED then Some(t)
    else None
  }

  function Saved(t: seq<byte>): (r: seq<byte>)
    requires |t| == TOKEN_BUFFER_LEN
    ensures |r| == TOKEN_SAVE_LEN
  {
    t[..TIMESTAMP_SAVE_INDEX] + StampOf(t)
  }

  function Cleared(t: seq<byte>): (r: seq<byte>)
    requires |t| == TOKEN_BUFFER_LEN
    ensures |r| == TOKEN_BUFFER_LEN
  {
    Zeros(TIMESTAMP_SAVE_INDEX) + t[TIMESTAMP_SAVE_INDEX..]
  }

  /** `combine_temp_token`: `api` are the two bytes copied to the end of the token. */
  function Combined(client: seq<byte>, t: seq<byte>, api: seq<byte>): (r: Option<seq<byte>>)
    requires |t| == TOKEN_BUFFER_LEN && |client| == TOKEN_SAVE_LEN && |api| == 2
    ensures r.Some? ==> |r.value| == TOKEN_BUFFER_LEN
  {
    if client[TIMESTAMP_SAVE_INDEX..] != StampOf(t) then None
    else Some(client[..TIMESTAMP_SAVE_INDEX] + t[TIMESTAMP_SAVE_INDEX..KERNAL_API_INDEX] + api)
  }

  /** `fill_token_info` */
  function Filled(st: Tokens, kind: Kind, api: seq<byte>, readOk: bool): (r: (Tokens, bool))
    requires Sized(st) && |api| == 2
    ensures Sized(r.0)
  {
    match kind
    case Other => (st, true)
    case Open => (st.(session := Zeros(TOKEN_BUFFER_LEN), pack := Zeros(TOKEN_BUFFER_LEN)), true)
    case Invoke =>
      if !readOk then (st, false)
      else match Combined(st.client, st.session, api)
        case None => (st, false)
        case Some(t) => (st.(session := t, pack := t), true)
  }

  /** `post_process_token` */
  function Processed(st: Tokens, key: seq<byte>, kind: Kind, found: bool, writeOk: bool): (r: (Tokens, bool))
    requires Sized(st) && |key| > 0
    ensures Sized(r.0)
  {
    if kind == Other then (st, true)
    else
      match Sync(st.pack, key, kind, found)
      case None => (st.(session := st.pack, pack := Zeros(TOKEN_BUFFER_LEN)), false)
      case Some(t) =>
        if !writeOk then (st.(session := t, pack := Zeros(TOKEN_BUFFER_LEN)), false)
        else (Tokens(Cleared(t), Zeros(TOKEN_BUFFER_LEN), Saved(t)), true)
  }

  // ----- the split

  /** The client and the session agree on the stamp, and bytes 0..15 are the client's alone. */
  predicate Split(st: Tokens)
    requires Sized(st)
  {
    st.client[TIMESTAMP_SAVE_INDEX..] == StampOf(st.session) && IsTokenEmpty(st.session[..TIMESTAMP_SAVE_INDEX])
  }

  lemma SavedKeepsStamp(t: seq<byte>)
    requires |t| == TOKEN_BUFFER_LEN
    ensures Saved(t)[TIMESTAMP_SAVE_INDEX..] == StampOf(t)
    ensures Saved(t)[..TIMESTAMP_SAVE_INDEX] == t[..TIMESTAMP_SAVE_INDEX]
  {
    var front, stamp := t[..TIMESTAMP_SAVE_INDEX], StampOf(t);
    assert |front| == TIMESTAMP_SAVE_INDEX && Saved(t) == front + stamp;
    forall i | 0 <= i < |stamp|
      ensures Saved(t)[TIMESTAMP_SAVE_INDEX..][i] == stamp[i]
    {
      assert (front + stamp)[|front| + i] == stamp[i];
    }
  }

  lemma ClearedKeepsStamp(t: seq<byte>)
    requires |t| == TOKEN_BUFFER_LEN
    ensures StampOf(Cleared(t)) == StampOf(t)
    ensures forall i :: TIMESTAMP_SAVE_INDEX <= i < |t| ==> Cleared(t)[i] == t[i]
    ensures IsTokenEmpty(Cleared(t)[..TIMESTAMP_SAVE_INDEX])
  {
    var zeros, rest := Zeros(TIMESTAMP_SAVE_INDEX), t[TIMESTAMP_SAVE_INDEX..];
    assert |zeros| == TIMESTAMP_SAVE_INDEX && Cleared(t) == zeros + rest;
    forall i | TIMESTAMP_SAVE_INDEX <= i < |t|
      ensures Cleared(t)[i] == t[i]
    {
      assert (zeros + rest)[i] == rest[i - |zeros|];
    }
    assert forall i :: 0 <= i < TIMESTAMP_SAVE_INDEX ==> Cleared(t)[i] == zeros[i] == 0;
  }

  lemma SyncKeepsFront(t: seq<byte>, key: seq<byte>, kind: Kind, found: bool)
    requires |t| == TOKEN_BUFFER_LEN && |key| > 0 && Sync(t, key, kind, found).Some?
    ensures Sync(t, key, kind, found).value[..TIMESTAMP_SAVE_INDEX] == t[..TIMESTAMP_SAVE_INDEX]
  {
    var r := Sync(t, key, kind, found).value;
    forall i | 0 <= i < TIMESTAMP_SAVE_INDEX
      ensures r[i] == t[i]
    {
      if r != t {
        var front := t[..TIMESTAMP_BUFFER_INDEX];
        assert r == front + StampOf(r) + t[KERNAL_API_INDEX..] && r[i] == front[i];
      }
    }
  }

  /** Every successful post-processing splits the token that came back. */
  lemma ProcessingSplits(st: Tokens, key: seq<byte>, kind: Kind, found: bool, writeOk: bool)
    requires Sized(st) && |key| > 0 && kind != Other
    ensures var (r, ok) := Processed(st, key, kind, found, writeOk);
      ok ==> Split(r) && IsTokenEmpty(r.pack) && r.client[..TIMESTAMP_SAVE_INDEX] == st.pack[..TIMESTAMP_SAVE_INDEX]
  {
    if Processed(st, key, kind, found, writeOk).1 {
      var t := Sync(st.pack, key, kind, found).value;
      SavedKeepsStamp(t);
      ClearedKeepsStamp(t);
      SyncKeepsFront(st.pack, key, kind, found);
    }
  }

  /**
    The token of an open, and one that the secure world has marked, is split as it came back: bytes 32..39, the stamp,
    go to the client and stay in the session unchanged.
   */
  lemma AnsweredKeepsStamp(st: Tokens, key: seq<byte>, kind: Kind, found: bool)
    requires Sized(st) && |key| > 0 && (kind == Open || (kind == Invoke && st.pack[SYNC_INDEX] == IS_SYNCED))
    ensures var (r, ok) := Processed(st, key, kind, found, true);
      ok && r.client == st.pack[..TIMESTAMP_SAVE_INDEX] + st.pack[TIMESTAMP_BUFFER_INDEX..KERNAL_API_INDEX] &&
      (forall i :: 0 <= i < TOKEN_BUFFER_LEN ==> r.session[i] == if i < TIMESTAMP_SAVE_INDEX then 0 else st.pack[i])
  {
    var t := st.pack;
    SavedKeepsStamp(t);
    ClearedKeepsStamp(t);
    var r := Processed(st, key, kind, found, true).0;
    assert r.session == Cleared(t) && r.client == Saved(t);
    forall i | 0 <= i < TIMESTAMP_SAVE_INDEX
      ensures Cleared(t)[i] == 0
    {
      assert Cleared(t)[..TIMESTAMP_SAVE_INDEX][i] == 0;
    }
  }

  /**
    The next call with the client's part unchanged is accepted and rebuilds bytes 0..39 of the token as it came back
    from the secure world and was synchronised.
   */
  lemma SplitThenCombine(st: Tokens, key: seq<byte>, kind: Kind, found: bool, api: seq<byte>)
    requires Sized(st) && |key| > 0 && |api| == 2 && kind != Other && Processed(st, key, kind, found, true).1
    ensures var (r, ok) := Filled(Processed(st, key, kind, found, true).0, Invoke, api, true);
      ok && Sync(st.pack, key, kind, found).Some? &&
      r.pack == r.session == Sync(st.pack, key, kind, found).value[..KERNAL_API_INDEX] + api
  {
    var t := Sync(st.pack, key, kind, found).value;
    var p := Processed(st, key, kind, found, true).0;
    assert p.client == Saved(t) && p.session == Cleared(t);
    SavedKeepsStamp(t);
    ClearedKeepsStamp(t);
    var front, end := t[..TIMESTAMP_SAVE_INDEX], p.session[TIMESTAMP_SAVE_INDEX..KERNAL_API_INDEX];
    assert end == t[TIMESTAMP_SAVE_INDEX..KERNAL_API_INDEX] by {
      assert forall i :: 0 <= i < |end| ==> end[i] == t[TIMESTAMP_SAVE_INDEX + i];
    }
    assert front + end == t[..KERNAL_API_INDEX];
  }

  /** A call is accepted exactly when the client's copy of the stamp is the session's. */
  lemma CombineAcceptsIff(st: Tokens, api: seq<byte>)
    requires Sized(st) && |api| == 2
    ensures Filled(st, Invoke, api, true).1 <==> st.client[TIMESTAMP_SAVE_INDEX..] == StampOf(st.session)
    ensures !Filled(st, Invoke, api, true).1 ==> Filled(st, Invoke, api, true).0 == st
  {
  }

  // ----- submissions and roll-back

  function SubmitTimes(t: seq<byte>, key: seq<byte>, n: nat): (r: Option<seq<byte>>)
    requires |t| == TOKEN_BUFFER_LEN && |key| > 0
    ensures r.Some? ==> |r.value| == TOKEN_BUFFER_LEN
  {
    if n == 0 then Some(t)
    else
      match SubmitTimes(t, key, n - 1)
      case None => None
      case Some(m) => Submit(m, key)
  }

  lemma {:induction false} SubmitTimesStamp(t: seq<byte>, key: seq<byte>, n: nat)
    requires |t| == TOKEN_BUFFER_LEN && |key| > 0 && n > 0 && !IsTokenEmpty(t)
    ensures (match Submitted(StampOf(t), key, n)
      case None => SubmitTimes(t, key, n) == None
      case Some(s) => SubmitTimes(t, key, n) == Some(WithStamp(t, s)[SYNC_INDEX := UN_SYNCED]))
  {
    if n == 1 {
      assert Submitted(StampOf(t), key, n - 1) == Some(StampOf(t));
      assert SubmitTimes(t, key, n - 1) == Some(t);
    } else {
      SubmitTimesStamp(t, key, n - 1);
      var s := Submitted(StampOf(t), key, n - 1);
      if s.Some? {
        SubmitAgain(t, s.value, key);
      }
    }
  }

  /** Submitting a token that has been submitted before moves its stamp and leaves the rest. */
  lemma SubmitAgain(t: seq<byte>, s: seq<byte>, key: seq<byte>)
    requires |t| == TOKEN_BUFFER_LEN && |s| == STAMP_LEN && |key| > 0
    ensures var m := WithStamp(t, s)[SYNC_INDEX := UN_SYNCED];
      (Moved(s, key, Inc).None? ==> Submit(m, key) == None) &&
      (Moved(s, key, Inc).Some? ==>
        Submit(m, key) == Some(WithStamp(t, Moved(s, key, Inc).value)[SYNC_INDEX := UN_SYNCED]))
  {
    var m := WithStamp(t, s)[SYNC_INDEX := UN_SYNCED];
    assert m[SYNC_INDEX] == UN_SYNCED;
    assert StampOf(m) == s;
    if Moved(s, key, Inc).Some? {
      var u := Moved(s, key, Inc).value;
      assert WithStamp(m, u)[SYNC_INDEX := UN_SYNCED] == WithStamp(t, u)[SYNC_INDEX := UN_SYNCED];
    }
  }

  /**
    A call whose command is submitted `n` times and never synchronised by the secure world, from fill to
    post-processing.
   */
  function Unanswered(st: Tokens, key: seq<byte>, api: seq<byte>, n: nat): (r: (Tokens, bool))
    requires Sized(st) && |key| > 0 && |api| == 2
    ensures Sized(r.0)
  {
    var (f, ok) := Filled(st, Invoke, api, true);
    if !ok then (f, false)
    else
      match SubmitTimes(f.pack, key, n)
      case None => (f, false)
      case Some(t) => Processed(f.(pack := t), key, Invoke, true, true)
  }

  /**
    From a split token: such a call with one submission leaves the client's part and bytes 0..39 of the session's token
    exactly as they were; with more submissions it does not, because the stamp stays `n - 1` ahead.
   */
  lemma UnansweredCallRollsBack(st: Tokens, key: seq<byte>, api: seq<byte>, n: nat)
    requires Sized(st) && |key| > 0 && |api| == 2 && n > 0 && Split(st)
    requires Stamp(StampOf(st.session), key) + n < U64
    requires !IsTokenEmpty(Filled(st, Invoke, api, true).0.pack)
    ensures var (r, ok) := Unanswered(st, key, api, n);
      ok && Split(r) && Stamp(StampOf(r.session), key) == Stamp(StampOf(st.session), key) + n - 1 &&
      (r.client == st.client <==> n == 1) &&
      (r.session[..KERNAL_API_INDEX] == st.session[..KERNAL_API_INDEX] <==> n == 1)
  {
    var (f, ok) := Filled(st, Invoke, api, true);
    var t := f.pack;
    assert StampOf(t) == StampOf(st.session);
    SubmitTimesStamp(t, key, n);
    RollbackRestores(StampOf(t), key, n);
    var s := Submitted(StampOf(t), key, n).value;
    var u := Moved(s, key, Dec).value;
    var m := SubmitTimes(t, key, n).value;
    assert m == WithStamp(t, s)[SYNC_INDEX := UN_SYNCED] && StampOf(m) == s;
    assert Sync(m, key, Invoke, true) == Some(WithStamp(m, u));
    RolledBack(st, f, m, u, api);
    var w := WithStamp(m, u);
    assert Processed(f.(pack := m), key, Invoke, true, true) ==
      (Tokens(Cleared(w), Zeros(TOKEN_BUFFER_LEN), Saved(w)), true);
  }

  lemma WithStampFront(m: seq<byte>, u: seq<byte>)
    requires |m| == TOKEN_BUFFER_LEN && |u| == STAMP_LEN
    ensures forall i :: 0 <= i < TIMESTAMP_BUFFER_INDEX ==> WithStamp(m, u)[i] == m[i]
  {
    var front := m[..TIMESTAMP_BUFFER_INDEX];
    forall i | 0 <= i < TIMESTAMP_BUFFER_INDEX
      ensures WithStamp(m, u)[i] == m[i]
    {
      assert (front + u + m[KERNAL_API_INDEX..])[i] == front[i];
    }
  }

  /** The bytes in front of the stamp of a combined token, by where they come from. */
  lemma FilledFront(st: Tokens, f: Tokens, api: seq<byte>)
    requires Sized(st) && |api| == 2 && (f, true) == Filled(st, Invoke, api, true)
    ensures forall i :: 0 <= i < TIMESTAMP_SAVE_INDEX ==> f.pack[i] == st.client[i]
    ensures forall i :: TIMESTAMP_SAVE_INDEX <= i < TIMESTAMP_BUFFER_INDEX ==> f.pack[i] == st.session[i]
  {
    var front, end := st.client[..TIMESTAMP_SAVE_INDEX], st.session[TIMESTAMP_SAVE_INDEX..KERNAL_API_INDEX];
    assert f.pack == front + end + api;
    forall i | 0 <= i < TIMESTAMP_BUFFER_INDEX
      ensures f.pack[i] == if i < TIMESTAMP_SAVE_INDEX then st.client[i] else st.session[i]
    {
      assert (front + end + api)[i] == if i < |front| then front[i] else end[i - |front|];
    }
  }

  /** Splitting a combined token again, with stamp `u`, gives back the parts except for the stamp. */
  lemma RolledBack(st: Tokens, f: Tokens, m: seq<byte>, u: seq<byte>, api: seq<byte>)
    requires Sized(st) && |api| == 2 && |u| == STAMP_LEN && Split(st) && (f, true) == Filled(st, Invoke, api, true)
    requires |m| == TOKEN_BUFFER_LEN && m[..TIMESTAMP_BUFFER_INDEX] == f.pack[..TIMESTAMP_BUFFER_INDEX]
    ensures Saved(WithStamp(m, u)) == st.client[..TIMESTAMP_SAVE_INDEX] + u
    ensures Cleared(WithStamp(m, u))[..KERNAL_API_INDEX] == st.session[..TIMESTAMP_BUFFER_INDEX] + u
    ensures Split(Tokens(Cleared(WithStamp(m, u)), st.pack, Saved(WithStamp(m, u))))
    ensures st.client == st.client[..TIMESTAMP_SAVE_INDEX] + StampOf(st.session)
    ensures st.session[..KERNAL_API_INDEX] == st.session[..TIMESTAMP_BUFFER_INDEX] + StampOf(st.session)
    ensures StampOf(Cleared(WithStamp(m, u))) == u
  {
    hide Filled;
    var w := WithStamp(m, u);
    FilledFront(st, f, api);
    WithStampFront(m, u);
    SavedKeepsStamp(w);
    ClearedKeepsStamp(w);
    forall i | 0 <= i < TIMESTAMP_BUFFER_INDEX
      ensures w[i] == f.pack[i]
    {
      assert m[..TIMESTAMP_BUFFER_INDEX][i] == f.pack[..TIMESTAMP_BUFFER_INDEX][i];
    }
    assert w[..TIMESTAMP_SAVE_INDEX] == st.client[..TIMESTAMP_SAVE_INDEX];
    ClearedIsSession(st, w, u);
    assert st.client == st.client[..TIMESTAMP_SAVE_INDEX] + st.client[TIMESTAMP_SAVE_INDEX..];
  }

  lemma ClearedIsSession(st: Tokens, w: seq<byte>, u: seq<byte>)
    requires Sized(st) && |u| == STAMP_LEN && |w| == TOKEN_BUFFER_LEN && StampOf(w) == u
    requires IsTokenEmpty(st.session[..TIMESTAMP_SAVE_INDEX])
    requires forall i :: TIMESTAMP_SAVE_INDEX <= i < TIMESTAMP_BUFFER_INDEX ==> w[i] == st.session[i]
    ensures Cleared(w)[..KERNAL_API_INDEX] == st.session[..TIMESTAMP_BUFFER_INDEX] + u
  {
    ClearedKeepsStamp(w);
    var front := st.session[..TIMESTAMP_BUFFER_INDEX];
    forall i | 0 <= i < KERNAL_API_INDEX
      ensures Cleared(w)[i] == (front + u)[i]
    {
      if i < TIMESTAMP_SAVE_INDEX {
        assert Cleared(w)[..TIMESTAMP_SAVE_INDEX][i] == 0 == st.session[..TIMESTAMP_SAVE_INDEX][i];
      } else if TIMESTAMP_BUFFER_INDEX <= i {
        assert StampOf(w)[i - TIMESTAMP_BUFFER_INDEX] == w[i];
      }
    }
  }

  // ----- the buffers

  /** `scrambling_timestamp`: `out` gets the bytes of `data` from `from` on, each combined with a byte of the key. */
  method ScramblingTimestamp(data: array<byte>, from: nat, out: array<byte>, to: nat, len: nat, key: seq<byte>)
    requires |key| > 0 && from + len <= data.Length && to + len <= out.Length && data != out
    modifies out
    ensures out[..] == old(out[..to]) + Scramble(data[from..from + len], key) + old(out[to + len..])
  {
    var i := 0;
    while i < len
      invariant i <= len
      invariant out[..to] == old(out[..to]) && out[to + i..] == old(out[to + i..])
      invariant forall k :: 0 <= k < i ==> out[to + k] == XorByte(data[from + k], KeyByte(key, k))
    {
      out[to + i] := XorByte(data[from + i], KeyByte(key, i));
      assert forall k :: to + i + 1 <= k < out.Length ==> out[k] == old(out[to + i..])[k - to - i];
      i := i + 1;
    }
    assert out[to..to + len] == Scramble(data[from..from + len], key);
    assert out[..] == out[..to] + out[to..to + len] + out[to + len..];
  }

  /** The three places of a session's token, changed in place. */
  class TokenStore {
    const key: seq<byte>
    const session: array<byte>
    const pack: array<byte>
    const client: array<byte>

    constructor (scrambling: seq<byte>)
      requires |scrambling| == KEY_LEN
      ensures key == scrambling && Ok() && fresh(session) && fresh(pack) && fresh(client)
      ensures State() == Tokens(Zeros(TOKEN_BUFFER_LEN), Zeros(TOKEN_BUFFER_LEN), Zeros(TOKEN_SAVE_LEN))
    {
      key := scrambling;
      session := new byte[TOKEN_BUFFER_LEN](_ => 0);
      pack := new byte[TOKEN_BUFFER_LEN](_ => 0);
      client := new byte[TOKEN_SAVE_LEN](_ => 0);
    }

    ghost predicate Ok() {
      |key| == KEY_LEN && session.Length == pack.Length == TOKEN_BUFFER_LEN && client.Length == TOKEN_SAVE_LEN &&
      session != pack && pack != client && session != client
    }

    ghost function State(): Tokens
      reads session, pack, client
    {
      Tokens(session[..], pack[..], client[..])
    }

    /** `descrambling_timestamp` in a token buffer. */
    method DescramblingTimestamp(buf: array<byte>, flag: Change) returns (ok: bool)
      requires |key| == KEY_LEN && buf.Length == TOKEN_BUFFER_LEN
      modifies buf
      ensures (match MovedToken(old(buf[..]), key, flag)
        case None => !ok && buf[..] == old(buf[..])
        case Some(t) => ok && buf[..] == t)
    {
      hide Scramble;
      hide FromNat;
      hide ToNat;
      hide Changed;
      ghost var t := buf[..];
      var plain := new byte[STAMP_LEN](_ => 0);
      ScramblingTimestamp(buf, TIMESTAMP_BUFFER_INDEX, plain, 0, STAMP_LEN, key);
      assert buf[TIMESTAMP_BUFFER_INDEX..TIMESTAMP_BUFFER_INDEX + STAMP_LEN] == StampOf(t);
      assert plain[..] == Scramble(StampOf(t), key);
      var changed := Changed(flag, ToNat(plain[..]));
      if changed.None? {
        return false;
      }
      var bytes := FromNat(changed.value, STAMP_LEN);
      forall k | 0 <= k < STAMP_LEN {
        plain[k] := bytes[k];
      }
      assert plain[..] == bytes && plain[0..STAMP_LEN] == bytes;
      ScramblingTimestamp(plain, 0, buf, TIMESTAMP_BUFFER_INDEX, STAMP_LEN, key);
      assert buf[..] == WithStamp(t, Scramble(bytes, key));
      ok := true;
    }

    /** `update_timestamp`: only commands to trusted applications are stamped, and their session has to be found. */
    method UpdateTimestamp(toTa: bool, found: bool) returns (ok: bool)
      requires Ok()
      modifies pack
      ensures !toTa ==> ok
      ensures toTa && !found ==> !ok
      ensures !toTa || !ok ==> pack[..] == old(pack[..])
      ensures (toTa && found ==>
        match Submit(old(pack[..]), key)
        case None => !ok
        case Some(t) => ok && pack[..] == t)
    {
      if !toTa {
        return true;
      }
      var empty := CheckEmpty(pack);
      if empty || !found {
        return false;
      }
      ok := DescramblingTimestamp(pack, Inc);
      if ok {
        pack[SYNC_INDEX] := UN_SYNCED;
      }
    }

    /** `is_token_empty` */
    method CheckEmpty(buf: array<byte>) returns (empty: bool)
      ensures empty <==> IsTokenEmpty(buf[..])
    {
      var i := 0;
      while i < buf.Length
        invariant i <= buf.Length && forall k :: 0 <= k < i ==> buf[k] == 0
      {
        if buf[i] != 0 {
          assert buf[..][i] != 0;
          return false;
        }
        i := i + 1;
      }
      empty := true;
    }

    /** `sync_timestamp` */
    method SyncTimestamp(kind: Kind, found: bool) returns (ok: bool)
      requires Ok()
      modifies session
      ensures (match Sync(old(session[..]), key, kind, found)
        case None => !ok && session[..] == old(session[..])
        case Some(t) => ok && session[..] == t)
    {
      if kind == Open {
        return true;
      }
      if session[SYNC_INDEX] == UN_SYNCED {
        if !found {
          return false;
        }
        ok := DescramblingTimestamp(session, Dec);
      } else {
        ok := session[SYNC_INDEX] == IS_SYNCED;
      }
    }

    /** `save_token_info` */
    method SaveTokenInfo(writeOk: bool) returns (ok: bool)
      requires Ok()
      modifies client, session
      ensures ok == writeOk
      ensures !ok ==> State() == old(State())
      ensures ok ==> State() == old(State()).(client := Saved(old(session[..])), session := Cleared(old(session[..])))
    {
      var temp := session[..TIMESTAMP_SAVE_INDEX] + session[TIMESTAMP_BUFFER_INDEX..KERNAL_API_INDEX];
      assert temp == Saved(session[..]);
      if !writeOk {
        return false;
      }
      forall k | 0 <= k < TOKEN_SAVE_LEN {
        client[k] := temp[k];
      }
      forall k | 0 <= k < TIMESTAMP_SAVE_INDEX {
        session[k] := 0;
      }
      assert client[..] == temp;
      assert session[..] == Cleared(old(session[..]));
      ok := true;
    }

    /** `combine_temp_token` */
    method CombineTempToken(api: seq<byte>, readOk: bool) returns (ok: bool)
      requires Ok() && |api| == 2
      modifies session
      ensures ok <==> readOk && Combined(client[..], old(session[..]), api).Some?
      ensures session[..] == if ok then Combined(client[..], old(session[..]), api).value else old(session[..])
    {
      if !readOk {
        return false;
      }
      assert client[..][TIMESTAMP_SAVE_INDEX..] == client[TIMESTAMP_SAVE_INDEX..];
      assert StampOf(session[..]) == session[TIMESTAMP_BUFFER_INDEX..KERNAL_API_INDEX];
      if client[TIMESTAMP_SAVE_INDEX..] != session[TIMESTAMP_BUFFER_INDEX..KERNAL_API_INDEX] {
        return false;
      }
      forall k | 0 <= k < TIMESTAMP_SAVE_INDEX {
        session[k] := client[k];
      }
      session[KERNAL_API_INDEX], session[SYNC_INDEX] := api[0], api[1];
      assert session[..] == Combined(client[..], old(session[..]), api).value;
      ok := true;
    }

    /** `fill_token_info`, for the calls that `is_token_work` lets through. */
    method FillTokenInfo(kind: Kind, api: seq<byte>, readOk: bool) returns (ok: bool)
      requires Ok() && |api| == 2
      modifies session, pack
      ensures (State(), ok) == Filled(old(State()), kind, api, readOk)
    {
      ok := true;
      if kind == Other {
        return;
      }
      if kind == Invoke {
        ok := CombineTempToken(api, readOk);
        if !ok {
          return;
        }
      } else {
        ClearBuffer(session);
      }
      CopyBuffer(session, pack);
    }

    /** `post_process_token` */
    method PostProcessToken(kind: Kind, found: bool, writeOk: bool) returns (ok: bool)
      requires Ok()
      modifies session, pack, client
      ensures (State(), ok) == Processed(old(State()), key, kind, found, writeOk)
    {
      if kind == Other {
        return true;
      }
      CopyBuffer(pack, session);
      ClearBuffer(pack);
      ok := SyncTimestamp(kind, found);
      if !ok {
        return;
      }
      ok := SaveTokenInfo(writeOk);
    }

    method CopyBuffer(from: array<byte>, to: array<byte>)
      requires from.Length == to.Length && from != to
      modifies to
      ensures to[..] == from[..]
    {
      forall k | 0 <= k < to.Length {
        to[k] := from[k];
      }
    }

    method ClearBuffer(buf: array<byte>)
      modifies buf
      ensures buf[..] == Zeros(buf.Length)
    {
      forall k | 0 <= k < buf.Length {
        buf[k] := 0;
      }
    }
  }
}
