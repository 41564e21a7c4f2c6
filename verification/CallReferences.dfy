/**
  The shared-memory references of one caller: which it holds at a point, and that giving all of them up leaves exactly
  what others made of the device meanwhile; and the references of the parameters of a client call (core/gp_ops.c).
 */
module CallReferences {
  import opened Options
  import opened Octets
  import opened SharedMem
  import opened ParamTypes

  /** The references that the entries hold. */
  function Refs(shm: seq<Option<nat>>): (m: multiset<nat>) {
    if shm == [] then multiset{}
    else (if shm[0].Some? then multiset{shm[0].value} else multiset{}) + Refs(shm[1..])
  }

  lemma {:induction false} RefsOfSome(shm: seq<Option<nat>>, k: nat)
    requires k < |shm| && shm[k].Some?
    ensures shm[k].value in Refs(shm) && Refs(shm[k := None]) == Refs(shm) - multiset{shm[k].value}
  {
    if k > 0 {
      RefsOfSome(shm[1..], k - 1);
      assert shm[k := None][1..] == shm[1..][k - 1 := None];
    } else {
      assert shm[k := None][1..] == shm[1..];
    }
  }

  lemma RefsTaken(shm: seq<Option<nat>>, k: nat, id: nat)
    requires k < |shm| && shm[k].None?
    ensures Refs(shm[k := Some(id)]) == Refs(shm) + multiset{id}
  {
    var r := shm[k := Some(id)];
    RefsOfSome(r, k);
    assert r[k := None] == shm;
  }

  lemma {:induction false} NoRefs(shm: seq<Option<nat>>)
    requires forall i :: 0 <= i < |shm| ==> shm[i].None?
    ensures Refs(shm) == multiset{}
  {
    if shm != [] {
      NoRefs(shm[1..]);
    }
  }

  /**
    The device `d` if calls held the references `ops` in it and nothing else were different: every count follows, and
    the buffers are gone that are neither mapped nor referred to.
   */
  ghost function WithRefs(d: Dev, ops: multiset<nat>): Dev {
    d.(bufs := map id | id in d.bufs && MappedCount(d.bufs[id]) + ops[id] > 0 ::
         d.bufs[id].(usage := MappedCount(d.bufs[id]) + ops[id]),
       ops := ops)
  }

  /** The count of every buffer is the number of its mappings and references, and positive. */
  ghost predicate Counted(d: Dev) {
    forall id :: id in d.bufs ==> d.bufs[id].usage == MappedCount(d.bufs[id]) + d.ops[id] > 0
  }

  lemma SoundIsCounted(d: Dev)
    requires DevOk(d)
    ensures Counted(d)
  {
    forall id | id in d.bufs
      ensures d.bufs[id].usage == MappedCount(d.bufs[id]) + d.ops[id] > 0
    {
      assert BufOk(d, id);
    }
  }

  /** `e` has the buffers of `d` as `WithRefs` would have them. */
  lemma IsWithRefs(d: Dev, e: Dev)
    requires e == d.(bufs := e.bufs, ops := e.ops)
    requires forall id :: id in e.bufs <==> id in d.bufs && MappedCount(d.bufs[id]) + e.ops[id] > 0
    requires forall id :: id in e.bufs ==> e.bufs[id] == d.bufs[id].(usage := MappedCount(d.bufs[id]) + e.ops[id])
    ensures e == WithRefs(d, e.ops)
  {
    assert e.bufs == WithRefs(d, e.ops).bufs;
  }

  /** In a sound device the mappings and the references held determine every count. */
  lemma RefsDetermineCounts(d: Dev)
    requires DevOk(d)
    ensures WithRefs(d, d.ops) == d
  {
    SoundIsCounted(d);
    IsWithRefs(d, d);
  }

  /** Giving up references in two goes is giving them up in one. */
  lemma WithRefsTwice(d: Dev, a: multiset<nat>, b: multiset<nat>)
    requires b <= a
    ensures WithRefs(WithRefs(d, a), b) == WithRefs(d, b)
  {
    var e := WithRefs(d, a);
    forall id | id in d.bufs
      ensures b[id] <= a[id] && (id in e.bufs ==> MappedCount(e.bufs[id]) == MappedCount(d.bufs[id]))
    {
    }
    IsWithRefs(d, WithRefs(e, b));
  }

  /** Taking references and giving them up again restores a sound device. */
  lemma WithRefsBack(d: Dev, more: multiset<nat>)
    requires DevOk(d) && d.ops <= more
    ensures WithRefs(WithRefs(d, more), d.ops) == d
  {
    WithRefsTwice(d, more, d.ops);
    RefsDetermineCounts(d);
  }

  lemma GotIsWithRefs(d: Dev, id: nat)
    requires DevOk(d) && id in d.bufs
    ensures Got(d, id) == WithRefs(d, d.ops + multiset{id})
  {
    SoundIsCounted(d);
    CountUp(d, id);
  }

  lemma CountUp(d: Dev, id: nat)
    requires Counted(d) && id in d.bufs
    ensures Got(d, id) == WithRefs(d, d.ops + multiset{id})
  {
    IsWithRefs(d, Got(d, id));
  }

  lemma PutIsWithRefs(d: Dev, id: nat)
    requires DevOk(d) && id in d.ops
    ensures id in d.bufs && d.bufs[id].usage > 0 && PutOp(d, id) == WithRefs(d, d.ops - multiset{id})
  {
    SoundIsCounted(d);
    CountDown(d, id);
  }

  lemma CountDown(d: Dev, id: nat)
    requires Counted(d) && id in d.bufs && id in d.ops
    ensures PutOp(d, id) == WithRefs(d, d.ops - multiset{id})
  {
    IsWithRefs(d, PutOp(d, id));
  }

  // ----- taking references

  /** `d` is what `start` becomes when the references `shm` are taken. */
  ghost predicate Refers(start: Dev, d: Dev, shm: seq<Option<nat>>) {
    DevOk(d) && d == WithRefs(start, start.ops + Refs(shm))
  }

  lemma OneMoreReference(start: Dev, d: Dev, e: Dev, shm: seq<Option<nat>>, more: seq<Option<nat>>, k: nat)
    requires DevOk(start) && Refers(start, d, shm) && DevOk(e)
    requires k < |shm| == |more| && shm[k].None? && more == shm[k := more[k]]
    requires more[k].None? ==> e == d
    requires more[k].Some? ==> e == WithRefs(d, d.ops + multiset{more[k].value})
    ensures Refers(start, e, more)
  {
    if more[k].Some? {
      RefsTaken(shm, k, more[k].value);
      TakenTwice(start, Refs(shm), more[k].value);
    } else {
      assert more == shm;
    }
  }

  lemma TakenTwice(d: Dev, held: multiset<nat>, id: nat)
    requires DevOk(d)
    ensures (WithRefs(WithRefs(d, d.ops + held), d.ops + held + multiset{id}) ==
      WithRefs(d, d.ops + (held + multiset{id})))
  {
    SoundIsCounted(d);
    assert d.ops + held + multiset{id} == d.ops + (held + multiset{id});
    CountedTwice(d, d.ops + held, d.ops + held + multiset{id});
  }

  /** Nothing goes while references are only taken. */
  lemma CountedTwice(d: Dev, a: multiset<nat>, b: multiset<nat>)
    requires Counted(d) && d.ops <= a
    ensures WithRefs(WithRefs(d, a), b) == WithRefs(d, b)
  {
    var e := WithRefs(d, a);
    forall id | id in d.bufs
      ensures id in e.bufs && MappedCount(e.bufs[id]) == MappedCount(d.bufs[id])
    {
      assert d.ops[id] <= a[id];
    }
    IsWithRefs(d, WithRefs(e, b));
  }

  // ----- giving them up

  /** From `start`, the references of the entries before `i` have been given up and those of the others are held. */
  ghost predicate GivingUp(start: Dev, d: Dev, shm: seq<Option<nat>>, i: nat) {
    i <= |shm| && DevOk(d) && Refs(shm) <= start.ops && d == WithRefs(start, start.ops - Refs(shm) + Refs(shm[i..]))
  }

  lemma GiveUpStart(d: Dev, shm: seq<Option<nat>>)
    requires DevOk(d) && Refs(shm) <= d.ops
    ensures GivingUp(d, d, shm, 0)
  {
    assert shm[0..] == shm;
    assert d.ops - Refs(shm) + Refs(shm) == d.ops;
    RefsDetermineCounts(d);
  }

  lemma GiveUpNext(start: Dev, d: Dev, e: Dev, shm: seq<Option<nat>>, i: nat)
    requires GivingUp(start, d, shm, i) && i < |shm| && DevOk(e)
    requires shm[i].None? ==> e == d
    requires shm[i].Some? ==> e == WithRefs(d, d.ops - multiset{shm[i].value})
    ensures GivingUp(start, e, shm, i + 1)
  {
    NextReference(start.ops - Refs(shm), shm, i);
    if shm[i].Some? {
      WithRefsTwice(start, d.ops, d.ops - multiset{shm[i].value});
    }
  }

  lemma NextReference(rest: multiset<nat>, shm: seq<Option<nat>>, i: nat)
    requires i < |shm|
    ensures shm[i].None? ==> Refs(shm[i + 1..]) == Refs(shm[i..])
    ensures shm[i].Some? ==> rest + Refs(shm[i..]) - multiset{shm[i].value} == rest + Refs(shm[i + 1..])
  {
    assert shm[i..][1..] == shm[i + 1..];
  }

  lemma GiveUpHolds(start: Dev, d: Dev, shm: seq<Option<nat>>, i: nat)
    requires GivingUp(start, d, shm, i) && i < |shm|
    ensures shm[i].Some? ==> shm[i].value in d.ops
  {
  }

  /** `e` is what `d` becomes when the references `shm` are given up. */
  ghost predicate Settled(d: Dev, e: Dev, shm: seq<Option<nat>>) {
    DevOk(e) && e == WithRefs(d, d.ops - Refs(shm))
  }

  lemma GiveUpDone(start: Dev, d: Dev, shm: seq<Option<nat>>)
    requires GivingUp(start, d, shm, |shm|)
    ensures Settled(start, d, shm)
  {
    assert shm[|shm|..] == [];
    assert start.ops - Refs(shm) + multiset{} == start.ops - Refs(shm);
  }

  lemma NoneHeld(d: Dev, shm: seq<Option<nat>>)
    requires DevOk(d) && forall i :: 0 <= i < |shm| ==> shm[i].None?
    ensures Refers(d, d, shm) && Settled(d, d, shm)
  {
    NoRefs(shm);
    RefsDetermineCounts(d);
    assert d.ops + multiset{} == d.ops == d.ops - multiset{};
  }

  /** Once its references are given up again, a device is what it was. */
  lemma TakenAndGivenUp(start: Dev, d: Dev, e: Dev, shm: seq<Option<nat>>)
    requires DevOk(start) && Refers(start, d, shm) && Settled(d, e, shm)
    ensures e == start
  {
    assert start.ops + Refs(shm) - Refs(shm) == start.ops;
    WithRefsBack(start, start.ops + Refs(shm));
  }

  /**
    What a call has made of the device it started with: nothing if its command was not sent, and otherwise exactly what
    others made of it while the call held the references `held`, less those references.
   */
  ghost predicate Balanced(start: Dev, mid: Dev, held: multiset<nat>, others: seq<Event>, sent: bool, e: Dev) {
    DevOk(e) && mid == WithRefs(start, start.ops + held) &&
    (if sent then WithoutHeld(Steps(mid, others, held), held, e) else e == start) &&
    (others == [] ==> e == start)
  }

  /** `e` is `d` less the references `held`, which are among those of `d`. */
  ghost predicate WithoutHeld(d: Dev, held: multiset<nat>, e: Dev) {
    held <= d.ops && e == WithRefs(d, d.ops - held)
  }

  lemma NothingTaken(d: Dev, others: seq<Event>)
    requires DevOk(d)
    ensures Balanced(d, d, multiset{}, others, false, d)
  {
    assert d.ops + multiset{} == d.ops;
    RefsDetermineCounts(d);
  }

  lemma CallBalances(start: Dev, mid: Dev, back: Dev, e: Dev, shm: seq<Option<nat>>, others: seq<Event>, sent: bool)
    requires DevOk(start) && Refers(start, mid, shm) && Settled(back, e, shm) && Refs(shm) <= back.ops
    requires back == if sent then Steps(mid, others, Refs(shm)) else mid
    ensures Balanced(start, mid, Refs(shm), others, sent, e)
  {
    if back == mid {
      TakenAndGivenUp(start, mid, e, shm);
    }
  }

  /** What such a device is, entry by entry. */
  lemma WithoutHeldMeans(d: Dev, held: multiset<nat>, e: Dev, id: nat)
    requires DevOk(d) && WithoutHeld(d, held, e)
    ensures e.list == d.list && e.next == d.next && e.vmas == d.vmas && e.ops == d.ops - held
    ensures id in e.bufs <==> id in d.bufs && (MappedCount(d.bufs[id]) > 0 || (d.ops - held)[id] > 0)
    ensures id in e.bufs ==> e.bufs[id] == d.bufs[id].(usage := d.bufs[id].usage - held[id])
  {
    if id in d.bufs {
      assert BufOk(d, id);
      assert held[id] <= d.ops[id];
    }
  }

  // ----- the references of a client call

  /** The buffer is mapped at the address of the parameter and has all the bytes it names. */
  predicate LiesInside(b: Shm, p: Param) {
    b.userAddr == p.buffer && p.offset < b.len && p.offset + p.size <= b.len
  }

  /** The buffer that a parameter refers to: the first one mapped at its address, if it has all the bytes named. */
  function Referred(d: Dev, p: Param): (r: Option<nat>) {
    var found := First(d.bufs, d.list, AtUser(p.buffer));
    if found.Some? && LiesInside(d.bufs[found.value], p) then found else None
  }

  lemma {:induction false} FirstSame(a: map<nat, Shm>, b: map<nat, Shm>, list: seq<nat>, p: Shm -> bool)
    requires forall id :: id in list ==> (id in a <==> id in b) && (id in a ==> p(a[id]) == p(b[id]))
    ensures First(a, list, p) == First(b, list, p)
  {
    if list != [] {
      FirstSame(a, b, list[1..], p);
    }
  }

  /** Taking references changes nothing about which buffer a parameter refers to. */
  lemma ReferredSame(start: Dev, d: Dev, shm: seq<Option<nat>>, p: Param)
    requires DevOk(start) && Refers(start, d, shm)
    ensures Referred(d, p) == Referred(start, p)
  {
    hide DevOk;
    SoundIsCounted(start);
    forall id | id in start.bufs
      ensures id in d.bufs && d.bufs[id] == start.bufs[id].(usage := d.bufs[id].usage)
    {
      assert start.ops[id] <= (start.ops + Refs(shm))[id];
    }
    assert forall id :: id in d.bufs ==> id in start.bufs;
    FirstSame(d.bufs, start.bufs, start.list, AtUser(p.buffer));
  }

  /** The buffer that a parameter names, if what it names lies inside it: the one an operation would get. */
  function Named(d: Dev, p: Param): (r: Option<nat>)
    ensures r == GetOp(d, p.buffer, p.offset, p.size, true).1
    ensures r.Some? ==> r.value in d.bufs && GetOp(d, p.buffer, p.offset, p.size, true).0 == Got(d, r.value)
  {
    var found := First(d.bufs, d.list, AtUser(p.buffer));
    if found.Some? && IsRefmemOffsetValid(d.bufs[found.value].len, p.offset, p.size) then found else None
  }

  /** The references of the four parameters. */
  class ParamRefs {
    const dev: SharedMemDev
    const types: seq<nat>
    var sharemem: seq<Option<nat>>

    constructor (d: SharedMemDev, paramTypes: seq<nat>)
      ensures dev == d && types == paramTypes && sharemem == [None, None, None, None]
    {
      dev, types, sharemem := d, paramTypes, [None, None, None, None];
    }

    ghost predicate Sized()
      reads this
    {
      |types| == |sharemem| == PARAM_NUM && forall k :: 0 <= k < PARAM_NUM && sharemem[k].Some? ==> IsRefMem(types[k])
    }

    /** Since `start` these references have been taken, and nothing else happened. */
    ghost predicate Referring(start: Dev)
      reads this, dev
    {
      Sized() && DevOk(start) && Refers(start, dev.Val(), sharemem)
    }

    /** The same, with none taken for the parameters from `index` on. */
    ghost predicate Acquired(index: nat, start: Dev)
      reads this, dev
    {
      Referring(start) && forall k :: index <= k < PARAM_NUM ==> sharemem[k].None?
    }

    /** The references of the parameters before `i` have been given up since `start`. */
    ghost predicate Dropping(start: Dev, i: nat)
      reads this, dev
    {
      Sized() && GivingUp(start, dev.Val(), sharemem, i)
    }

    /** The search and the check of `alloc_for_ref_mem`. */
    method Search(p: Param) returns (found: Option<nat>)
      requires DevOk(dev.Val())
      ensures found == Named(dev.Val(), p)
    {
      hide DevOk;
      found := dev.FindUser(p.buffer);
      if found.Some? && !IsRefmemOffsetValid(dev.bufs[found.value].len, p.offset, p.size) {
        found := None;
      }
    }

    /** The same, for what a caller makes of it. */
    method LookUp(p: Param) returns (found: Option<nat>)
      requires DevOk(dev.Val()) && p.size < U32 && p.offset < U64
      ensures found.Some? ==> found.value in dev.bufs && LiesInside(dev.bufs[found.value], p)
      ensures found == Referred(dev.Val(), p)
    {
      hide DevOk;
      ReferencesLieInside(dev.Val(), p.buffer, p.offset, p.size);
      found := Search(p);
    }

    /** The reference of `alloc_for_ref_mem`, to the buffer it has found. */
    method TakeReference(index: nat, id: nat, ghost start: Dev)
      requires index < PARAM_NUM && Acquired(index, start) && IsRefMem(types[index]) && id in dev.bufs
      modifies this, dev
      ensures Acquired(index + 1, start) && |old(sharemem)| == PARAM_NUM && sharemem == old(sharemem)[index := Some(id)]
    {
      hide DevOk;
      ghost var d, refs := dev.Val(), sharemem;
      GotIsWithRefs(d, id);
      dev.Get(id);
      sharemem := sharemem[index := Some(id)];
      OneMoreReference(start, d, dev.Val(), refs, sharemem, index);
    }

    method DropReference(id: nat)
      requires DevOk(dev.Val()) && id in dev.ops
      modifies dev
      ensures DevOk(dev.Val()) && dev.Val() == WithRefs(old(dev.Val()), old(dev.ops) - multiset{id})
    {
      hide DevOk;
      hide WithRefs;
      PutIsWithRefs(dev.Val(), id);
      dev.Drop(id);
    }

    /** The reference of parameter `i`, if it has one; the entry stays as it is. */
    method FreeReference(i: nat, ghost start: Dev)
      requires i < PARAM_NUM && Dropping(start, i)
      modifies dev
      ensures Dropping(start, i + 1)
    {
      hide DevOk;
      ghost var d := dev.Val();
      GiveUpHolds(start, d, sharemem, i);
      if IsRefMem(types[i]) && sharemem[i].Some? {
        DropReference(sharemem[i].value);
      }
      GiveUpNext(start, d, dev.Val(), sharemem, i);
    }

    /** What other threads do to the shared memory while the references `held` are kept. */
    method Wait(others: seq<Event>, held: multiset<nat>)
      requires DevOk(dev.Val()) && held <= dev.ops
      modifies dev
      ensures dev.Val() == Steps(old(dev.Val()), others, held) && DevOk(dev.Val()) && held <= dev.ops
    {
      hide DevOk;
      StepsKeepInv(dev.Val(), others, held);
      var d := Steps(dev.Val(), others, held);
      dev.bufs, dev.list, dev.next, dev.vmas, dev.ops := d.bufs, d.list, d.next, d.vmas, d.ops;
    }
  }
}
