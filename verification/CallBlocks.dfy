/**
  The mailbox blocks of one caller: which it holds at a point, and that giving all of them up restores what was there
  before; and the blocks of the parameters of a client call (core/gp_ops.c).
 */
module CallBlocks {
  import opened Options
  import opened Dyadic
  import opened Buddy
  import opened BuddyTheorems
  import opened Mailbox
  import opened ParamTypes

  ghost function Blocks(own: seq<Option<Block>>): set<Block> {
    set i: nat | i < |own| && own[i].Some? :: own[i].value
  }

  /** The live blocks are those of before and the ones held now, all of them different. */
  ghost predicate Accounted(before: set<Block>, live: set<Block>, own: seq<Option<Block>>) {
    live == before + Blocks(own) &&
    (forall i :: 0 <= i < |own| && own[i].Some? ==> own[i].value !in before) &&
    (forall i, j :: 0 <= i < j < |own| && own[i].Some? && own[j].Some? ==> own[i].value != own[j].value)
  }

  lemma OneMoreBlock(before: set<Block>, live: set<Block>, own: seq<Option<Block>>, k: nat, b: Block)
    requires Accounted(before, live, own) && k < |own| && own[k].None? && b !in live
    ensures Accounted(before, live + {b}, own[k := Some(b)])
  {
    var r := own[k := Some(b)];
    assert forall i :: 0 <= i < |own| && i != k ==> r[i] == own[i];
    assert forall i :: 0 <= i < |own| && own[i].Some? ==> own[i].value in Blocks(own);
    assert r[k].value in Blocks(r);
    assert Blocks(r) == Blocks(own) + {b};
  }

  lemma OneLessBlock(before: set<Block>, live: set<Block>, own: seq<Option<Block>>, k: nat)
    requires Accounted(before, live, own) && k < |own| && own[k].Some?
    ensures Accounted(before, live - {own[k].value}, own[k := None])
  {
    var r := own[k := None];
    assert forall i :: 0 <= i < |own| && i != k ==> r[i] == own[i];
    assert Blocks(r) == Blocks(own) - {own[k].value};
  }

  lemma NothingHeld(before: set<Block>, live: set<Block>, own: seq<Option<Block>>)
    requires Accounted(before, live, own) && forall i :: 0 <= i < |own| ==> own[i].None?
    ensures live == before
  {
    assert Blocks(own) == {};
  }

  /** An address field is null, or the address of the block that is held for it. */
  ghost predicate Names(zone: MailboxZone, addr: nat, b: Option<Block>) {
    match b
    case None => addr == 0
    case Some(v) => v.start < Pow2(zone.maxOrder) && addr == AddressOf(zone.base, v.start)
  }

  /** The zone is sound, and its live blocks are those of `before` and the ones held. */
  ghost predicate Owning(zone: MailboxZone, before: set<Block>, own: seq<Option<Block>>)
    reads zone.pages, zone.areas
  {
    zone.Ok() && Accounted(before, zone.Live(), own)
  }

  // ----- what fits in a zone

  /** A request of this size succeeds: some aligned run of its order is clear of every live block. */
  ghost predicate CanTake(z: Zone, size: nat) {
    size > 0 && OrderFor(size) <= z.maxOrder && exists s: nat :: RunIsFree(z, s, OrderFor(size))
  }

  /** The zone after such a request. */
  ghost function After(z: Zone, size: nat): Zone {
    if Shape(z) && (forall j: nat, p: nat :: IsFree(z, p, j) ==> p + Pow2(j) <= |z.pages|)
    then AllocOrder(z, OrderFor(size)).0 else z
  }

  /** Requests of these sizes succeed one after the other. */
  ghost predicate Room(z: Zone, sizes: seq<nat>)
    decreases |sizes|
  {
    sizes == [] || (CanTake(z, sizes[0]) && Room(After(z, sizes[0]), sizes[1..]))
  }

  lemma RoomForOne(z: Zone, size: nat, sizes: seq<nat>)
    ensures Room(z, []) && (Room(z, [size] + sizes) <==> CanTake(z, size) && Room(After(z, size), sizes))
  {
    assert ([size] + sizes)[1..] == sizes;
  }

  /** `mailbox_alloc` for entry `k`. */
  method Grab(zone: MailboxZone, size: nat, k: nat, ghost before: set<Block>, ghost own: seq<Option<Block>>)
    returns (addr: Option<nat>, ghost now: seq<Option<Block>>)
    requires Owning(zone, before, own) && k < |own| && own[k].None?
    modifies zone.pages, zone.areas
    ensures Owning(zone, before, now) && |now| == |own| && now == own[k := now[k]]
    ensures addr.Some? <==> CanTake(old(zone.Val()), size)
    ensures if addr.Some? then size > 0 && now[k].Some? && Names(zone, addr.value, now[k]) else now == own
    ensures addr.Some? ==> now[k].value.order == OrderFor(size)
    ensures zone.Val() == if addr.Some? then After(old(zone.Val()), size) else old(zone.Val())
  {
    hide Arises;
    addr := zone.Alloc(size);
    now := own;
    if addr.Some? {
      ghost var b := Block(PageOf(zone.base, zone.maxOrder, addr.value).value, OrderFor(size));
      OneMoreBlock(before, old(zone.Live()), own, k, b);
      now := own[k := Some(b)];
    }
  }

  /** `mailbox_free` of what entry `k` holds. */
  method Release(zone: MailboxZone, addr: nat, k: nat, ghost before: set<Block>, ghost own: seq<Option<Block>>)
    returns (ghost now: seq<Option<Block>>)
    requires Owning(zone, before, own) && k < |own| && own[k].Some? && Names(zone, addr, own[k])
    modifies zone.pages, zone.areas
    ensures Owning(zone, before, now) && now == own[k := None]
  {
    hide Arises;
    ghost var b := own[k].value;
    assert b in Blocks(own);
    assert b in zone.Live() && IsLive(zone.Val(), b.start) && zone.Val().pages[b.start].order == b.order;
    FirstPageOf(zone.base, zone.maxOrder, b.start);
    zone.Free(addr);
    OneLessBlock(before, old(zone.Live()), own, k);
    now := own[k := None];
  }

  // ----- the blocks of a client call

  /** The pointers to the blocks of the four parameters and to the command pack. */
  datatype Pointers = Pointers(types: seq<nat>, tempBuf: seq<nat>, mbBuffer: seq<nat>, mbPack: nat)

  predicate Sized(ps: Pointers) {
    |ps.types| == |ps.tempBuf| == |ps.mbBuffer| == PARAM_NUM
  }

  /** The address that the clean-up looks at for parameter `k`. */
  function Address(ps: Pointers, k: nat): nat
    requires Sized(ps) && k < PARAM_NUM
  {
    var t := ps.types[k];
    if IsTmpMem(t) || t == TEEC_ION_SGLIST_INPUT then ps.tempBuf[k] else if IsRefMem(t) then ps.mbBuffer[k] else 0
  }

  /**
    From parameter `i` on, and for the pack, the pointers lead to exactly the blocks that are held; the parameters
    before `i` hold none.
   */
  ghost predicate LeadTo(zone: MailboxZone, ps: Pointers, own: seq<Option<Block>>, i: nat) {
    Sized(ps) && |own| == PARAM_NUM + 1 && Names(zone, ps.mbPack, own[PARAM_NUM]) &&
    (forall k :: 0 <= k < i && k < PARAM_NUM ==> own[k].None?) &&
    (forall k :: i <= k < PARAM_NUM ==> Names(zone, Address(ps, k), own[k]))
  }

  /** Nothing has been taken yet for the parameters from `i` on. */
  ghost predicate Untouched(ps: Pointers, own: seq<Option<Block>>, i: nat) {
    Sized(ps) && |own| == PARAM_NUM + 1 &&
    forall k :: i <= k < PARAM_NUM ==> own[k].None? && ps.tempBuf[k] == 0 && ps.mbBuffer[k] == 0
  }

  /** Pointers, and the blocks held for them: those of the four parameters, then that of the command pack. */
  datatype Holding = Holding(ps: Pointers, own: seq<Option<Block>>)

  /** The states of the pointers and blocks in which everything is held for the parameters before `index` only. */
  ghost predicate Taken(zone: MailboxZone, index: nat, h: Holding) {
    LeadTo(zone, h.ps, h.own, 0) && Untouched(h.ps, h.own, index)
  }

  /** The states in which everything is held for the parameters from `i` on only. */
  ghost predicate Left(zone: MailboxZone, i: nat, h: Holding) {
    LeadTo(zone, h.ps, h.own, i)
  }

  /** A block taken for the pointer of its parameter. */
  lemma OneMoreTaken(zone: MailboxZone, ps: Pointers, own: seq<Option<Block>>, index: nat, addr: nat, b: Option<Block>)
    requires Taken(zone, index, Holding(ps, own)) && index < PARAM_NUM && Names(zone, addr, b)
    ensures (IsTmpMem(ps.types[index]) ==>
      Taken(zone, index + 1, Holding(ps.(tempBuf := ps.tempBuf[index := addr]), own[index := b])))
    ensures (IsRefMem(ps.types[index]) ==>
      Taken(zone, index + 1, Holding(ps.(mbBuffer := ps.mbBuffer[index := addr]), own[index := b])))
  {
    LeadToOneMore(zone, ps, own, index, addr, b);
  }

  lemma LeadToOneMore(zone: MailboxZone, ps: Pointers, own: seq<Option<Block>>, index: nat, addr: nat, b: Option<Block>)
    requires LeadTo(zone, ps, own, 0) && Untouched(ps, own, index) && index < PARAM_NUM && Names(zone, addr, b)
    ensures var qs := ps.(tempBuf := ps.tempBuf[index := addr]);
      IsTmpMem(ps.types[index]) ==> LeadTo(zone, qs, own[index := b], 0) && Untouched(qs, own[index := b], index + 1)
    ensures var qs := ps.(mbBuffer := ps.mbBuffer[index := addr]);
      IsRefMem(ps.types[index]) ==> LeadTo(zone, qs, own[index := b], 0) && Untouched(qs, own[index := b], index + 1)
  {
  }

  lemma LeadToNext(zone: MailboxZone, ps: Pointers, own: seq<Option<Block>>, i: nat)
    requires LeadTo(zone, ps, own, i) && i < PARAM_NUM
    ensures LeadTo(zone, ps, own[i := None], i + 1)
    ensures own[i].None? ==> own[i := None] == own
    ensures zone.base > 0 ==> (own[i].None? <==> Address(ps, i) == 0)
  {
  }

  lemma NoneLeft(zone: MailboxZone, ps: Pointers, own: seq<Option<Block>>)
    requires LeadTo(zone, ps, own, PARAM_NUM)
    ensures var left := own[PARAM_NUM := None]; forall k :: 0 <= k < |left| ==> left[k].None?
  {
  }

  lemma OnlyPack(zone: MailboxZone, ps: Pointers, own: seq<Option<Block>>)
    requires |ps.types| == PARAM_NUM && ps.tempBuf == ps.mbBuffer == [0, 0, 0, 0] && |own| == PARAM_NUM + 1
    requires Names(zone, ps.mbPack, own[PARAM_NUM]) && forall k :: 0 <= k < PARAM_NUM ==> own[k].None?
    ensures Taken(zone, 0, Holding(ps, own))
  {
  }

  /** A parameter for which nothing is taken. */
  lemma NoneTaken(zone: MailboxZone, ps: Pointers, own: seq<Option<Block>>, index: nat)
    requires Taken(zone, index, Holding(ps, own))
    ensures Taken(zone, index + 1, Holding(ps, own)) && Sized(ps) && |own| == PARAM_NUM + 1
    ensures index < PARAM_NUM ==> own[index].None?
  {
  }

  /** However far the taking got, the clean-up can start; and where it never began there is nothing to clean up. */
  lemma TakenIsLeft(zone: MailboxZone, ps: Pointers, own: seq<Option<Block>>, index: nat)
    requires Taken(zone, index, Holding(ps, own))
    ensures Left(zone, 0, Holding(ps, own)) && (index == 0 ==> Left(zone, PARAM_NUM, Holding(ps, own)))
  {
  }

  /** The pointers of a call, kept in step with the zone they point into. */
  class ParamBlocks {
    const zone: MailboxZone
    const types: seq<nat>
    var tempBuf: seq<nat>
    var mbBuffer: seq<nat>
    var mbPack: nat
    /** The blocks of the four parameters, then that of the command pack. */
    ghost var own: seq<Option<Block>>

    constructor (z: MailboxZone, paramTypes: seq<nat>)
      ensures zone == z && types == paramTypes && Blank()
    {
      zone, types := z, paramTypes;
      tempBuf, mbBuffer, mbPack := [0, 0, 0, 0], [0, 0, 0, 0], 0;
      own := [None, None, None, None, None];
    }

    ghost predicate Blank()
      reads this
    {
      tempBuf == [0, 0, 0, 0] && mbBuffer == [0, 0, 0, 0] && mbPack == 0 && own == [None, None, None, None, None]
    }

    function Fields(): Pointers
      reads this
    {
      Pointers(types, tempBuf, mbBuffer, mbPack)
    }

    /** Sound, with the live blocks of `before` and those held. */
    ghost predicate Held(before: set<Block>)
      reads this, zone.pages, zone.areas
    {
      zone.base > ZERO_SIZE_PTR && Owning(zone, before, own)
    }

    ghost function State(): Holding
      reads this
    {
      Holding(Fields(), own)
    }

    ghost predicate HasPack()
      reads this
    {
      |own| == PARAM_NUM + 1 && own[PARAM_NUM].Some?
    }

    /** `mailbox_alloc_cmd_pack` */
    method GrabPack(ghost before: set<Block>) returns (ok: bool)
      requires Blank() && |types| == PARAM_NUM && zone.Ok() && zone.base > ZERO_SIZE_PTR && zone.Live() == before
      modifies this`own, this`mbPack, zone.pages, zone.areas
      ensures Held(before) && Taken(zone, 0, State())
      ensures if ok then HasPack() else zone.Ok() && zone.Live() == before
      ensures ok <==> CanTake(old(zone.Val()), PAGE_SIZE)
      ensures ok ==> zone.Val() == After(old(zone.Val()), PAGE_SIZE)
    {
      hide Taken;
      hide Arises;
      hide CanTake;
      hide After;
      assert Blocks(own) == {};
      var pack;
      pack, own := Grab(zone, PAGE_SIZE, PARAM_NUM, before, own);
      ok := pack.Some?;
      if ok {
        mbPack := pack.value;
      } else {
        NothingHeld(before, zone.Live(), own);
      }
      OnlyPack(zone, Fields(), own);
    }

    /** `alloc_for_tmp_mem` */
    method AllocTmp(index: nat, p: Param, ghost before: set<Block>) returns (ret: Ret)
      requires index < PARAM_NUM && Held(before) && Taken(zone, index, State())
      requires |types| == PARAM_NUM && IsTmpMem(types[index])
      modifies this`own, this`tempBuf, zone.pages, zone.areas
      ensures Held(before) && Taken(zone, index + 1, State()) && |own| == PARAM_NUM + 1
      ensures HasPack() == old(HasPack())
      ensures ret == Okay <==> AdmissibleTmp(types[index], p) && CanTake(old(zone.Val()), p.size)
      ensures ret != FromTee
      ensures ret == NoMemory <==> p.readOk && p.size <= MAX_SHARED_SIZE && !CanTake(old(zone.Val()), p.size)
      ensures ret == Okay ==> zone.Val() == After(old(zone.Val()), p.size)
      ensures ret == Okay ==> own[index].Some? && own[index].value.order == OrderFor(p.size)
      ensures |old(own)| == |own| && own == old(own)[index := own[index]]
    {
      hide Owning;
      hide Taken;
      hide CanTake;
      hide After;
      ret := Fault;
      NoneTaken(zone, Fields(), own, index);
      if p.readOk && p.size <= MAX_SHARED_SIZE {
        var addr;
        ghost var ps, was := Fields(), own;
        addr, own := Grab(zone, p.size, index, before, own);
        if addr.None? {
          ret := NoMemory;
        } else {
          OneMoreTaken(zone, ps, was, index, addr.value, own[index]);
          tempBuf := tempBuf[index := addr.value];
          if (types[index] == TEEC_MEMREF_TEMP_OUTPUT || p.inputOk) && p.authOk {
            ret := Okay;
          }
        }
      }
    }

    /** `mailbox_copy_alloc` into the field of parameter `index`. */
    method CopyAlloc(index: nat, size: nat, ghost before: set<Block>) returns (ok: bool)
      requires index < PARAM_NUM && Held(before) && Taken(zone, index, State())
      requires |types| == PARAM_NUM && IsRefMem(types[index])
      modifies this`own, this`mbBuffer, zone.pages, zone.areas
      ensures Held(before) && Taken(zone, index + 1, State()) && |own| == PARAM_NUM + 1
      ensures HasPack() == old(HasPack())
      ensures ok <==> own[index].Some?
      ensures ok <==> CanTake(old(zone.Val()), size)
      ensures ok ==> zone.Val() == After(old(zone.Val()), size) && own[index].value.order == OrderFor(size)
      ensures |old(own)| == |own| && own == old(own)[index := own[index]]
    {
      hide Owning;
      hide Taken;
      hide CanTake;
      hide After;
      NoneTaken(zone, Fields(), own, index);
      var addr;
      ghost var ps, was := Fields(), own;
      addr, own := Grab(zone, size, index, before, own);
      ok := addr.Some?;
      if ok {
        OneMoreTaken(zone, ps, was, index, addr.value, own[index]);
        mbBuffer := mbBuffer[index := addr.value];
      }
    }

    /** The block of parameter `i`, if it has one; the pointer stays as it is. */
    method FreeBlock(i: nat, ghost before: set<Block>)
      requires i < PARAM_NUM && Held(before) && Left(zone, i, State())
      modifies this`own, zone.pages, zone.areas
      ensures Held(before) && Left(zone, i + 1, State()) && |own| == PARAM_NUM + 1
      ensures HasPack() == old(HasPack())
    {
      hide Owning;
      LeadToNext(zone, Fields(), own, i);
      if Address(Fields(), i) > ZERO_SIZE_PTR {
        own := Release(zone, Address(Fields(), i), i, before, own);
      }
    }

    /** The command pack, after everything else. */
    method FreePack(ghost before: set<Block>)
      requires Held(before) && Left(zone, PARAM_NUM, State()) && HasPack()
      modifies this`own, zone.pages, zone.areas
      ensures zone.Ok() && zone.Live() == before
    {
      hide Arises;
      NoneLeft(zone, Fields(), own);
      own := Release(zone, mbPack, PARAM_NUM, before, own);
      NothingHeld(before, zone.Live(), own);
    }
  }
}
