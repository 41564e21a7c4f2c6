/**
  A client call (core/gp_ops.c): the resources of its four typed parameters are taken one by one,
  with failure possible at any point, and one clean-up path gives them up.
 */
module ClientCall {
  import opened Options
  import opened Buddy
  import opened BuddyTheorems
  import opened Mailbox
  import opened Octets
  import opened SharedMem
  import opened ParamTypes
  import opened CallBlocks
  import opened CallReferences

  /** One PENDING answer: whether the token for the next submission and the token after it are in order. */
  datatype Round = Round(appendOk: bool, tokenOk: bool)

  /**
    What happens to a call outside this file: each step may fail, the trusted side may answer PENDING any number
    of times before it answers `teeRet`, and `others` use the shared memory of the device meanwhile.
   */
  datatype World = World(
    cmdOk: bool, configOk: bool, tokenOk: bool, rounds: seq<Round>, teeRet: int, updateOk: bool, others: seq<Event>)

  /** Nothing goes wrong until the trusted side has answered. */
  predicate Answered(w: World) {
    w.configOk && w.tokenOk && forall i :: 0 <= i < |w.rounds| ==> w.rounds[i].appendOk && w.rounds[i].tokenOk
  }

  /** Nothing goes wrong once the parameters are set up. */
  predicate Served(w: World) {
    Answered(w) && w.teeRet == 0 && w.updateOk
  }

  /** The command goes to the secure side: the parameters are set up and the command is made. */
  predicate Sent(setUp: Ret, w: World) {
    setUp == Okay && w.configOk
  }

  /** The reference `id` is to a buffer that has what the parameter names. */
  predicate NamesBuffer(bufs: map<nat, Shm>, id: nat, p: Param) {
    id in bufs && LiesInside(bufs[id], p)
  }

  /** A parameter for which everything it needs can be had, apart from a block of its size. */
  predicate Admissible(t: nat, p: Param, d: Dev) {
    if IsTmpMem(t) then AdmissibleTmp(t, p)
    else if IsRefMem(t) then p.readOk && p.size > 0 && Referred(d, p).Some?
    else if IsValue(t) then p.readOk
    else t != TEEC_ION_INPUT && t != TEEC_ION_SGLIST_INPUT
  }

  predicate AllAdmissible(types: seq<nat>, params: seq<Param>, d: Dev)
    requires |types| == |params| == PARAM_NUM
  {
    forall k :: 0 <= k < PARAM_NUM ==> Admissible(types[k], params[k], d)
  }

  /** Every parameter is admissible, and the pool has room for the command pack and for all their blocks. */
  ghost predicate Feasible(types: seq<nat>, params: seq<Param>, z: Zone, d: Dev)
    requires |types| == |params| == PARAM_NUM
  {
    AllAdmissible(types, params, d) && Room(z, [PAGE_SIZE] + Needs(types, params, 0))
  }

  lemma NoParams(params: seq<Param>, d: Dev)
    requires |params| == PARAM_NUM
    ensures AllAdmissible(TypesOf(0), params, d) && Needs(TypesOf(0), params, 0) == []
  {
    assert TypesOf(0) == [0, 0, 0, 0];
    assert Needs(TypesOf(0), params, 4) == Needs(TypesOf(0), params, 3) == Needs(TypesOf(0), params, 2) ==
      Needs(TypesOf(0), params, 1) == [];
  }

  /** Whether the blocks for the parameters from `i` on can be had, by what parameter `i` needs. */
  lemma NeedsNext(z: Zone, types: seq<nat>, params: seq<Param>, i: nat)
    requires |types| == |params| == PARAM_NUM
    ensures i >= PARAM_NUM ==> Room(z, Needs(types, params, i))
    ensures i < PARAM_NUM ==>
      (Room(z, Needs(types, params, i)) <==>
       if IsMem(types[i])
       then CanTake(z, params[i].size) && Room(After(z, params[i].size), Needs(types, params, i + 1))
       else Room(z, Needs(types, params, i + 1)))
  {
    if i < PARAM_NUM {
      RoomForOne(z, params[i].size, Needs(types, params, i + 1));
      assert [] + Needs(types, params, i + 1) == Needs(types, params, i + 1);
    }
  }

  /** Sizes are 32 bits wide and offsets 64 bits. */
  predicate Bounded(p: Param) {
    p.size < U32 && p.offset < U64
  }

  predicate Arguments(params: seq<Param>) {
    |params| == PARAM_NUM && forall k :: 0 <= k < PARAM_NUM ==> Bounded(params[k])
  }

  class Call {
    const paramTypes: nat
    const blocks: ParamBlocks
    const refs: ParamRefs
    var opInited: bool

    constructor (z: MailboxZone, d: SharedMemDev, types: nat)
      ensures paramTypes == types && blocks.zone == z && refs.dev == d && fresh(blocks) && fresh(refs) && Blank()
    {
      paramTypes, opInited := types, false;
      blocks := new ParamBlocks(z, TypesOf(types));
      refs := new ParamRefs(d, TypesOf(types));
    }

    /** Nothing has been taken. */
    ghost predicate Blank()
      reads this, blocks, refs
    {
      !opInited && blocks.types == refs.types == TypesOf(paramTypes) && blocks.Blank() &&
      refs.sharemem == [None, None, None, None]
    }

    // ----- one parameter

    /** Everything the parameters before `index` need is held, and nothing for the others. */
    ghost predicate Acquired(index: nat, before: set<Block>, start: Dev)
      reads this, blocks, blocks.zone.pages, blocks.zone.areas, refs, refs.dev
    {
      blocks.types == refs.types && blocks.Held(before) && Taken(blocks.zone, index, blocks.State()) &&
      refs.Acquired(index, start)
    }

    /** Parameter `k` has what its type calls for: a block of its size, a reference to its buffer, both or neither. */
    ghost predicate Equipped(k: nat, p: Param, start: Dev)
      reads this, blocks, refs
    {
      k < |blocks.types| && k < |blocks.own| && k < |refs.sharemem| &&
      blocks.own[k].Some? == IsMem(blocks.types[k]) &&
      (blocks.own[k].Some? ==> blocks.own[k].value.order == OrderFor(p.size)) &&
      refs.sharemem[k] == if IsRefMem(blocks.types[k]) then Referred(start, p) else None
    }

    /** The part of `alloc_for_ref_mem` after the buffer is found. */
    method Attach(index: nat, size: nat, id: nat, ghost before: set<Block>, ghost start: Dev) returns (ret: Ret)
      requires index < PARAM_NUM && Acquired(index, before, start) && IsRefMem(blocks.types[index])
      requires id in refs.dev.bufs
      modifies blocks`own, blocks`mbBuffer, blocks.zone.pages, blocks.zone.areas, refs, refs.dev
      ensures Acquired(index + 1, before, start) && blocks.HasPack() == old(blocks.HasPack())
      ensures |blocks.own| == PARAM_NUM + 1 && (ret == Okay <==> blocks.own[index].Some?)
      ensures |old(refs.sharemem)| == PARAM_NUM
      ensures refs.sharemem == if ret == Okay then old(refs.sharemem)[index := Some(id)] else old(refs.sharemem)
      ensures old(refs.sharemem)[index].None? && ret in {Okay, NoMemory}
      ensures ret == Okay <==> CanTake(old(blocks.zone.Val()), size)
      ensures ret == Okay ==> blocks.zone.Val() == After(old(blocks.zone.Val()), size)
      ensures ret == Okay ==> blocks.own[index].value.order == OrderFor(size)
      ensures |old(blocks.own)| == PARAM_NUM + 1 && blocks.own == old(blocks.own)[index := blocks.own[index]]
    {
      hide CanTake;
      hide After;
      hide Owning;
      hide Taken;
      hide Refers;
      hide DevOk;
      var copied := blocks.CopyAlloc(index, size, before);
      ret := NoMemory;
      if copied {
        refs.TakeReference(index, id, start);
        ret := Okay;
      }
    }

    /** `alloc_for_ref_mem`: a block and a reference to the buffer that the parameter names, or neither. */
    method AllocRef(index: nat, p: Param, ghost before: set<Block>, ghost start: Dev) returns (ret: Ret)
      requires index < PARAM_NUM && Acquired(index, before, start) && IsRefMem(blocks.types[index]) && Bounded(p)
      modifies blocks`own, blocks`mbBuffer, blocks.zone.pages, blocks.zone.areas, refs, refs.dev
      ensures Acquired(index + 1, before, start) && blocks.HasPack() == old(blocks.HasPack())
      ensures |blocks.own| == PARAM_NUM + 1 && (ret == Okay <==> blocks.own[index].Some?)
      ensures ret == Okay <==> refs.sharemem[index].Some?
      ensures ret == Okay ==> NamesBuffer(old(refs.dev.bufs), refs.sharemem[index].value, p)
      ensures |old(refs.sharemem)| == PARAM_NUM && refs.sharemem == old(refs.sharemem)[index := refs.sharemem[index]]
      ensures ret == Okay ==> refs.sharemem[index] == Referred(start, p)
      ensures ret == Okay <==>
        p.readOk && p.size > 0 && Referred(start, p).Some? && CanTake(old(blocks.zone.Val()), p.size)
      ensures ret != FromTee
      ensures ret == NoMemory <==>
        p.readOk && p.size > 0 && Referred(start, p).Some? && !CanTake(old(blocks.zone.Val()), p.size)
      ensures ret == Okay ==> blocks.zone.Val() == After(old(blocks.zone.Val()), p.size)
      ensures ret == Okay ==> blocks.own[index].value.order == OrderFor(p.size)
      ensures |old(blocks.own)| == PARAM_NUM + 1 && blocks.own == old(blocks.own)[index := blocks.own[index]]
    {
      hide CanTake;
      hide After;
      hide Referred;
      hide Owning;
      hide Taken;
      hide DevOk;
      hide WithRefs;
      ReferredSame(start, refs.dev.Val(), refs.sharemem, p);
      NoneTaken(blocks.zone, blocks.Fields(), blocks.own, index);
      var found := refs.LookUp(p);
      if !p.readOk || p.size == 0 || found.None? {
        ret := Invalid;
      } else {
        ret := Attach(index, p.size, found.value, before, start);
      }
    }

    /** One turn of the loop of `alloc_operation`. */
    method AllocParam(index: nat, p: Param, ghost before: set<Block>, ghost start: Dev) returns (ret: Ret)
      requires index < PARAM_NUM && Acquired(index, before, start) && Bounded(p)
      modifies blocks`own, blocks`tempBuf, blocks`mbBuffer, blocks.zone.pages, blocks.zone.areas, refs, refs.dev
      ensures Acquired(index + 1, before, start) && blocks.HasPack() == old(blocks.HasPack())
      ensures ret != FromTee
      ensures |blocks.types| == PARAM_NUM && (ret == Okay <==>
        Admissible(blocks.types[index], p, start) &&
        (IsMem(blocks.types[index]) ==> CanTake(old(blocks.zone.Val()), p.size)))
      ensures ret == Okay ==> Equipped(index, p, start)
      ensures ret == Okay ==>
        blocks.zone.Val() ==
          if IsMem(blocks.types[index]) then After(old(blocks.zone.Val()), p.size) else old(blocks.zone.Val())
      ensures |old(blocks.own)| == |blocks.own| == PARAM_NUM + 1 && |old(refs.sharemem)| == |refs.sharemem| == PARAM_NUM
      ensures forall k :: 0 <= k < PARAM_NUM && k != index ==>
        blocks.own[k] == old(blocks.own)[k] && refs.sharemem[k] == old(refs.sharemem)[k]
    {
      hide CanTake;
      hide After;
      hide Referred;
      hide Owning;
      hide Taken;
      hide Refers;
      hide DevOk;
      NoneTaken(blocks.zone, blocks.Fields(), blocks.own, index);
      var t := blocks.types[index];
      if IsTmpMem(t) {
        ret := blocks.AllocTmp(index, p, before);
      } else if IsRefMem(t) {
        ret := AllocRef(index, p, before, start);
      } else if IsValue(t) {
        ret := if p.readOk then Okay else Fault;
      } else if t == TEEC_ION_INPUT || t == TEEC_ION_SGLIST_INPUT {
        ret := Unsupported;
      } else {
        ret := Okay;
      }
    }

    // ----- all parameters

    /** One turn of the loop of `free_operation`. */
    method FreeParam(i: nat, ghost before: set<Block>, ghost start: Dev)
      requires i < PARAM_NUM && blocks.Held(before) && Left(blocks.zone, i, blocks.State()) && refs.Dropping(start, i)
      modifies blocks`own, blocks.zone.pages, blocks.zone.areas, refs.dev
      ensures blocks.Held(before) && Left(blocks.zone, i + 1, blocks.State()) && refs.Dropping(start, i + 1)
      ensures blocks.HasPack() == old(blocks.HasPack())
    {
      hide Owning;
      hide Left;
      hide GivingUp;
      hide DevOk;
      refs.FreeReference(i, start);
      blocks.FreeBlock(i, before);
    }

    /** `free_operation`: the pointers stay as they are, what they point to is given up. */
    method FreeOperation(ghost before: set<Block>)
      requires blocks.Held(before) && Left(blocks.zone, 0, blocks.State()) && refs.Sized()
      requires DevOk(refs.dev.Val()) && Refs(refs.sharemem) <= refs.dev.ops
      modifies blocks`own, blocks.zone.pages, blocks.zone.areas, refs.dev
      ensures blocks.Held(before) && Left(blocks.zone, PARAM_NUM, blocks.State())
      ensures blocks.HasPack() == old(blocks.HasPack())
      ensures Settled(old(refs.dev.Val()), refs.dev.Val(), refs.sharemem)
    {
      hide Owning;
      hide Left;
      hide GivingUp;
      hide Settled;
      hide DevOk;
      ghost var start := refs.dev.Val();
      GiveUpStart(start, refs.sharemem);
      var i := 0;
      while i < PARAM_NUM
        invariant i <= PARAM_NUM && blocks.Held(before) && Left(blocks.zone, i, blocks.State())
        invariant refs.Dropping(start, i) && blocks.HasPack() == old(blocks.HasPack())
      {
        FreeParam(i, before, start);
        i := i + 1;
      }
      GiveUpDone(start, refs.dev.Val(), refs.sharemem);
    }

    /** The loop of `alloc_operation`. */
    method AllocParams(params: seq<Param>, ghost before: set<Block>, ghost start: Dev) returns (ret: Ret)
      requires Arguments(params) && Acquired(0, before, start)
      modifies blocks`own, blocks`tempBuf, blocks`mbBuffer, blocks.zone.pages, blocks.zone.areas, refs, refs.dev
      ensures blocks.Held(before) && Left(blocks.zone, 0, blocks.State()) && refs.Referring(start)
      ensures blocks.HasPack() == old(blocks.HasPack()) && |blocks.types| == PARAM_NUM && ret != FromTee
      ensures ret == Okay <==>
        AllAdmissible(blocks.types, params, start) && Room(old(blocks.zone.Val()), Needs(blocks.types, params, 0))
      ensures ret == Okay ==> forall k :: 0 <= k < PARAM_NUM ==> Equipped(k, params[k], start)
    {
      hide Owning;
      hide Taken;
      hide Left;
      hide Refers;
      hide DevOk;
      hide CanTake;
      hide After;
      hide Room;
      hide Needs;
      hide Admissible;
      hide Referred;
      ghost var z := blocks.zone.Val();
      assert |blocks.types| == PARAM_NUM;
      ret := Okay;
      var index := 0;
      while index < PARAM_NUM && ret == Okay
        invariant index <= PARAM_NUM && Acquired(index, before, start) && blocks.HasPack() == old(blocks.HasPack())
        invariant ret != FromTee
        invariant ret == Okay ==>
          forall k :: 0 <= k < index ==> Admissible(blocks.types[k], params[k], start) && Equipped(k, params[k], start)
        invariant ret == Okay ==>
          (Room(z, Needs(blocks.types, params, 0)) <==> Room(blocks.zone.Val(), Needs(blocks.types, params, index)))
        invariant ret != Okay ==>
          !(AllAdmissible(blocks.types, params, start) && Room(z, Needs(blocks.types, params, 0)))
      {
        ghost var now := blocks.zone.Val();
        NeedsNext(now, blocks.types, params, index);
        ret := AllocParam(index, params[index], before, start);
        index := index + 1;
      }
      NeedsNext(blocks.zone.Val(), blocks.types, params, index);
      TakenIsLeft(blocks.zone, blocks.Fields(), blocks.own, index);
    }

    /** The references that the parameters hold once they are set up. */
    ghost function HeldRefs(): seq<Option<nat>>
      reads this, refs
    {
      if opInited then refs.sharemem else []
    }

    /** Once set up, the parameters hold the blocks the clean-up will find; otherwise they hold none. */
    ghost predicate Settable(before: set<Block>)
      reads this, blocks, blocks.zone.pages, blocks.zone.areas, refs
    {
      refs.Sized() && blocks.HasPack() && blocks.Held(before) &&
      Left(blocks.zone, if opInited then 0 else PARAM_NUM, blocks.State())
    }

    /** The clean-up of `alloc_operation` when a parameter fails. */
    method Undo(ghost before: set<Block>, ghost start: Dev)
      requires blocks.Held(before) && Left(blocks.zone, 0, blocks.State()) && refs.Referring(start)
      modifies blocks`own, blocks.zone.pages, blocks.zone.areas, refs.dev
      ensures blocks.Held(before) && Left(blocks.zone, PARAM_NUM, blocks.State())
      ensures blocks.HasPack() == old(blocks.HasPack()) && refs.dev.Val() == start
    {
      hide Owning;
      hide Left;
      hide DevOk;
      hide Settled;
      ghost var d := refs.dev.Val();
      FreeOperation(before);
      TakenAndGivenUp(start, d, refs.dev.Val(), refs.sharemem);
    }

    /** `alloc_operation`: everything the parameters need, or nothing. */
    method AllocOperation(params: seq<Param>, ghost before: set<Block>, ghost start: Dev) returns (ret: Ret)
      requires Arguments(params) && Acquired(0, before, start) && !opInited && blocks.HasPack()
      modifies this, blocks`own, blocks`tempBuf, blocks`mbBuffer, blocks.zone.pages, blocks.zone.areas, refs, refs.dev
      ensures Settable(before) && (opInited <==> ret == Okay) && ret != FromTee
      ensures Refers(start, refs.dev.Val(), HeldRefs())
      ensures ret != Okay ==> refs.dev.Val() == start
      ensures |blocks.types| == PARAM_NUM && (ret == Okay <==>
        AllAdmissible(blocks.types, params, start) && Room(old(blocks.zone.Val()), Needs(blocks.types, params, 0)))
      ensures ret == Okay ==> forall k :: 0 <= k < PARAM_NUM ==> Equipped(k, params[k], start)
    {
      hide AllAdmissible;
      hide Room;
      hide Needs;
      hide Referred;
      hide Owning;
      hide Taken;
      hide Left;
      hide Refers;
      hide DevOk;
      ret := AllocParams(params, before, start);
      if ret == Okay {
        opInited := true;
      } else {
        Undo(before, start);
        NoneHeld(start, []);
      }
    }

    // ----- the whole call

    /** `handle_ta_pending` */
    method HandlePending(rounds: seq<Round>) returns (ok: bool)
      ensures ok <==> forall i :: 0 <= i < |rounds| ==> rounds[i].appendOk && rounds[i].tokenOk
    {
      var i := 0;
      while i < |rounds|
        invariant i <= |rounds| && forall j :: 0 <= j < i ==> rounds[j].appendOk && rounds[j].tokenOk
      {
        if !rounds[i].appendOk || !rounds[i].tokenOk {
          return false;
        }
        i := i + 1;
      }
      ok := true;
    }

    /** The middle of `tc_client_call`, from the command's set-up to what is made of the answer. */
    method Serve(w: World, held: multiset<nat>) returns (ret: Ret)
      requires DevOk(refs.dev.Val()) && held <= refs.dev.ops
      modifies refs.dev
      ensures DevOk(refs.dev.Val()) && held <= refs.dev.ops
      ensures refs.dev.Val() == if w.configOk then Steps(old(refs.dev.Val()), w.others, held) else old(refs.dev.Val())
      ensures ret == Okay <==> Served(w)
      ensures ret == FromTee <==> Answered(w) && w.teeRet != 0
    {
      hide DevOk;
      hide Steps;
      if !w.configOk {
        return Fault;
      }
      refs.Wait(w.others, held);
      if !w.tokenOk {
        return Fault;
      }
      var answered := HandlePending(w.rounds);
      if !answered {
        return Fault;
      }
      ret := if w.teeRet != 0 then FromTee else if w.updateOk then Okay else Fault;
    }

    /** The command goes to the secure side only if the parameters are set up. */
    method Answer(setUp: Ret, w: World, held: multiset<nat>) returns (ret: Ret)
      requires setUp != FromTee
      requires DevOk(refs.dev.Val()) && held <= refs.dev.ops
      modifies refs.dev
      ensures DevOk(refs.dev.Val()) && held <= refs.dev.ops
      ensures refs.dev.Val() ==
        if Sent(setUp, w) then Steps(old(refs.dev.Val()), w.others, held) else old(refs.dev.Val())
      ensures ret == Okay <==> setUp == Okay && Served(w)
      ensures ret == FromTee <==> setUp == Okay && Answered(w) && w.teeRet != 0
    {
      hide DevOk;
      hide Steps;
      ret := setUp;
      if ret == Okay {
        ret := Serve(w, held);
      }
    }

    /** `release_tc_call_resource` */
    method ReleaseResources(ghost before: set<Block>)
      requires Settable(before) && DevOk(refs.dev.Val()) && Refs(HeldRefs()) <= refs.dev.ops
      modifies blocks`own, blocks.zone.pages, blocks.zone.areas, refs.dev
      ensures blocks.zone.Ok() && blocks.zone.Live() == before
      ensures Settled(old(refs.dev.Val()), refs.dev.Val(), HeldRefs())
    {
      hide Owning;
      hide Left;
      hide DevOk;
      hide Settled;
      if opInited {
        FreeOperation(before);
      } else {
        NoneHeld(refs.dev.Val(), []);
      }
      blocks.FreePack(before);
    }

    /** The parameters of a call are set up if it has any. */
    method SetUp(params: seq<Param>, ghost before: set<Block>, ghost start: Dev) returns (ret: Ret)
      requires Arguments(params) && Acquired(0, before, start) && !opInited && blocks.HasPack()
      requires refs.dev.Val() == start && blocks.types == TypesOf(paramTypes)
      modifies this, blocks`own, blocks`tempBuf, blocks`mbBuffer, blocks.zone.pages, blocks.zone.areas, refs, refs.dev
      ensures Settable(before) && Refers(start, refs.dev.Val(), HeldRefs()) && ret != FromTee
      ensures ret == Okay <==>
        AllAdmissible(TypesOf(paramTypes), params, start) &&
        Room(old(blocks.zone.Val()), Needs(TypesOf(paramTypes), params, 0))
    {
      hide AllAdmissible;
      hide Room;
      hide Needs;
      hide TypesOf;
      hide Owning;
      hide Taken;
      hide Left;
      hide Refers;
      hide DevOk;
      if paramTypes != 0 {
        ret := AllocOperation(params, before, start);
      } else {
        ret := Okay;
        NoParams(params, start);
        RoomForOne(blocks.zone.Val(), 0, []);
        NoneHeld(start, []);
        TakenIsLeft(blocks.zone, blocks.Fields(), blocks.own, 0);
      }
    }

    /** `tc_client_call` once the parameters are set up, or have failed to be. */
    method Conduct(setUp: Ret, w: World, ghost before: set<Block>, ghost start: Dev)
      returns (ret: Ret, ghost mid: Dev, ghost held: multiset<nat>)
      requires Settable(before) && DevOk(start) && Refers(start, refs.dev.Val(), HeldRefs()) && setUp != FromTee
      modifies blocks`own, blocks.zone.pages, blocks.zone.areas, refs.dev
      ensures blocks.zone.Ok() && blocks.zone.Live() == before
      ensures Balanced(start, mid, held, w.others, Sent(setUp, w), refs.dev.Val())
      ensures ret == Okay <==> setUp == Okay && Served(w)
      ensures ret == FromTee <==> setUp == Okay && Answered(w) && w.teeRet != 0
    {
      hide Owning;
      hide Left;
      hide DevOk;
      hide Balanced;
      hide Settled;
      hide Steps;
      ghost var shm := HeldRefs();
      mid, held := refs.dev.Val(), Refs(shm);
      ret := Answer(setUp, w, Refs(if opInited then refs.sharemem else []));
      ghost var back := refs.dev.Val();
      ReleaseResources(before);
      CallBalances(start, mid, back, refs.dev.Val(), shm, w.others, Sent(setUp, w));
    }

    /** `tc_client_call` once the command is there. */
    method WithPack(params: seq<Param>, w: World, ghost before: set<Block>)
      returns (ret: Ret, ghost mid: Dev, ghost held: multiset<nat>, ghost sent: bool)
      requires Arguments(params) && Blank() && blocks.zone.Ok() && blocks.zone.base > ZERO_SIZE_PTR
      requires blocks.zone.Live() == before && DevOk(refs.dev.Val())
      modifies this, blocks, blocks.zone.pages, blocks.zone.areas, refs, refs.dev
      ensures blocks.zone.Ok() && blocks.zone.Live() == before
      ensures Balanced(old(refs.dev.Val()), mid, held, w.others, sent, refs.dev.Val())
      ensures ret == Okay <==> sent && Served(w)
      ensures ret == FromTee <==> sent && Answered(w) && w.teeRet != 0
      ensures sent <==> w.configOk && Feasible(TypesOf(paramTypes), params, old(blocks.zone.Val()), old(refs.dev.Val()))
    {
      hide AllAdmissible;
      hide Room;
      hide Needs;
      hide TypesOf;
      hide CanTake;
      hide After;
      hide Owning;
      hide Taken;
      RoomForOne(blocks.zone.Val(), PAGE_SIZE, Needs(TypesOf(paramTypes), params, 0));
      hide Refers;
      hide DevOk;
      hide Balanced;
      ghost var start := refs.dev.Val();
      NoneHeld(start, refs.sharemem);
      NothingTaken(start, w.others);
      ret, mid, held, sent := NoMemory, start, multiset{}, false;
      var ok := blocks.GrabPack(before);
      if ok {
        var setUp := SetUp(params, before, start);
        sent := Sent(setUp, w);
        ret, mid, held := Conduct(setUp, w, before, start);
      }
    }

    /**
      `tc_client_call`: whatever the parameter types and wherever it fails, the call gives back each mailbox block it
      took, leaves the free structure of the zone as it was, and gives up each reference it took to shared memory. The
      device is exactly what others made of it while the command was with the secure side, and what it was if the
      command never got there. The call succeeds if and only if it got there and all went well from then on.
     */
    method TcClientCall(params: seq<Param>, w: World)
      returns (ret: Ret, ghost mid: Dev, ghost held: multiset<nat>, ghost sent: bool)
      requires Arguments(params) && Blank() && blocks.zone.Ok() && blocks.zone.base > ZERO_SIZE_PTR
      requires DevOk(refs.dev.Val())
      modifies this, blocks, blocks.zone.pages, blocks.zone.areas, refs, refs.dev
      ensures blocks.zone.Ok() && blocks.zone.Live() == old(blocks.zone.Live())
      ensures FreeBlocks(blocks.zone.Val()) == old(FreeBlocks(blocks.zone.Val()))
      ensures Balanced(old(refs.dev.Val()), mid, held, w.others, sent, refs.dev.Val())
      ensures ret == Okay <==> sent && Served(w)
      ensures ret == FromTee <==> sent && Answered(w) && w.teeRet != 0
      ensures sent <==>
        w.cmdOk && w.configOk &&
        Feasible(TypesOf(paramTypes), params, old(blocks.zone.Val()), old(refs.dev.Val()))
    {
      hide Feasible;
      hide Balanced;
      hide DevOk;
      hide Arises;
      ret, mid, held, sent := NoMemory, refs.dev.Val(), multiset{}, false;
      NothingTaken(refs.dev.Val(), w.others);
      if w.cmdOk {
        ghost var z := blocks.zone.Val();
        ret, mid, held, sent := WithPack(params, w, blocks.zone.Live());
        ArisingCanonical(blocks.zone.Val(), z);
      }
    }
  }
}
