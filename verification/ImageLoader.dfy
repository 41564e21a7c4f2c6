/**
  Loading a trusted application image (core/session_manager.c): the load buffer is taken from the
  mailbox pool at the largest size to be had, and all three blocks go back whatever happens.
 */
module ImageLoader {
  import opened Options
  import opened Octets
  import opened Dyadic
  import opened Buddy
  import opened BuddyTheorems
  import opened Mailbox
  import opened CallBlocks
  import opened ImageFrames

  const SZ_1M: nat := 0x100000
  const SZ_8M: nat := 0x800000
  const UUID_SIZE: nat := 16

  /** The size the search for a load buffer starts with: the whole pages that hold the file, or 1 MiB. */
  function FirstSize(fileSize: nat): (s: nat)
    ensures fileSize > 0 ==> PAGE_SIZE <= s <= SZ_1M && s % PAGE_SIZE == 0
    ensures if fileSize + FLAG_SIZE > SZ_1M then s == SZ_1M else fileSize <= s < fileSize + PAGE_SIZE
  {
    if fileSize > SZ_1M - FLAG_SIZE then SZ_1M else PagesFor(fileSize) * PAGE_SIZE
  }

  // ----- the halving search

  ghost predicate NoPageFree(z: Zone) {
    forall s: nat :: !RunIsFree(z, s, 0)
  }

  /** Where there is no free page there is no free run. */
  lemma NoPageNoRun(z: Zone, s: nat, k: nat)
    requires NoPageFree(z)
    ensures !RunIsFree(z, s, k)
  {
    assert RunIsFree(z, s, k) ==> RunIsFree(z, s, 0);
  }

  /** The order of a request is 0 exactly up to one page. */
  lemma OrderZero(size: nat)
    ensures size <= PAGE_SIZE <==> OrderFor(size) == 0
  {
  }

  /** Sizes of the search: `pages` whole pages halved some times, exactly as long as more than a page is left. */
  ghost predicate Halved(size: nat, pages: nat, unit: nat) {
    size == pages * unit && 1 <= pages <= 256 && unit in {4096, 2048, 1024, 512, 256, 128, 64, 32, 16}
  }

  lemma HalveOnce(size: nat, pages: nat, unit: nat)
    requires Halved(size, pages, unit) && size > PAGE_SIZE
    ensures Halved(size / 2, pages, unit / 2) && 2 * (size / 2) == size
  {
    assert unit != 16;
  }

  /** A fresh block `b` of at least `size` bytes has been taken from the zone, whose live blocks were `before`. */
  ghost predicate Took(zone: MailboxZone, before: set<Block>, size: nat, addr: nat, b: Block)
    reads zone.pages, zone.areas
  {
    size <= PAGE_SIZE * Pow2(b.order) && Names(zone, addr, Some(b)) && b !in before && zone.Live() == before + {b}
  }

  // ----- the size that is found

  function HalvedTimes(size: nat, n: nat): nat {
    if n == 0 then size else HalvedTimes(size, n - 1) / 2
  }

  /** `size` is the first of `first`, its half, the half of that and so on for which there is room. */
  ghost predicate FirstFit(z: Zone, first: nat, size: nat) {
    exists n: nat :: FitsAfter(z, first, size, n)
  }

  ghost predicate FitsAfter(z: Zone, first: nat, size: nat, n: nat) {
    size == HalvedTimes(first, n) && CanTake(z, size) && NoneFits(z, first, n)
  }

  /** There is no room for any of the first `n` sizes. */
  ghost predicate NoneFits(z: Zone, first: nat, n: nat) {
    forall m: nat :: m < n ==> !CanTake(z, HalvedTimes(first, m))
  }

  lemma FirstFitIsUnique(z: Zone, first: nat, a: nat, b: nat)
    requires FirstFit(z, first, a) && FirstFit(z, first, b)
    ensures a == b
  {
    var n: nat :| FitsAfter(z, first, a, n);
    var m: nat :| FitsAfter(z, first, b, m);
    assert !(n < m) && !(m < n);
  }

  /** A load buffer of `size` bytes is found for such a file, and there is room for the other two blocks beside it. */
  ghost predicate LoadFits(z: Zone, fileSize: nat, size: nat) {
    FirstFit(z, FirstSize(fileSize), size) && Room(z, [size, PAGE_SIZE, UUID_SIZE])
  }

  /** One turn of the search: a request of up to one page fails only when no page is free. */
  method TrySize(zone: MailboxZone, size: nat) returns (addr: Option<nat>, ghost b: Block)
    requires zone.Ok() && size > 0
    modifies zone.pages, zone.areas
    ensures zone.Ok()
    ensures addr.None? ==> zone.Val() == old(zone.Val()) && (size <= PAGE_SIZE ==> NoPageFree(old(zone.Val())))
    ensures addr.Some? ==> !NoPageFree(old(zone.Val())) && Took(zone, old(zone.Live()), size, addr.value, b)
    ensures addr.Some? <==> CanTake(old(zone.Val()), size)
    ensures addr.Some? ==> zone.Val() == After(old(zone.Val()), size)
  {
    addr := zone.Alloc(size);
    b := Block(0, 0);
    OrderZero(size);
    if addr.Some? {
      b := Block(PageOf(zone.base, zone.maxOrder, addr.value).value, OrderFor(size));
      ghost var s: nat :| RunIsFree(old(zone.Val()), s, OrderFor(size));
      if NoPageFree(old(zone.Val())) { NoPageNoRun(old(zone.Val()), s, OrderFor(size)); }
    }
  }

  /**
    The loop of `alloc_for_load_image`. It fails only when not a single page is free; when it succeeds, the size found
    is over half a page, so that the check for a load size too small never fires, and the block has that size.
   */
  method FindLoadMem(zone: MailboxZone, fileSize: nat) returns (size: nat, addr: Option<nat>, ghost b: Block)
    requires zone.Ok() && fileSize > 0
    modifies zone.pages, zone.areas
    ensures zone.Ok()
    ensures addr.None? <==> NoPageFree(old(zone.Val()))
    ensures addr.None? ==> zone.Val() == old(zone.Val())
    ensures addr.Some? ==> PAGE_SIZE / 2 < size <= SZ_1M && Took(zone, old(zone.Live()), size, addr.value, b)
    ensures addr.Some? ==> FirstFit(old(zone.Val()), FirstSize(fileSize), size) && CanTake(old(zone.Val()), size)
    ensures addr.Some? ==> zone.Val() == After(old(zone.Val()), size)
    ensures addr.None? ==> forall s: nat :: !FirstFit(old(zone.Val()), FirstSize(fileSize), s)
  {
    hide CanTake;
    hide After;
    size, addr, b := FirstSize(fileSize), None, Block(0, 0);
    ghost var pages, unit := size / PAGE_SIZE, PAGE_SIZE;
    ghost var n: nat := 0;
    while size > 0
      invariant zone.Ok() && zone.Val() == old(zone.Val()) && addr.None? && size <= SZ_1M
      invariant NoPageFree(old(zone.Val())) || (Halved(size, pages, unit) && size > PAGE_SIZE / 2)
      invariant size == HalvedTimes(FirstSize(fileSize), n) && NoneFits(old(zone.Val()), FirstSize(fileSize), n)
    {
      addr, b := TrySize(zone, size);
      if addr.Some? {
        assert FitsAfter(old(zone.Val()), FirstSize(fileSize), size, n);
        return;
      }
      n := n + 1;
      if size > PAGE_SIZE && Halved(size, pages, unit) {
        HalveOnce(size, pages, unit);
        unit := unit / 2;
      }
      size := size / 2;
    }
    NothingFits(old(zone.Val()), FirstSize(fileSize));
  }

  /** Without a free page, no size fits. */
  lemma NothingFits(z: Zone, first: nat)
    ensures NoPageFree(z) ==> forall s: nat :: !FirstFit(z, first, s)
  {
    if NoPageFree(z) {
      forall s: nat
        ensures !FirstFit(z, first, s)
      {
        forall p: nat ensures !RunIsFree(z, p, OrderFor(s)) { NoPageNoRun(z, p, OrderFor(s)); }
      }
    }
  }

  // ----- the three blocks

  datatype Ret = Okay | Invalid | NoMemory | TooSmall | Failed(why: LoadRet)

  /** `alloc_for_load_image`: the load buffer, the command pack and the place for the uuid, or nothing. */
  method AllocForLoadImage(zone: MailboxZone, fileSize: nat)
    returns (ok: bool, size: nat, mem: nat, pack: nat, uuid: nat, ghost own: seq<Option<Block>>)
    requires zone.Ok() && fileSize > 0
    modifies zone.pages, zone.areas
    ensures !ok ==> zone.Ok() && zone.Live() == old(zone.Live())
    ensures ok ==> PAGE_SIZE / 2 < size <= SZ_1M && HeldThree(zone, old(zone.Live()), own, mem, pack, uuid)
    ensures ok ==> size <= PAGE_SIZE * Pow2(own[0].value.order)
    ensures NoPageFree(old(zone.Val())) ==> !ok
    ensures ok ==> LoadFits(old(zone.Val()), fileSize, size)
    ensures ok <==> exists s: nat :: LoadFits(old(zone.Val()), fileSize, s)
  {
    hide FirstFit;
    hide Room;
    hide CanTake;
    hide After;
    ghost var z := zone.Val();
    ghost var before := zone.Live();
    ok, mem, pack, uuid, own := false, 0, 0, 0, [None, None, None];
    var addr;
    ghost var b;
    size, addr, b := FindLoadMem(zone, fileSize);
    if addr.None? {
      return;
    }
    mem := addr.value;
    assert Accounted(before, before, own) by { assert Blocks(own) == {}; }
    OneMoreBlock(before, before, own, 0, b);
    own := own[0 := Some(b)];
    RoomForOne(z, size, [PAGE_SIZE, UUID_SIZE]);
    assert [size] + [PAGE_SIZE, UUID_SIZE] == [size, PAGE_SIZE, UUID_SIZE];
    ok, pack, uuid, own := AllocRest(zone, before, own, mem);
    forall s: nat | FirstFit(z, FirstSize(fileSize), s)
      ensures s == size
    {
      FirstFitIsUnique(z, FirstSize(fileSize), s, size);
    }
  }

  /** Three blocks are held, at these addresses. */
  ghost predicate HeldThree(
    zone: MailboxZone, before: set<Block>, own: seq<Option<Block>>, mem: nat, pack: nat, uuid: nat)
    reads zone.pages, zone.areas
  {
    |own| == 3 && own[0].Some? && own[1].Some? && own[2].Some? && Owning(zone, before, own) &&
    Names(zone, mem, own[0]) && Names(zone, pack, own[1]) && Names(zone, uuid, own[2])
  }

  /** The part of `alloc_for_load_image` after the search. */
  method AllocRest(zone: MailboxZone, ghost before: set<Block>, ghost got: seq<Option<Block>>, mem: nat)
    returns (ok: bool, pack: nat, uuid: nat, ghost own: seq<Option<Block>>)
    requires Owning(zone, before, got) && |got| == 3 && got[0].Some? && got[1].None? && got[2].None?
    requires Names(zone, mem, got[0])
    modifies zone.pages, zone.areas
    ensures !ok ==> zone.Ok() && zone.Live() == before
    ensures ok ==> HeldThree(zone, before, own, mem, pack, uuid) && own[0] == got[0]
    ensures ok <==> Room(old(zone.Val()), [PAGE_SIZE, UUID_SIZE])
  {
    hide Arises;
    hide Room;
    hide CanTake;
    hide After;
    RoomForOne(zone.Val(), PAGE_SIZE, [UUID_SIZE]);
    RoomForOne(After(zone.Val(), PAGE_SIZE), UUID_SIZE, []);
    RoomForOne(After(After(zone.Val(), PAGE_SIZE), UUID_SIZE), 0, []);
    assert [PAGE_SIZE] + [UUID_SIZE] == [PAGE_SIZE, UUID_SIZE] && [UUID_SIZE] + [] == [UUID_SIZE];
    ok, pack, uuid, own := false, 0, 0, got;
    var addr;
    addr, own := Grab(zone, PAGE_SIZE, 1, before, own);
    if addr.None? {
      own := Release(zone, mem, 0, before, own);
      NothingHeld(before, zone.Live(), own);
      return;
    }
    pack := addr.value;
    addr, own := Grab(zone, UUID_SIZE, 2, before, own);
    if addr.None? {
      GiveUpTwo(zone, before, own, mem, pack);
      return;
    }
    uuid := addr.value;
    ok := true;
  }

  method GiveUpTwo(zone: MailboxZone, ghost before: set<Block>, ghost own: seq<Option<Block>>, mem: nat, pack: nat)
    requires |own| == 3 && own[0].Some? && own[1].Some? && own[2].None? && Owning(zone, before, own)
    requires Names(zone, mem, own[0]) && Names(zone, pack, own[1])
    modifies zone.pages, zone.areas
    ensures zone.Ok() && zone.Live() == before
  {
    hide Arises;
    ghost var left := Release(zone, mem, 0, before, own);
    left := Release(zone, pack, 1, before, left);
    NothingHeld(before, zone.Live(), left);
  }

  /** The end of `tc_ns_load_image`. */
  method FreeLoadImage(
    zone: MailboxZone, ghost before: set<Block>, ghost own: seq<Option<Block>>, mem: nat, pack: nat, uuid: nat)
    requires HeldThree(zone, before, own, mem, pack, uuid)
    modifies zone.pages, zone.areas
    ensures zone.Ok() && zone.Live() == before
  {
    hide Arises;
    ghost var left := Release(zone, mem, 0, before, own);
    left := Release(zone, pack, 1, before, left);
    left := Release(zone, uuid, 2, before, left);
    NothingHeld(before, zone.Live(), left);
  }

  /** `tc_ns_load_image` for a file of an admissible size. */
  method LoadFile(zone: MailboxZone, file: seq<byte>, copies: nat -> bool, accepts: nat -> bool)
    returns (ret: Ret, sent: seq<Frame>)
    requires zone.Ok() && |file| > 0
    modifies zone.pages, zone.areas
    ensures zone.Ok() && zone.Live() == old(zone.Live())
    ensures ret != Invalid && ret != TooSmall && ret != Failed(InvalidSize)
    ensures ret == Okay ==> Reassembled(sent) == file
    ensures NoPageFree(old(zone.Val())) ==> ret == NoMemory
    ensures ret == NoMemory <==> !exists s: nat :: LoadFits(old(zone.Val()), |file|, s)
    ensures ret == Okay <==> exists s: nat :: LoadsBy(old(zone.Val()), |file|, s, copies, accepts)
  {
    hide Arises;
    hide FirstFit;
    hide Room;
    ghost var z := zone.Val();
    ghost var before := zone.Live();
    var ok, size, mem, pack, uuid;
    ghost var own;
    ok, size, mem, pack, uuid, own := AllocForLoadImage(zone, |file|);
    if !ok {
      return NoMemory, [];
    }
    ret, sent := SendImage(file, size, copies, accepts);
    FreeLoadImage(zone, before, own, mem, pack, uuid);
    LoadsByOne(z, |file|, size, copies, accepts);
  }

  /** A file of this size is loaded through a buffer of `size` bytes, and every frame arrives. */
  ghost predicate LoadsBy(z: Zone, fileSize: nat, size: nat, copies: nat -> bool, accepts: nat -> bool) {
    LoadFits(z, fileSize, size) && size > FLAG_SIZE &&
    AllArrive(LoadTimes(fileSize, size - FLAG_SIZE), copies, accepts)
  }

  lemma LoadsByOne(z: Zone, fileSize: nat, size: nat, copies: nat -> bool, accepts: nat -> bool)
    requires LoadFits(z, fileSize, size)
    ensures (exists s: nat :: LoadsBy(z, fileSize, s, copies, accepts)) <==> LoadsBy(z, fileSize, size, copies, accepts)
  {
    hide FirstFit;
    hide Room;
    if s: nat :| LoadsBy(z, fileSize, s, copies, accepts) {
      FirstFitIsUnique(z, FirstSize(fileSize), s, size);
    }
  }

  /**
    `tc_ns_load_image`: a file of 1 byte to 8 MiB arrives whole exactly when there is room in the pool and every frame
    arrives, and the load fails otherwise; neither the error for a load size too small nor the one for an invalid load
    size ever occurs, and the mailbox pool is left as it was.
   */
  method LoadImage(zone: MailboxZone, file: seq<byte>, copies: nat -> bool, accepts: nat -> bool)
    returns (ret: Ret, sent: seq<Frame>)
    requires zone.Ok()
    modifies zone.pages, zone.areas
    ensures zone.Ok() && zone.Live() == old(zone.Live()) && FreeBlocks(zone.Val()) == old(FreeBlocks(zone.Val()))
    ensures ret == Invalid <==> !(0 < |file| <= SZ_8M)
    ensures ret != TooSmall && ret != Failed(InvalidSize)
    ensures ret == Okay ==> Reassembled(sent) == file
    ensures 0 < |file| <= SZ_8M && NoPageFree(old(zone.Val())) ==> ret == NoMemory
    ensures 0 < |file| <= SZ_8M ==> (ret == NoMemory <==> !exists s: nat :: LoadFits(old(zone.Val()), |file|, s))
    ensures 0 < |file| <= SZ_8M ==>
      (ret == Okay <==> exists s: nat :: LoadsBy(old(zone.Val()), |file|, s, copies, accepts))
  {
    if !(0 < |file| <= SZ_8M) {
      return Invalid, [];
    }
    ghost var z := zone.Val();
    ret, sent := LoadFile(zone, file, copies, accepts);
    ArisingCanonical(zone.Val(), z);
  }

  /** Each of the first `n` frames is copied into the load buffer and accepted by the secure world. */
  ghost predicate AllArrive(n: nat, copies: nat -> bool, accepts: nat -> bool) {
    forall i: nat :: i < n ==> copies(i) && accepts(i)
  }

  /** The middle of `tc_ns_load_image`, for a load buffer of `size` bytes. */
  method SendImage(file: seq<byte>, size: nat, copies: nat -> bool, accepts: nat -> bool)
    returns (ret: Ret, sent: seq<Frame>)
    requires |file| > 0
    ensures ret == TooSmall <==> size <= FLAG_SIZE
    ensures ret != Invalid && ret != NoMemory && ret != Failed(InvalidSize)
    ensures ret == Okay <==> size > FLAG_SIZE && AllArrive(LoadTimes(|file|, size - FLAG_SIZE), copies, accepts)
    ensures ret == Okay ==> |sent| == LoadTimes(|file|, size - FLAG_SIZE) && Reassembled(sent) == file
    ensures size > FLAG_SIZE ==> AreFrames(sent, file, size - FLAG_SIZE)
  {
    hide AreFrames;
    hide Reassembled;
    if size <= FLAG_SIZE {
      return TooSmall, [];
    }
    var payload := size - FLAG_SIZE;
    var loadTimes := |file| / payload;
    if |file| % payload != 0 {
      loadTimes := loadTimes + 1;
    }
    var mem := new byte[size](_ => 0);
    var r;
    r, sent := LoadByFrame(file, mem, loadTimes, copies, accepts);
    ret := if r == Done then Okay else Failed(r);
  }
}
