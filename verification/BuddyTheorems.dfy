/**
  What the mailbox allocator guarantees: the blocks partition the pool, the free blocks are a
  function of the live ones, and an allocation fails only when it has to.
 */
module BuddyTheorems {
  import opened Options
  import opened Dyadic
  import opened Buddy
  import opened BuddyInvariant

  // ----- one operation

  /** The page handed out starts a new live block of the requested order; nothing else changes hands. */
  lemma AllocKeeps(z: Zone, k: nat)
    requires Valid(z)
    ensures forall j: nat, p: nat :: IsFree(z, p, j) ==> p + Pow2(j) <= |z.pages|
    ensures var (r, got) := AllocOrder(z, k);
      Valid(r) && r.maxOrder == z.maxOrder &&
      match got
      case None => r == z
      case Some(pos) =>
        !IsLive(z, pos) && LiveBlocks(r) == LiveBlocks(z) + {Block(pos, k)} &&
        Aligned(pos, k) && pos + Pow2(k) <= Pow2(z.maxOrder)
  {
    assert forall j: nat, p: nat :: IsFree(z, p, j) ==> IsHead(z, p);
    if k <= z.maxOrder && FirstNonEmpty(z.areas, k) < |z.areas| {
      var i := FirstNonEmpty(z.areas, k);
      var pos := z.areas[i][0];
      UnlinkKeeps(z, i);
      TakenKeeps(Unlink(z, i), pos, k, i);
      AllocLive(z, AllocOrder(z, k).0, pos, k);
    }
  }

  /** The block handed out is cut from the front of a free block that is no larger than any other that would do. */
  lemma AllocTakesSmallest(z: Zone, k: nat)
    requires Valid(z)
    ensures forall j: nat, p: nat :: IsFree(z, p, j) ==> p + Pow2(j) <= |z.pages|
    ensures match AllocOrder(z, k).1
      case None => true
      case Some(pos) =>
        exists i: nat :: k <= i && IsFree(z, pos, i) && forall j: nat, p: nat :: IsFree(z, p, j) && k <= j ==> i <= j
  {
    assert forall j: nat, p: nat :: IsFree(z, p, j) ==> IsHead(z, p);
    if AllocOrder(z, k).1.Some? {
      var i := FirstNonEmpty(z.areas, k);
      assert IsFree(z, z.areas[i][0], i);
      forall j: nat, p: nat | IsFree(z, p, j) && k <= j
        ensures i <= j
      {
        assert z.areas[j] != [];
      }
    }
  }

  /** A block that is on no list is cut down to order `k` and counted as in use. */
  lemma TakenKeeps(u: Zone, pos: nat, k: nat, i: nat)
    requires Inv(u, pos) && IsLive(u, pos) && u.pages[pos].order == i && k <= i
    ensures pos + Pow2(i) <= |u.pages| && i < |u.areas|
    ensures var r := Split(SetPage(u, pos, Page(k, 1)), pos, k, i);
      Valid(r) && IsLive(r, pos) && r.maxOrder == u.maxOrder && r.pages[pos].order == k &&
      (forall p: nat :: p != pos ==> (IsLive(r, p) <==> IsLive(u, p)) && (IsLive(u, p) ==> r.pages[p] == u.pages[p])) &&
      Aligned(pos, k) && pos + Pow2(k) <= |u.pages|
  {
    hide BlocksSolid;
    hide BlocksChain;
    hide ListsFaithful;
    hide NoFreeBuddies;
    hide Split;
    SplitKeeps(u, pos, k, i);
    var g := u.pages[pos].(order := k);
    var w := Split(SetPage(u, pos, g), pos, k, i);
    SplitSetPage(u, pos, k, i, g);
    SplitSetPage(u, pos, k, i, Page(k, 1));
    assert Split(SetPage(u, pos, Page(k, 1)), pos, k, i) == SetPage(w, pos, Page(k, 1));
    SettleCount(w, pos, k);
  }

  lemma AllocLive(z: Zone, r: Zone, pos: nat, k: nat)
    requires !IsLive(z, pos) && IsLive(r, pos) && r.pages[pos].order == k
    requires forall p: nat ::
      p != pos ==> (IsLive(r, p) <==> IsLive(z, p)) && (IsLive(z, p) ==> r.pages[p] == z.pages[p])
    ensures LiveBlocks(r) == LiveBlocks(z) + {Block(pos, k)}
  {
    forall b: Block
      ensures b in LiveBlocks(r) <==> b in LiveBlocks(z) || b == Block(pos, k)
    {
      LiveIff(r, b.start, b.order);
      LiveIff(z, b.start, b.order);
    }
  }

  lemma SettleCount(w: Zone, pos: nat, k: nat)
    requires Inv(w, pos) && IsLive(w, pos) && w.pages[pos].order == k
    ensures var r := SetPage(w, pos, Page(k, 1));
      Valid(r) && IsLive(r, pos) && (forall p: nat :: p != pos ==> (IsLive(r, p) <==> IsLive(w, p)))
  {
    var r := SetPage(w, pos, Page(k, 1));
    assert forall p: nat :: IsHead(r, p) <==> IsHead(w, p);
    assert forall q: nat, j: nat :: IsFree(r, q, j) <==> IsFree(w, q, j);
    HangBlocks(w, r, pos, k);
    assert forall p: nat :: p < |w.pages| ==> r.pages[p].order == w.pages[p].order;
  }

  /** Freeing the first page of a live block makes exactly that block free. */
  lemma FreeKeeps(z: Zone, p: nat)
    requires Valid(z) && IsLive(z, p)
    ensures Valid(FreePage(z, p)) && FreePage(z, p).maxOrder == z.maxOrder
    ensures LiveBlocks(FreePage(z, p)) == LiveBlocks(z) - {Block(p, z.pages[p].order)}
  {
    CoalesceKeeps(z, p, z.pages[p].order);
    var r := FreePage(z, p);
    forall b: Block
      ensures b in LiveBlocks(r) <==> b in LiveBlocks(z) && b != Block(p, z.pages[p].order)
    {
      LiveIff(r, b.start, b.order);
      LiveIff(z, b.start, b.order);
    }
  }

  /**
    Freeing any page that starts no live block leaves the zone valid, and in fact unchanged, except in one
    case: page 0 of a pool that was handed out whole and given back, which is then hung on its list twice.
   */
  lemma FreeNonLive(z: Zone, p: nat)
    requires Valid(z) && !IsLive(z, p)
    ensures Valid(FreePage(z, p)) <==> !(p == 0 && StaleWhole(z))
    ensures FreePage(z, p) == z <==> !(p == 0 && StaleWhole(z))
  {
    if p < |z.pages| && z.pages[p].count != 0 {
      assert IsHead(z, p) && IsFree(z, p, z.pages[p].order) && z.pages[p].order == z.maxOrder;
      WholeRunStartsAtZero(p, z.maxOrder);
      var n := z.maxOrder;
      var r := FreePage(z, p);
      assert r.areas[n] == z.areas[n] + [0];
      var a: nat :| a < |z.areas[n]| && z.areas[n][a] == 0;
      assert a < |z.areas[n]| < |r.areas[n]| && r.areas[n][a] == r.areas[n][|z.areas[n]|];
    }
  }

  /** The exception does happen: take the whole pool, give it back, give it back again. */
  lemma StaleWholeIsReachable(n: nat)
    ensures Valid(InitZone(n))
    ensures forall j: nat, p: nat :: IsFree(InitZone(n), p, j) ==> p + Pow2(j) <= Pow2(n)
    ensures var z1 := AllocOrder(InitZone(n), n).0; var z2 := FreePage(z1, 0);
      Valid(z2) && LiveBlocks(z2) == {} && StaleWhole(z2) && !Valid(FreePage(z2, 0))
  {
    hide BlocksSolid;
    hide BlocksChain;
    hide BlocksFit;
    hide NoFreeBuddies;
    hide CountsFaithful;
    hide ListsFaithful;
    InitValid(n);
    var z := InitZone(n);
    AllocKeeps(z, n);
    assert z.areas[n] == [0];
    assert FirstNonEmpty(z.areas, n) == n;
    var z1 := AllocOrder(z, n).0;
    assert z1.pages[0] == Page(n, 1) && z1.areas[n] == [];
    assert IsLive(z1, 0);
    FreeKeeps(z1, 0);
    var z2 := FreePage(z1, 0);
    assert z2.areas[n] == [0];
    assert IsFree(z2, 0, n);
    LiveIff(z1, 0, n);
    FreeNonLive(z2, 0);
  }

  // ----- partition

  /** The block that page `q` lies in. */
  lemma {:induction false} CoveringBlock(z: Zone, q: nat) returns (p: nat)
    requires Valid(z) && q < |z.pages|
    ensures IsHead(z, p) && p <= q < p + Pow2(z.pages[p].order)
  {
    p := q;
    while !IsHead(z, p)
      invariant p <= q && forall x: nat :: p < x <= q ==> !IsHead(z, x)
      decreases p
    {
      assert p != 0;
      p := p - 1;
    }
    var e := p + Pow2(z.pages[p].order);
    assert e < |z.pages| ==> IsHead(z, e);
  }

  ghost predicate InBlock(b: Block, q: nat) {
    b.start <= q < b.start + Pow2(b.order)
  }

  /** Every page lies in exactly one block, live or free, aligned to its size; the two kinds are told apart. */
  lemma Partition(z: Zone, q: nat)
    requires Valid(z) && q < Pow2(z.maxOrder)
    ensures exists b: Block :: b in LiveBlocks(z) + FreeBlocks(z) && InBlock(b, q)
    ensures forall b: Block, c: Block ::
              (b in LiveBlocks(z) + FreeBlocks(z) && c in LiveBlocks(z) + FreeBlocks(z) &&
               InBlock(b, q) && InBlock(c, q)) ==> b == c
    ensures LiveBlocks(z) !! FreeBlocks(z)
    ensures forall b: Block :: b in LiveBlocks(z) + FreeBlocks(z) ==> Aligned(b.start, b.order) && IsHead(z, b.start)
  {
    forall b: Block | b in LiveBlocks(z) + FreeBlocks(z)
      ensures IsHead(z, b.start) && z.pages[b.start].order == b.order
      ensures b in LiveBlocks(z) <==> b !in FreeBlocks(z)
    {
      LiveIff(z, b.start, b.order);
      FreeIff(z, b.start, b.order);
    }
    var p := CoveringBlock(z, q);
    LiveIff(z, p, z.pages[p].order);
    FreeIff(z, p, z.pages[p].order);
    assert InBlock(Block(p, z.pages[p].order), q);
    forall b: Block, c: Block | b in LiveBlocks(z) + FreeBlocks(z) && c in LiveBlocks(z) + FreeBlocks(z) &&
        InBlock(b, q) && InBlock(c, q)
      ensures b == c
    {
      if b.start != c.start {
        BlocksDisjoint(z, b.start, c.start);
      }
    }
  }

  // ----- completeness

  /** An aligned run of `2^k` pages that no live block touches. */
  ghost predicate RunIsFree(z: Zone, s: nat, k: nat) {
    Aligned(s, k) && s + Pow2(k) <= Pow2(z.maxOrder) &&
    forall b: Block :: b in LiveBlocks(z) ==> !Overlap(b.start, b.order, s, k)
  }

  /** The two halves of an aligned run are not both free blocks: they would have been joined. */
  lemma NotBothHalvesFree(z: Zone, s: nat, k: nat)
    requires Valid(z) && k > 0 && RunIsFree(z, s, k)
    ensures !(IsFree(z, s, k - 1) && IsFree(z, s + Pow2(k - 1), k - 1))
  {
    CoarserAligned(s, k - 1, k);
    BuddyIsOtherHalf(s, k - 1);
    if z.maxOrder < k { Pow2Less(z.maxOrder, k); }
  }

  /** Maximal coalescing: such a run lies inside one single free block. */
  lemma {:induction false} FreeRunInFreeBlock(z: Zone, s: nat, k: nat) returns (p: nat, m: nat)
    requires Valid(z) && RunIsFree(z, s, k)
    ensures IsFree(z, p, m) && k <= m && p <= s && s + Pow2(k) <= p + Pow2(m)
    decreases k
  {
    if k == 0 {
      p := CoveringBlock(z, s);
      m := z.pages[p].order;
      LiveIff(z, p, m);
    } else {
      var j := k - 1;
      var h := s + Pow2(j);
      UpperHalfAligned(s, j);
      CoarserAligned(s, j, k);
      assert RunIsFree(z, s, j) && RunIsFree(z, h, j);
      var p0, m0 := FreeRunInFreeBlock(z, s, j);
      var p1, m1 := FreeRunInFreeBlock(z, h, j);
      p, m := HalvesInOneBlock(z, s, k, p0, m0, p1, m1);
    }
  }

  /**
    If each half of a run lies in a free block, it is the same one: otherwise both would be free blocks, and buddies.
   */
  lemma HalvesInOneBlock(z: Zone, s: nat, k: nat, p0: nat, m0: nat, p1: nat, m1: nat) returns (p: nat, m: nat)
    requires Valid(z) && k > 0 && RunIsFree(z, s, k) && IsFree(z, p0, m0) && IsFree(z, p1, m1) && k - 1 <= m0
    requires k - 1 <= m1
    requires p0 <= s && s + Pow2(k - 1) <= p0 + Pow2(m0)
    requires p1 <= s + Pow2(k - 1) && s + Pow2(k - 1) + Pow2(k - 1) <= p1 + Pow2(m1)
    ensures IsFree(z, p, m) && k <= m && p <= s && s + Pow2(k) <= p + Pow2(m)
  {
    NotBothHalvesFree(z, s, k);
    p := if m0 >= k then p0 else p1;
    m := if m0 >= k then m0 else m1;
    assert m >= k;
    Nested(s, k, p, m);
  }

  /**
    A request of order at most the maximum fails exactly when no aligned run of its size
    is clear of every live block.
   */
  lemma AllocComplete(z: Zone, k: nat)
    requires Valid(z) && k <= z.maxOrder
    ensures forall j: nat, p: nat :: IsFree(z, p, j) ==> p + Pow2(j) <= |z.pages|
    ensures AllocOrder(z, k).1 == None <==> !exists s: nat :: RunIsFree(z, s, k)
  {
    AllocKeeps(z, k);
    var i := FirstNonEmpty(z.areas, k);
    if i < |z.areas| {
      var pos := z.areas[i][0];
      assert IsFree(z, pos, i);
      CoarserAligned(pos, k, i);
      if k < i { Pow2Less(k, i); }
      forall b: Block | b in LiveBlocks(z)
        ensures !Overlap(b.start, b.order, pos, k)
      {
        LiveIff(z, b.start, b.order);
        BlocksDisjoint(z, b.start, pos);
      }
      assert RunIsFree(z, pos, k);
    } else {
      forall s: nat | RunIsFree(z, s, k)
        ensures false
      {
        var p, m := FreeRunInFreeBlock(z, s, k);
      }
    }
  }

  // ----- canonical form

  lemma FreeBlockIsFreeRun(z: Zone, p: nat, k: nat)
    requires Valid(z) && IsFree(z, p, k)
    ensures RunIsFree(z, p, k)
  {
    forall b: Block | b in LiveBlocks(z)
      ensures !Overlap(b.start, b.order, p, k)
    {
      LiveIff(z, b.start, b.order);
      BlocksDisjoint(z, b.start, p);
    }
  }

  lemma FreeBlockCarriesOver(z: Zone, y: Zone, p: nat, k: nat)
    requires Valid(z) && Valid(y) && z.maxOrder == y.maxOrder && LiveBlocks(z) == LiveBlocks(y)
    requires IsFree(z, p, k)
    ensures IsFree(y, p, k)
  {
    FreeBlockIsFreeRun(z, p, k);
    var q, m := FreeRunInFreeBlock(y, p, k);
    FreeBlockIsFreeRun(y, q, m);
    var r, n := FreeRunInFreeBlock(z, q, m);
    // the block of z found on the way back contains the one we started from, so it is that block
    if r != p {
      BlocksDisjoint(z, r, p);
    }
  }

  /** The free blocks are a function of the live blocks, whatever the history. */
  lemma Canonical(z: Zone, y: Zone)
    requires Valid(z) && Valid(y) && z.maxOrder == y.maxOrder && LiveBlocks(z) == LiveBlocks(y)
    ensures FreeBlocks(z) == FreeBlocks(y)
    ensures forall p: nat :: p < |z.pages| ==> z.pages[p].order == y.pages[p].order
  {
    forall b: Block
      ensures b in FreeBlocks(z) <==> b in FreeBlocks(y)
    {
      FreeIff(z, b.start, b.order);
      FreeIff(y, b.start, b.order);
      if b in FreeBlocks(z) { FreeBlockCarriesOver(z, y, b.start, b.order); }
      if b in FreeBlocks(y) { FreeBlockCarriesOver(y, z, b.start, b.order); }
    }
    forall p: nat | p < |z.pages|
      ensures z.pages[p].order == y.pages[p].order
    {
      var k, j := z.pages[p].order, y.pages[p].order;
      if k >= 0 {
        LiveIff(z, p, k); FreeIff(z, p, k);
        LiveIff(y, p, k); FreeIff(y, p, k);
      }
      if j >= 0 {
        LiveIff(z, p, j); FreeIff(z, p, j);
        LiveIff(y, p, j); FreeIff(y, p, j);
      }
    }
  }

  /** Giving a block back right after taking it restores the free blocks, however they were split and joined. */
  lemma AllocThenFree(z: Zone, k: nat)
    requires Valid(z)
    ensures forall j: nat, p: nat :: IsFree(z, p, j) ==> p + Pow2(j) <= |z.pages|
    ensures var (r, got) := AllocOrder(z, k);
      got.Some? ==> Shape(r) && FreeBlocks(FreePage(r, got.value)) == FreeBlocks(z) &&
                    LiveBlocks(FreePage(r, got.value)) == LiveBlocks(z)
  {
    AllocKeeps(z, k);
    var (r, got) := AllocOrder(z, k);
    if got.Some? {
      var pos := got.value;
      LiveIff(r, pos, k);
      LiveIff(z, pos, k);
      FreeKeeps(r, pos);
      Canonical(z, FreePage(r, pos));
    }
  }

  /** Once nothing is live, the pool is again the single block it was set up as. */
  lemma AllFreeIsInitial(z: Zone)
    requires Valid(z) && LiveBlocks(z) == {}
    ensures FreeBlocks(z) == {Block(0, z.maxOrder)}
    ensures z.areas == InitZone(z.maxOrder).areas
  {
    InitValid(z.maxOrder);
    var y := InitZone(z.maxOrder);
    Canonical(z, y);
    forall k: nat | k < |z.areas|
      ensures z.areas[k] == y.areas[k]
    {
      forall x | x in z.areas[k]
        ensures x == 0 && k == z.maxOrder
      {
        FreeIff(z, x, k);
      }
      FreeIff(z, 0, z.maxOrder);
      ListOfOne(z.areas[k], 0);
    }
  }

  lemma ListOfOne(s: seq<nat>, x: nat)
    requires forall y :: y in s ==> y == x
    requires forall a: nat, b: nat :: a < b < |s| ==> s[a] != s[b]
    ensures s == if x in s then [x] else []
  {
    assert forall i: nat :: i < |s| ==> s[i] in s && s[i] == x;
    if |s| > 1 {
      NoTwoAlike(s, 0, 1);
    }
    assert |s| == 1 ==> s == [s[0]] && s[0] in s;
  }

  lemma NoTwoAlike(s: seq<nat>, i: nat, j: nat)
    requires i < j < |s| && forall a: nat, b: nat :: a < b < |s| ==> s[a] != s[b]
    ensures s[i] != s[j]
  {
  }

  // ----- histories

  datatype Op = Alloc(order: nat) | Free(page: nat)

  /** The zone after one request; a zone on which an allocation is not defined is left alone. */
  function Apply(z: Zone, op: Op): (r: Zone)
    requires Shape(z) && forall j: nat, p: nat :: IsFree(z, p, j) ==> p + Pow2(j) <= |z.pages|
  {
    match op
    case Alloc(k) => AllocOrder(z, k).0
    case Free(p) => FreePage(z, p)
  }

  /** The states a history of requests passes through, no request being the one excepted by `FreeNonLive`. */
  ghost predicate History(zs: seq<Zone>, ops: seq<Op>) {
    |zs| == |ops| + 1 && zs[0] == InitZone(zs[0].maxOrder) &&
    forall i: nat :: i < |ops| ==> Valid(zs[i]) ==>
      !(ops[i] == Free(0) && StaleWhole(zs[i])) && Follows(zs[i], ops[i], zs[i + 1])
  }

  ghost predicate Follows(z: Zone, op: Op, r: Zone)
    requires Valid(z)
  {
    AllocKeeps(z, 0);
    r == Apply(z, op)
  }

  lemma {:induction false} HistoryValid(zs: seq<Zone>, ops: seq<Op>, i: nat)
    requires History(zs, ops) && i < |zs|
    ensures Valid(zs[i]) && zs[i].maxOrder == zs[0].maxOrder
  {
    if i == 0 {
      InitValid(zs[0].maxOrder);
    } else {
      HistoryValid(zs, ops, i - 1);
      var z := zs[i - 1];
      assert Follows(z, ops[i - 1], zs[i]);
      match ops[i - 1] {
        case Alloc(k) => AllocKeeps(z, k);
        case Free(p) =>
          if IsLive(z, p) { FreeKeeps(z, p); } else { FreeNonLive(z, p); }
      }
    }
  }

  /** After any history, an allocation fails only when it has to. */
  lemma HistoryComplete(zs: seq<Zone>, ops: seq<Op>, k: nat)
    requires History(zs, ops) && k <= zs[0].maxOrder
    ensures var z := zs[|ops|];
      Valid(z) && (forall j: nat, p: nat :: IsFree(z, p, j) ==> p + Pow2(j) <= |z.pages|) &&
      (AllocOrder(z, k).1 == None <==> !exists s: nat :: RunIsFree(z, s, k))
  {
    HistoryValid(zs, ops, |ops|);
    AllocComplete(zs[|ops|], k);
  }

  // ----- the zones that arise

  /** Some history of requests leads from the set-up to this zone. */
  ghost predicate Arises(z: Zone) {
    exists zs: seq<Zone>, ops: seq<Op> :: History(zs, ops) && zs[|ops|] == z
  }

  lemma ArisesValid(z: Zone)
    requires Arises(z)
    ensures Valid(z)
  {
    var zs: seq<Zone>, ops: seq<Op> :| History(zs, ops) && zs[|ops|] == z;
    HistoryValid(zs, ops, |ops|);
  }

  lemma InitArises(n: nat)
    ensures Arises(InitZone(n))
  {
    assert History([InitZone(n)], []);
  }

  lemma NextArises(z: Zone, op: Op, r: Zone)
    requires Arises(z) && Valid(z) && !(op == Free(0) && StaleWhole(z)) && Follows(z, op, r)
    ensures Arises(r)
  {
    var zs: seq<Zone>, ops: seq<Op> :| History(zs, ops) && zs[|ops|] == z;
    var ys, os := zs + [r], ops + [op];
    forall i: nat | i < |os| && Valid(ys[i])
      ensures !(os[i] == Free(0) && StaleWhole(ys[i])) && Follows(ys[i], os[i], ys[i + 1])
    {
      assert i < |ops| ==> ys[i] == zs[i] && ys[i + 1] == zs[i + 1] && os[i] == ops[i];
    }
    assert History(ys, os) && ys[|os|] == r;
  }

  /** An allocation and any free but the excepted one lead on. */
  lemma AllocArises(z: Zone, k: nat)
    requires Arises(z)
    ensures Valid(z) && forall j: nat, p: nat :: IsFree(z, p, j) ==> p + Pow2(j) <= |z.pages|
    ensures Arises(AllocOrder(z, k).0)
  {
    ArisesValid(z);
    AllocKeeps(z, k);
    NextArises(z, Alloc(k), AllocOrder(z, k).0);
  }

  lemma FreeArises(z: Zone, p: nat)
    requires Arises(z)
    ensures Valid(z) && (Arises(FreePage(z, p)) <==> !(p == 0 && StaleWhole(z)))
  {
    ArisesValid(z);
    AllocKeeps(z, 0);
    if p == 0 && StaleWhole(z) {
      FreeNonLive(z, p);
      if Arises(FreePage(z, p)) { ArisesValid(FreePage(z, p)); }
    } else {
      NextArises(z, Free(p), FreePage(z, p));
    }
  }

  /** The free blocks of the zones that arise are a function of the live ones. */
  lemma ArisingCanonical(z: Zone, y: Zone)
    requires Arises(z) && Arises(y) && z.maxOrder == y.maxOrder && LiveBlocks(z) == LiveBlocks(y)
    ensures FreeBlocks(z) == FreeBlocks(y)
  {
    ArisesValid(z);
    ArisesValid(y);
    Canonical(z, y);
  }
}
