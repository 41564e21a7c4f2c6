/**
  The mailbox zone as a value: the page table and the per-order free lists, the split performed
  by an allocation and the coalescing performed by a free, and the invariant both keep.
 */
module Buddy {
  import opened Options
  import opened Dyadic

  /** One entry of the page table: `order` is -1 on every page that starts no block. */
  datatype Page = Page(order: int, count: nat)

  /** Free list `k` of `areas` holds the first pages of the free blocks of order `k`, oldest first. */
  datatype Zone = Zone(maxOrder: nat, pages: seq<Page>, areas: seq<seq<nat>>)

  datatype Block = Block(start: nat, order: nat)

  predicate Shape(z: Zone) {
    |z.pages| == Pow2(z.maxOrder) && |z.areas| == z.maxOrder + 1
  }

  predicate IsHead(z: Zone, p: nat) {
    p < |z.pages| && z.pages[p].order >= 0
  }

  predicate IsFree(z: Zone, p: nat, k: nat) {
    k < |z.areas| && p in z.areas[k]
  }

  predicate IsLive(z: Zone, p: nat) {
    IsHead(z, p) && !IsFree(z, p, z.pages[p].order)
  }

  ghost function LiveBlocks(z: Zone): set<Block> {
    set p: nat | 0 <= p < |z.pages| && IsLive(z, p) :: Block(p, z.pages[p].order)
  }

  ghost function FreeBlocks(z: Zone): set<Block> {
    set k: nat, p: nat | 0 <= k < |z.areas| && p in z.areas[k] :: Block(p, k)
  }

  // ----- the invariant, clause by clause

  /** Every block is aligned to its size and lies in the pool. */
  ghost predicate BlocksFit(z: Zone)
    requires Shape(z)
  {
    forall p: nat :: IsHead(z, p) ==>
      z.pages[p].order <= z.maxOrder && Aligned(p, z.pages[p].order) &&
      p + Pow2(z.pages[p].order) <= |z.pages|
  }

  /** Block ends: the next page, if there is one, starts the next block. */
  ghost predicate BlocksChain(z: Zone)
    requires Shape(z)
  {
    IsHead(z, 0) &&
    forall p: nat :: IsHead(z, p) && p + Pow2(z.pages[p].order) < |z.pages| ==>
      IsHead(z, p + Pow2(z.pages[p].order))
  }

  /** Inside a block no page starts another one. */
  ghost predicate BlocksSolid(z: Zone)
    requires Shape(z)
  {
    forall p: nat, q: nat :: IsHead(z, p) && p < q < p + Pow2(z.pages[p].order) ==> !IsHead(z, q)
  }

  /** List `k` holds heads of order `k`, each once. */
  ghost predicate ListsFaithful(z: Zone)
    requires Shape(z)
  {
    (forall k: nat, p: nat :: IsFree(z, p, k) ==> p < |z.pages| && z.pages[p].order == k) &&
    (forall k: nat, a: nat, b: nat :: k < |z.areas| && a < b < |z.areas[k]| ==> z.areas[k][a] != z.areas[k][b])
  }

  /**
    `count` tells live pages from all others, with one exception the code makes:
    a free whole-pool block may keep the count of its last use.
    `except` is a page under construction, whose count is not settled yet.
   */
  ghost predicate CountsFaithful(z: Zone, except: int)
    requires Shape(z)
  {
    forall p: nat :: p < |z.pages| ==>
      z.pages[p].count <= 1 && z.pages[p].order >= -1 &&
      (p != except ==>
        (!IsHead(z, p) ==> z.pages[p].count == 0) &&
        (IsLive(z, p) ==> z.pages[p].count == 1) &&
        (IsHead(z, p) && IsFree(z, p, z.pages[p].order) && z.pages[p].order != z.maxOrder ==> z.pages[p].count == 0))
  }

  /** Coalescing is maximal: no free block has a free buddy of its own order. */
  ghost predicate NoFreeBuddies(z: Zone)
    requires Shape(z)
  {
    forall k: nat, p: nat :: k < z.maxOrder && IsFree(z, p, k) ==> !IsFree(z, Flip(p, k), k)
  }

  ghost predicate Inv(z: Zone, except: int) {
    Shape(z) && BlocksFit(z) && BlocksChain(z) && BlocksSolid(z) && ListsFaithful(z) &&
    CountsFaithful(z, except) && NoFreeBuddies(z)
  }

  ghost predicate Valid(z: Zone) {
    Inv(z, -1)
  }

  /** The whole pool is free, but page 0 still carries the count of the whole-pool block it last was. */
  predicate StaleWhole(z: Zone) {
    Shape(z) && IsFree(z, 0, z.maxOrder) && z.pages[0].count != 0
  }

  // ----- set-up

  function InitZone(n: nat): (z: Zone)
    ensures Shape(z)
  {
    Zone(n,
         seq(Pow2(n), i => if i == 0 then Page(n, 0) else Page(-1, 0)),
         seq(n + 1, k => if k == n then [0] else []))
  }

  lemma InitValid(n: nat)
    ensures Valid(InitZone(n))
    ensures LiveBlocks(InitZone(n)) == {}
    ensures FreeBlocks(InitZone(n)) == {Block(0, n)}
  {
    var z := InitZone(n);
    ZeroAligned(n);
    assert z.areas[n] == [0];
    assert IsHead(z, 0);
    assert forall p: nat :: IsHead(z, p) ==> p == 0;
    assert IsFree(z, 0, n);
    assert forall k: nat, p: nat :: IsFree(z, p, k) ==> p == 0 && k == n;
    assert Block(0, n) in FreeBlocks(z);
  }

  // ----- allocation

  /** The least order from `k` up whose list is not empty, or `|areas|`. */
  function FirstNonEmpty(areas: seq<seq<nat>>, k: nat): (i: nat)
    requires k <= |areas|
    ensures k <= i <= |areas|
    ensures forall j :: k <= j < i ==> areas[j] == []
    ensures i < |areas| ==> areas[i] != []
    decreases |areas| - k
  {
    if k == |areas| || areas[k] != [] then k else FirstNonEmpty(areas, k + 1)
  }

  /** Hang the upper half of the run at `pos`, of order `j`, on free list `j`. */
  function PutHalf(z: Zone, pos: nat, j: nat): (r: Zone)
    requires pos + Pow2(j) < |z.pages| && j < |z.areas|
    ensures |r.pages| == |z.pages| && |r.areas| == |z.areas| && r.maxOrder == z.maxOrder
  {
    z.(pages := z.pages[pos + Pow2(j) := Page(j, 0)],
       areas := z.areas[j := z.areas[j] + [pos + Pow2(j)]])
  }

  /** The split loop: halves of orders `k`, `k+1`, ..., `i-1`, in this order. */
  function Split(z: Zone, pos: nat, k: nat, i: nat): (r: Zone)
    requires k <= i < |z.areas| && pos + Pow2(i) <= |z.pages|
    ensures |r.pages| == |z.pages| && |r.areas| == |z.areas| && r.maxOrder == z.maxOrder
    decreases i
  {
    if k == i then z
    else
      Pow2Less(i - 1, i);
      PutHalf(Split(z, pos, k, i - 1), pos, i - 1)
  }

  /** How the loop begins and goes on. */
  lemma SplitSteps(z: Zone, pos: nat, k: nat, i: nat)
    requires k <= i < |z.areas| && pos + Pow2(i) <= |z.pages|
    ensures Split(z, pos, i, i) == z
    ensures k < i ==>
      pos + Pow2(i - 1) < |z.pages| && Split(z, pos, k, i) == PutHalf(Split(z, pos, k, i - 1), pos, i - 1)
  {
    if k < i { Pow2Less(i - 1, i); }
  }

  /** Unlink the first block of list `i`. */
  function Unlink(z: Zone, i: nat): (r: Zone)
    requires i < |z.areas| && z.areas[i] != []
  {
    z.(areas := z.areas[i := z.areas[i][1..]])
  }

  function SetPage(z: Zone, p: nat, page: Page): (r: Zone)
    requires p < |z.pages|
  {
    z.(pages := z.pages[p := page])
  }

  /** What `mailbox_alloc` does to the zone for a request of order `k`, and the first page it hands out. */
  function AllocOrder(z: Zone, k: nat): (r: (Zone, Option<nat>))
    requires Shape(z)
    requires forall j: nat, p: nat :: IsFree(z, p, j) ==> p + Pow2(j) <= |z.pages|
  {
    if k > z.maxOrder then (z, None)
    else
      var i := FirstNonEmpty(z.areas, k);
      if i == |z.areas| then (z, None)
      else
        var pos := z.areas[i][0];
        assert IsFree(z, pos, i) && pos + Pow2(i) <= |z.pages|;
        (Split(SetPage(Unlink(z, i), pos, Page(k, 1)), pos, k, i), Some(pos))
  }

  // ----- release

  /** `list_del` of one node. */
  function Remove(s: seq<nat>, x: nat): (r: seq<nat>)
    ensures forall y :: y in r ==> y in s
  {
    if s == [] then [] else if s[0] == x then s[1..] else [s[0]] + Remove(s[1..], x)
  }

  function Lower(p: nat, b: nat): nat {
    if p > b then b else p
  }

  /** Take the free buddy `b` of `p` off its list and join the two runs of order `i` at the lower page. */
  function Join(z: Zone, p: nat, b: nat, i: nat): (r: Zone)
    requires Shape(z) && p < |z.pages| && b < |z.pages| && i < z.maxOrder
    ensures Shape(r)
  {
    z.(pages := z.pages[Lower(p, b) := Page(i + 1, 0)][if p > b then p else b := Page(-1, 0)],
       areas := z.areas[i := Remove(z.areas[i], b)])
  }

  /** Hang the run of order `i` at `p` on its list. */
  function Hang(z: Zone, p: nat, i: nat, page: Page): (r: Zone)
    requires p < |z.pages| && i < |z.areas|
  {
    z.(pages := z.pages[p := page], areas := z.areas[i := z.areas[i] + [p]])
  }

  /** The coalescing loop of `mailbox_free`, entered for the run of order `i` at page `p`. */
  function Coalesce(z: Zone, p: nat, i: nat): (r: Zone)
    requires Shape(z) && p < |z.pages| && i <= z.maxOrder
    decreases z.maxOrder - i
  {
    if i == z.maxOrder then
      Hang(z, 0, i, z.pages[0])
    else
      FlipInRange(p, i, z.maxOrder);
      var b := Flip(p, i);
      if z.pages[b] == Page(i, 0) then Coalesce(Join(z, p, b, i), Lower(p, b), i + 1)
      else Hang(z, p, i, z.pages[p].(count := 0))
  }

  /** What `mailbox_free` does to the zone when given an address in page `p`. */
  function FreePage(z: Zone, p: nat): (r: Zone)
    requires Shape(z)
  {
    if p >= |z.pages| || z.pages[p].count == 0 || z.pages[p].order < 0 || z.pages[p].order > z.maxOrder then z
    else Coalesce(z, p, z.pages[p].order)
  }
}
