/**
  The mailbox memory pool (core/mailbox_mempool.c): the zone updated in place, with the requests
  given in bytes and addresses as the driver gives them.
 */
module Mailbox {
  import opened Options
  import opened Dyadic
  import opened Buddy
  import opened BuddyTheorems

  const PAGE_SIZE: nat := 4096

  /** Pages needed for `size` bytes. */
  function PagesFor(size: nat): nat {
    (size + PAGE_SIZE - 1) / PAGE_SIZE
  }

  /** The least order whose block holds `n` pages. */
  function GetOrder(n: nat): (k: nat)
    ensures n <= Pow2(k)
    ensures k > 0 ==> Pow2(k - 1) < n
  {
    if n <= 1 then 0 else 1 + GetOrder((n + 1) / 2)
  }

  function OrderFor(size: nat): (k: nat)
    ensures size <= PAGE_SIZE * Pow2(k)
    ensures size > 0 && k > 0 ==> PAGE_SIZE * Pow2(k - 1) < size
  {
    GetOrder(PagesFor(size))
  }

  /** What an address says about the zone it points into: the page it lies in, if any. */
  function PageOf(base: nat, maxOrder: nat, ptr: nat): (r: Option<nat>)
    ensures r.Some? <==> ptr != 0 && base <= ptr < base + PAGE_SIZE * Pow2(maxOrder)
    ensures r.Some? ==>
      r.value < Pow2(maxOrder) && base + PAGE_SIZE * r.value <= ptr < base + PAGE_SIZE * r.value + PAGE_SIZE
  {
    if ptr == 0 || ptr < base || (ptr - base) / PAGE_SIZE >= Pow2(maxOrder) then None
    else Some((ptr - base) / PAGE_SIZE)
  }

  function AddressOf(base: nat, page: nat): (ptr: nat) {
    base + PAGE_SIZE * page
  }

  class MailboxZone {
    const maxOrder: nat
    const base: nat
    const pages: array<Page>
    const areas: array<seq<nat>>

    ghost predicate Shaped() {
      base > 0 && pages.Length == Pow2(maxOrder) && areas.Length == maxOrder + 1
    }

    /** The zone as a value. */
    ghost function Val(): (z: Zone)
      reads pages, areas
    {
      Zone(maxOrder, pages[..], areas[..])
    }

    /** The zone is one that requests lead to; `ArisesValid` says what that means for it. */
    ghost predicate Ok()
      reads pages, areas
    {
      Shaped() && Arises(Val())
    }

    ghost function Live(): set<Block>
      reads pages, areas
    {
      LiveBlocks(Val())
    }

    /** Zone set-up: one block of the maximal order, which is free. */
    constructor (n: nat, poolBase: nat)
      requires poolBase > 0
      ensures maxOrder == n && base == poolBase && fresh(pages) && fresh(areas)
      ensures Shaped() && Val() == InitZone(n)
      ensures Ok() && Live() == {} && FreeBlocks(Val()) == {Block(0, n)}
    {
      maxOrder := n;
      base := poolBase;
      pages := new Page[Pow2(n)](i => Page(0, 0));
      areas := new seq<nat>[n + 1](i => []);
      new;
      var i := 0;
      while i < pages.Length
        invariant 0 <= i <= pages.Length
        invariant forall j :: 0 <= j < i ==> pages[j] == Page(-1, 0)
      {
        pages[i] := Page(-1, 0);
        i := i + 1;
      }
      pages[0] := pages[0].(order := n);
      i := 0;
      while i <= n
        invariant 0 <= i <= n + 1
        invariant forall j :: 0 <= j < i ==> areas[j] == []
        invariant pages[0] == Page(n, 0) && forall j :: 0 < j < pages.Length ==> pages[j] == Page(-1, 0)
      {
        areas[i] := [];
        i := i + 1;
      }
      areas[n] := areas[n] + [0];
      assert areas[n] == [0] && forall k :: 0 <= k < n ==> areas[k] == [];
      assert pages[..] == InitZone(n).pages;
      assert areas[..] == InitZone(n).areas;
      InitValid(n);
      InitArises(n);
    }

    /** The split loop of `mailbox_alloc`, for a block of order `i` at `pos` that is still first on its list. */
    method SplitBlock(pos: nat, order: nat, i: nat, ghost u: Zone)
      requires Shaped() && order <= i <= maxOrder && areas[i] != [] && pos + Pow2(i) <= pages.Length
      requires u == Val().(areas := areas[..][i := areas[i][1..]])
      modifies pages, areas
      ensures areas[i] == old(areas[i])
      ensures Val().(areas := areas[..][i := areas[i][1..]]) == Split(u, pos, order, i)
    {
      hide Split;
      ghost var rest := areas[i][1..];
      var j := order;
      if order < i { Pow2Less(order, i); }
      SplitSteps(u, pos, order, order);
      while j < i
        invariant order <= j <= i
        invariant areas[i] == old(areas[i])
        invariant pos + Pow2(j) <= pages.Length
        invariant Val().(areas := areas[..][i := rest]) == Split(u, pos, order, j)
      {
        Pow2Less(j, i);
        if j + 1 < i { Pow2Less(j + 1, i); }
        ghost var before := Val();
        pages[pos + Pow2(j)] := Page(j, 0);
        areas[j] := areas[j] + [pos + Pow2(j)];
        assert pages[..] == before.pages[pos + Pow2(j) := Page(j, 0)];
        assert areas[..][i := rest] == before.areas[i := rest][j := before.areas[j] + [pos + Pow2(j)]];
        assert Val().(areas := areas[..][i := rest]) == PutHalf(before.(areas := before.areas[i := rest]), pos, j);
        SplitSteps(u, pos, order, j + 1);
        j := j + 1;
      }
    }

    /** The locked part of `mailbox_alloc`. */
    method TakeBlock(order: nat) returns (got: Option<nat>)
      requires Shaped() && order <= maxOrder
      requires forall j: nat, p: nat :: IsFree(Val(), p, j) ==> p + Pow2(j) <= pages.Length
      modifies pages, areas
      ensures (Val(), got) == old(AllocOrder(Val(), order))
    {
      ghost var z := Val();
      var i := order;
      while i <= maxOrder && areas[i] == []
        invariant order <= i <= maxOrder + 1
        invariant forall j :: order <= j < i ==> areas[j] == []
      {
        i := i + 1;
      }
      FirstNonEmptyIs(z.areas, order, i);
      if i > maxOrder {
        return None;
      }
      var pos := areas[i][0];
      assert IsFree(z, pos, i) && pos + Pow2(i) <= |z.pages|;
      pages[pos] := pages[pos].(count := 1);
      pages[pos] := pages[pos].(order := order);
      ghost var u := SetPage(Unlink(z, i), pos, Page(order, 1));
      assert pages[..] == u.pages;
      SplitBlock(pos, order, i, u);
      ghost var after := Val();
      areas[i] := Remove(areas[i], pos);
      assert areas[..] == after.areas[i := after.areas[i][1..]];
      got := Some(pos);
    }

    /**
      `mailbox_alloc`: the first block of the shortest sufficient list is cut down to the requested order.
      The request fails only for size 0, for an order above the maximum, or when every aligned run of the
      needed size touches a live block.
     */
    method Alloc(size: nat) returns (addr: Option<nat>)
      requires Ok()
      modifies pages, areas
      ensures Ok()
      ensures addr == None ==> Val() == old(Val())
      ensures addr == None <==>
        size == 0 || OrderFor(size) > maxOrder || !old(exists s: nat :: RunIsFree(Val(), s, OrderFor(size)))
      ensures addr.Some? ==> Handed(old(Val()), Val(), addr.value, OrderFor(size))
    {
      if size == 0 {
        return None;
      }
      var order := OrderFor(size);
      if order > maxOrder {
        return None;
      }
      AllocArises(Val(), order);
      AllocKeeps(Val(), order);
      AllocComplete(Val(), order);
      var got := TakeBlock(order);
      addr := if got == None then None else Some(AddressOf(base, got.value));
      if got.Some? {
        FirstPageOf(base, maxOrder, got.value);
      }
    }

    /** `ptr` is the address of a block of order `k` that is live in `r` and was not in `z`; nothing else moved. */
    ghost predicate Handed(z: Zone, r: Zone, ptr: nat, k: nat) {
      Shape(z) && (forall j: nat, p: nat :: IsFree(z, p, j) ==> p + Pow2(j) <= |z.pages|) &&
      match PageOf(base, maxOrder, ptr)
      case None => false
      case Some(p) =>
        ptr == AddressOf(base, p) && p + Pow2(k) <= Pow2(maxOrder) && Aligned(p, k) &&
        (r, Some(p)) == AllocOrder(z, k) &&
        !IsLive(z, p) && LiveBlocks(r) == LiveBlocks(z) + {Block(p, k)}
    }

    /** The part of the loop of `mailbox_free` that joins a block with its free buddy. */
    method JoinBuddy(self: nat, buddy: nat, i: nat) returns (page: nat)
      requires Shaped() && i < maxOrder && self < pages.Length && buddy < pages.Length && self != buddy
      requires pages[buddy].count == 0
      modifies pages, areas
      ensures Val() == old(Join(Val(), self, buddy, i)) && page == Lower(self, buddy)
    {
      ghost var before := Val();
      pages[self] := pages[self].(count := 0);
      areas[i] := Remove(areas[i], buddy);
      page := self;
      if self > buddy {
        page := buddy;
        pages[buddy] := pages[buddy].(order := i + 1);
        pages[self] := pages[self].(order := -1);
      } else {
        pages[self] := pages[self].(order := i + 1);
        pages[buddy] := pages[buddy].(order := -1);
      }
      assert pages[..] == Join(before, self, buddy, i).pages;
      assert areas[..] == Join(before, self, buddy, i).areas;
    }

    /** The locked part of `mailbox_free`, for an address in page `first` of the pool. */
    method GiveBack(first: nat)
      requires Shaped() && first < pages.Length
      requires pages[first].count != 0 ==> 0 <= pages[first].order <= maxOrder
      modifies pages, areas
      ensures Val() == old(FreePage(Val(), first))
    {
      if pages[first].count == 0 {
        return;
      }
      ghost var z := Val();
      var page: nat := first;
      var i := pages[page].order;
      while i < maxOrder
        invariant 0 <= i <= maxOrder && page < pages.Length
        invariant Coalesce(Val(), page, i) == FreePage(z, first)
      {
        FlipInRange(page, i, maxOrder);
        var buddy := Flip(page, i);
        ghost var before := Val();
        if pages[buddy] != Page(i, 0) {
          pages[page] := pages[page].(count := 0);
          areas[i] := areas[i] + [page];
          assert Val() == Hang(before, page, i, before.pages[page].(count := 0));
          return;
        }
        page := JoinBuddy(page, buddy, i);
        i := i + 1;
      }
      ghost var last := Val();
      areas[maxOrder] := areas[maxOrder] + [0];
      assert Val() == Hang(last, 0, maxOrder, last.pages[0]);
    }

    /**
      `mailbox_free`: any address may be given. An address in the first page of a live block frees
      exactly that block; every other address changes nothing, with the one exception of `FreeNonLive`.
     */
    method Free(ptr: nat)
      requires Ok()
      modifies pages, areas
      ensures match PageOf(base, maxOrder, ptr)
        case None => Val() == old(Val())
        case Some(p) =>
          Val() == FreePage(old(Val()), p) &&
          (IsLive(old(Val()), p) ==> Ok() && Live() == old(Live()) - {Block(p, old(Val()).pages[p].order)}) &&
          (!IsLive(old(Val()), p) ==> if p == 0 && StaleWhole(old(Val())) then !Ok() else Val() == old(Val()))
    {
      if ptr == 0 || ptr < base || (ptr - base) / PAGE_SIZE >= pages.Length {
        return;
      }
      var page := (ptr - base) / PAGE_SIZE;
      FreeArises(Val(), page);
      if IsLive(Val(), page) { FreeKeeps(Val(), page); } else { FreeNonLive(Val(), page); }
      assert pages[page].count != 0 ==> IsHead(Val(), page);
      GiveBack(page);
    }
  }

  lemma FirstPageOf(base: nat, maxOrder: nat, p: nat)
    requires base > 0 && p < Pow2(maxOrder)
    ensures PageOf(base, maxOrder, AddressOf(base, p)) == Some(p)
  {
  }

  lemma FirstNonEmptyIs(areas: seq<seq<nat>>, k: nat, i: nat)
    requires k <= i <= |areas| && (forall j :: k <= j < i ==> areas[j] == []) && (i < |areas| ==> areas[i] != [])
    ensures FirstNonEmpty(areas, k) == i
  {
  }
}
