/**
  The split and coalescing steps keep the zone invariant, and what they do to the live blocks.
 */
module BuddyInvariant {
  import opened Dyadic
  import opened Buddy

  /** Distinct blocks never share a page. */
  lemma BlocksDisjoint(z: Zone, p: nat, q: nat)
    requires Shape(z) && BlocksSolid(z) && IsHead(z, p) && IsHead(z, q) && p != q
    ensures !Overlap(p, z.pages[p].order, q, z.pages[q].order)
  {
  }

  lemma LiveIff(z: Zone, p: nat, k: nat)
    ensures Block(p, k) in LiveBlocks(z) <==> IsLive(z, p) && z.pages[p].order == k
  {
  }

  lemma FreeIff(z: Zone, p: nat, k: nat)
    ensures Block(p, k) in FreeBlocks(z) <==> IsFree(z, p, k)
  {
  }

  // ----- list facts

  lemma {:induction false} RemoveIsDeletion(s: seq<nat>, x: nat)
    requires forall a: nat, b: nat :: a < b < |s| ==> s[a] != s[b]
    ensures forall y :: y in Remove(s, x) <==> y in s && y != x
    ensures forall a: nat, b: nat :: a < b < |Remove(s, x)| ==> Remove(s, x)[a] != Remove(s, x)[b]
  {
    if s != [] && s[0] != x {
      var t := s[1..];
      assert forall a: nat, b: nat :: a < b < |t| ==> t[a] == s[a + 1] && t[b] == s[b + 1];
      RemoveIsDeletion(t, x);
      assert forall y :: y in s <==> y == s[0] || y in t;
      assert s[0] !in t;
      forall a: nat, b: nat | a < b < |Remove(s, x)|
        ensures Remove(s, x)[a] != Remove(s, x)[b]
      {
        assert Remove(s, x)[b] == Remove(t, x)[b - 1] && Remove(s, x)[b] in Remove(t, x);
        if a > 0 {
          assert Remove(s, x)[a] == Remove(t, x)[a - 1];
        }
      }
    } else if s != [] {
      assert forall y :: y in s[1..] <==> y in s && y != x;
    }
  }

  // ----- splitting

  /** `r` is `z` with the block of order `m + 1` at `pos` cut in two, the upper half being free. */
  ghost predicate Halved(z: Zone, r: Zone, pos: nat, m: nat) {
    Shape(z) && Shape(r) && r.maxOrder == z.maxOrder && m < z.maxOrder && pos + Pow2(m + 1) <= |z.pages| &&
    IsHead(z, pos) && z.pages[pos].order == m + 1 && Aligned(pos, m + 1) &&
    r.pages == z.pages[pos := z.pages[pos].(order := m)][pos + Pow2(m) := Page(m, 0)] &&
    (forall k: nat :: k < |z.areas| && k != m ==> r.areas[k] == z.areas[k]) &&
    r.areas[m] == z.areas[m] + [pos + Pow2(m)]
  }

  lemma HalvedHeads(z: Zone, r: Zone, pos: nat, m: nat)
    requires Halved(z, r, pos, m)
    ensures forall p: nat :: IsHead(r, p) <==> IsHead(z, p) || p == pos + Pow2(m)
    ensures forall p: nat :: IsHead(r, p) && p != pos && p != pos + Pow2(m) ==> r.pages[p] == z.pages[p]
  {
  }

  lemma HalvedFree(z: Zone, r: Zone, pos: nat, m: nat)
    requires Halved(z, r, pos, m)
    ensures forall q: nat, k: nat :: IsFree(r, q, k) <==> IsFree(z, q, k) || (q == pos + Pow2(m) && k == m)
  {
  }

  lemma HalvedBlocks(z: Zone, r: Zone, pos: nat, m: nat)
    requires Halved(z, r, pos, m) && BlocksFit(z) && BlocksChain(z) && BlocksSolid(z)
    ensures BlocksFit(r) && BlocksChain(r)
  {
    HalvedHeads(z, r, pos, m);
    UpperHalfAligned(pos, m);
    CoarserAligned(pos, m, m + 1);
    var h := pos + Pow2(m);
    forall p: nat | IsHead(r, p) && p + Pow2(r.pages[p].order) < |r.pages|
      ensures IsHead(r, p + Pow2(r.pages[p].order))
    {
      if p == h {
        assert p + Pow2(m) == pos + Pow2(m + 1);
      } else if p != pos {
        assert IsHead(z, p + Pow2(z.pages[p].order));
      }
    }
  }

  lemma HalvedSolid(z: Zone, r: Zone, pos: nat, m: nat)
    requires Halved(z, r, pos, m) && BlocksSolid(z)
    ensures BlocksSolid(r)
  {
    HalvedHeads(z, r, pos, m);
    var h := pos + Pow2(m);
    forall p: nat, q: nat | IsHead(r, p) && p < q < p + Pow2(r.pages[p].order)
      ensures !IsHead(r, q)
    {
      if p == h || p == pos {
        assert pos < q < pos + Pow2(m + 1);
      } else {
        assert !IsHead(z, q);
        if q == h {
          // the block at p would cut into the block at pos
          BlocksDisjoint(z, p, pos);
        }
      }
    }
  }

  lemma HalvedLists(z: Zone, r: Zone, pos: nat, m: nat)
    requires Halved(z, r, pos, m) && BlocksSolid(z) && ListsFaithful(z) && !IsFree(z, pos, m + 1)
    ensures ListsFaithful(r)
  {
    HalvedFree(z, r, pos, m);
    var h := pos + Pow2(m);
    assert !IsHead(z, h);
    assert !IsFree(z, h, m);
    forall k: nat, a: nat, b: nat | k < |r.areas| && a < b < |r.areas[k]|
      ensures r.areas[k][a] != r.areas[k][b]
    {
      if k == m && b == |z.areas[k]| {
        assert IsFree(z, r.areas[k][a], k);
      }
    }
    forall k: nat, p: nat | IsFree(r, p, k)
      ensures p < |r.pages| && r.pages[p].order == k
    {
      if !(p == h && k == m) {
        assert IsFree(z, p, k) && p != h && p != pos;
      }
    }
  }

  lemma HalvedBuddies(z: Zone, r: Zone, pos: nat, m: nat)
    requires Halved(z, r, pos, m) && BlocksFit(z) && BlocksSolid(z) && ListsFaithful(z) && NoFreeBuddies(z)
    requires !IsFree(z, pos, m + 1)
    ensures NoFreeBuddies(r)
  {
    HalvedFree(z, r, pos, m);
    UpperHalfAligned(pos, m);
    var h := pos + Pow2(m);
    forall k: nat, p: nat | k < r.maxOrder && IsFree(r, p, k)
      ensures !IsFree(r, Flip(p, k), k)
    {
      if p == h && k == m {
        assert Flip(p, k) == pos && !IsFree(z, pos, m);
      } else {
        assert IsFree(z, p, k) && IsHead(z, p);
        if Flip(p, k) == h && k == m {
          // the buddy of h is pos, which is not free
          BuddyIsOtherHalf(p, m);
        }
      }
    }
  }

  lemma HalvedCounts(z: Zone, r: Zone, pos: nat, m: nat)
    requires Halved(z, r, pos, m) && BlocksSolid(z) && ListsFaithful(z) && CountsFaithful(z, pos)
    ensures CountsFaithful(r, pos)
    ensures forall p: nat ::
      p != pos ==> (IsLive(r, p) <==> IsLive(z, p)) && (IsLive(z, p) ==> r.pages[p] == z.pages[p])
    ensures IsLive(r, pos)
  {
    HalvedHeads(z, r, pos, m);
    HalvedFree(z, r, pos, m);
    assert !IsHead(z, pos + Pow2(m));
  }

  /** One halving of a block under construction: the upper half goes on the list of its order. */
  lemma HalveKeeps(z: Zone, pos: nat, m: nat)
    requires Inv(z, pos) && IsLive(z, pos) && z.pages[pos].order == m + 1
    ensures m < z.maxOrder && pos + Pow2(m + 1) <= |z.pages|
    ensures var r := PutHalf(SetPage(z, pos, z.pages[pos].(order := m)), pos, m);
      Inv(r, pos) && IsLive(r, pos) && r.pages[pos] == z.pages[pos].(order := m) &&
      (forall p: nat :: p != pos ==> (IsLive(r, p) <==> IsLive(z, p)) && (IsLive(z, p) ==> r.pages[p] == z.pages[p]))
  {
    var r := PutHalf(SetPage(z, pos, z.pages[pos].(order := m)), pos, m);
    assert Halved(z, r, pos, m);
    HalvedBlocks(z, r, pos, m);
    HalvedSolid(z, r, pos, m);
    HalvedLists(z, r, pos, m);
    HalvedCounts(z, r, pos, m);
    HalvedBuddies(z, r, pos, m);
  }

  /** Splitting commutes with hanging one smaller half, and with rewriting the first page. */
  lemma {:induction false} SplitCommutes(z: Zone, pos: nat, k: nat, i: nat)
    requires k < i < |z.areas| && pos + Pow2(i) <= |z.pages|
    ensures pos + Pow2(k) < |z.pages|
    ensures Split(z, pos, k, i) == PutHalf(Split(z, pos, k + 1, i), pos, k)
    decreases i
  {
    Pow2Less(k, i);
    if k + 1 < i {
      Pow2Less(i - 1, i);
      SplitCommutes(z, pos, k, i - 1);
      Pow2Less(k, i - 1);
      var c := Split(z, pos, k + 1, i - 1);
      assert PutHalf(PutHalf(c, pos, k), pos, i - 1) == PutHalf(PutHalf(c, pos, i - 1), pos, k);
    }
  }

  lemma {:induction false} SplitSetPage(z: Zone, pos: nat, k: nat, i: nat, g: Page)
    requires k <= i < |z.areas| && pos + Pow2(i) <= |z.pages|
    ensures Split(SetPage(z, pos, g), pos, k, i) == SetPage(Split(z, pos, k, i), pos, g)
    ensures Split(z, pos, k, i).pages[pos] == z.pages[pos]
    decreases i
  {
    if k < i {
      Pow2Less(i - 1, i);
      SplitSetPage(z, pos, k, i - 1, g);
    }
  }

  /** The whole split loop: the block of order `i` at `pos` shrinks to order `k`, all other live blocks stay. */
  lemma {:induction false} SplitKeeps(z: Zone, pos: nat, k: nat, i: nat)
    requires Inv(z, pos) && IsLive(z, pos) && z.pages[pos].order == i && k <= i
    ensures pos + Pow2(i) <= |z.pages| && i < |z.areas|
    ensures var r := Split(SetPage(z, pos, z.pages[pos].(order := k)), pos, k, i);
      Inv(r, pos) && IsLive(r, pos) && r.pages[pos] == z.pages[pos].(order := k) &&
      (forall p: nat :: p != pos ==> (IsLive(r, p) <==> IsLive(z, p)) && (IsLive(z, p) ==> r.pages[p] == z.pages[p]))
    decreases i - k
  {
    if k == i {
      assert SetPage(z, pos, z.pages[pos].(order := k)) == z;
    } else {
      SplitKeeps(z, pos, k + 1, i);
      var g1 := z.pages[pos].(order := k + 1);
      var g0 := z.pages[pos].(order := k);
      var a := Split(SetPage(z, pos, g1), pos, k + 1, i);
      HalveKeeps(a, pos, k);
      SplitCommutes(SetPage(z, pos, g0), pos, k, i);
      SplitSetPage(z, pos, k + 1, i, g1);
      SplitSetPage(z, pos, k + 1, i, g0);
      assert SetPage(a, pos, g0) == Split(SetPage(z, pos, g0), pos, k + 1, i);
    }
  }

  /** Taking the first block off list `i` makes it live. */
  lemma UnlinkKeeps(z: Zone, i: nat)
    requires Valid(z) && i < |z.areas| && z.areas[i] != []
    ensures var pos := z.areas[i][0]; var r := Unlink(z, i);
      Inv(r, pos) && IsLive(r, pos) && !IsLive(z, pos) && r.pages[pos].order == i &&
      (forall p: nat :: p != pos ==> (IsLive(r, p) <==> IsLive(z, p)))
  {
    var pos := z.areas[i][0];
    var r := Unlink(z, i);
    assert IsFree(z, pos, i);
    assert forall y :: y in z.areas[i] <==> y == pos || y in r.areas[i];
    assert pos !in r.areas[i];
    assert forall q: nat, k: nat :: IsFree(r, q, k) <==> IsFree(z, q, k) && !(q == pos && k == i);
    assert forall p: nat :: IsHead(r, p) <==> IsHead(z, p);
    assert ListsFaithful(r) by {
      forall k: nat, a: nat, b: nat | k < |r.areas| && a < b < |r.areas[k]|
        ensures r.areas[k][a] != r.areas[k][b]
      {
        if k == i {
          assert r.areas[k][a] == z.areas[k][a + 1] && r.areas[k][b] == z.areas[k][b + 1];
        }
      }
    }
  }

  // ----- coalescing

  /** `r` is `z` with the runs of order `i` at `q` and `q + 2^i` joined into one block that is on no list. */
  ghost predicate Merged(z: Zone, r: Zone, q: nat, i: nat) {
    var u := q + Pow2(i);
    Shape(z) && Shape(r) && r.maxOrder == z.maxOrder && i < z.maxOrder && q + Pow2(i + 1) <= |z.pages| &&
    Aligned(q, i + 1) && z.pages[q].order == i && z.pages[u].order == i &&
    r.pages[q].order == i + 1 && r.pages[q].count <= 1 && r.pages[u] == Page(-1, 0) &&
    (forall p: nat :: p < |z.pages| && p != q && p != u ==> r.pages[p] == z.pages[p]) &&
    (forall k: nat, p: nat :: IsFree(r, p, k) <==> IsFree(z, p, k) && p != q && p != u)
  }

  lemma MergedBlocks(z: Zone, r: Zone, q: nat, i: nat)
    requires Merged(z, r, q, i) && BlocksFit(z) && BlocksChain(z) && BlocksSolid(z)
    ensures BlocksFit(r) && BlocksChain(r) && BlocksSolid(r)
  {
    var u := q + Pow2(i);
    assert forall p: nat :: IsHead(r, p) <==> IsHead(z, p) && p != u;
    assert IsHead(z, q) && IsHead(z, u);
    MergedChain(z, r, q, i);
    forall p: nat, x: nat | IsHead(r, p) && p < x < p + Pow2(r.pages[p].order)
      ensures !IsHead(r, x)
    {
      if p == q && x > u {
        assert u < x < u + Pow2(i);
      }
    }
  }

  lemma MergedChain(z: Zone, r: Zone, q: nat, i: nat)
    requires Merged(z, r, q, i) && BlocksFit(z) && BlocksChain(z) && BlocksSolid(z)
    ensures BlocksChain(r)
  {
    var u := q + Pow2(i);
    forall p: nat | IsHead(r, p) && p + Pow2(r.pages[p].order) < |r.pages|
      ensures IsHead(r, p + Pow2(r.pages[p].order))
    {
      assert IsHead(z, p) && IsHead(z, q) && IsHead(z, u) && p != u;
      var x := p + Pow2(r.pages[p].order);
      if p == q {
        assert x == u + Pow2(z.pages[u].order) && x != u;
      } else {
        assert r.pages[p] == z.pages[p];
        // a block other than q does not end where the upper half starts
        BlocksDisjoint(z, p, q);
        assert x != u;
      }
      assert IsHead(z, x);
      assert x != q ==> r.pages[x] == z.pages[x];
    }
  }

  lemma MergedRest(z: Zone, r: Zone, q: nat, i: nat, p: nat)
    requires Merged(z, r, q, i) && ListsFaithful(z) && NoFreeBuddies(z) && CountsFaithful(z, p)
    requires p == q || p == q + Pow2(i)
    requires forall k: nat, a: nat, b: nat :: k < |r.areas| && a < b < |r.areas[k]| ==> r.areas[k][a] != r.areas[k][b]
    ensures ListsFaithful(r) && NoFreeBuddies(r) && CountsFaithful(r, q) && IsLive(r, q)
    ensures forall x: nat :: x != q && x != q + Pow2(i) ==>
              (IsLive(r, x) <==> IsLive(z, x)) && (IsLive(z, x) ==> r.pages[x] == z.pages[x])
    ensures !IsLive(r, q + Pow2(i))
  {
    var u := q + Pow2(i);
    assert forall x: nat :: IsHead(r, x) <==> IsHead(z, x) && x != u;
    assert forall k: nat, x: nat :: IsFree(r, x, k) ==> IsFree(z, x, k);
    forall x: nat | x < |r.pages| && x != q && x != u
      ensures IsHead(r, x) ==> (IsFree(r, x, r.pages[x].order) <==> IsFree(z, x, z.pages[x].order))
    {
    }
  }

  /** The last step: a block on no list, whose buddy is not free, goes on the list of its order. */
  lemma HangKeeps(z: Zone, p: nat, i: nat, g: Page)
    requires Inv(z, p) && IsLive(z, p) && z.pages[p].order == i
    requires i < z.maxOrder ==> !IsFree(z, Flip(p, i), i)
    requires g.order == i && g.count <= 1 && (i < z.maxOrder ==> g.count == 0)
    ensures i <= z.maxOrder && Valid(Hang(z, p, i, g)) && OnlyDropped(z, Hang(z, p, i, g), p)
  {
    var r := Hang(z, p, i, g);
    assert forall x: nat :: IsHead(r, x) <==> IsHead(z, x);
    assert forall q: nat, k: nat :: IsFree(r, q, k) <==> IsFree(z, q, k) || (q == p && k == i);
    HangBlocks(z, r, p, i);
    assert ListsFaithful(r) by {
      forall k: nat, a: nat, b: nat | k < |r.areas| && a < b < |r.areas[k]|
        ensures r.areas[k][a] != r.areas[k][b]
      {
        if k == i && b == |z.areas[k]| {
          assert IsFree(z, r.areas[k][a], k);
        }
      }
    }
    assert NoFreeBuddies(r) by {
      forall k: nat, x: nat | k < r.maxOrder && IsFree(r, x, k)
        ensures !IsFree(r, Flip(x, k), k)
      {
        if k == i && x != p && Flip(x, k) == p {
          assert IsHead(z, x) && IsFree(z, x, k);
          FlipTwice(x, k);
        }
        if k == i && x == p {
          FlipInRange(p, i, z.maxOrder);
        }
      }
    }
    assert CountsFaithful(r, -1);
  }

  lemma HangBlocks(z: Zone, r: Zone, p: nat, i: nat)
    requires Shape(z) && Shape(r) && r.maxOrder == z.maxOrder && IsHead(z, p) && z.pages[p].order == i
    requires r.pages[p].order == i && forall x: nat :: x < |z.pages| && x != p ==> r.pages[x] == z.pages[x]
    requires BlocksFit(z) && BlocksChain(z) && BlocksSolid(z)
    ensures BlocksFit(r) && BlocksChain(r) && BlocksSolid(r)
  {
    assert forall x: nat :: IsHead(r, x) <==> IsHead(z, x);
    assert forall x: nat :: IsHead(r, x) ==> r.pages[x].order == z.pages[x].order;
  }

  lemma {:induction false} FlipTwice(x: nat, i: nat)
    ensures Flip(Flip(x, i), i) == x
  {
    if i > 0 {
      FlipTwice(x / 2, i - 1);
      var y := Flip(x / 2, i - 1);
      assert (2 * y + x % 2) / 2 == y && (2 * y + x % 2) % 2 == x % 2;
    }
  }

  /** One joining step of the loop. */
  lemma JoinKeeps(z: Zone, p: nat, i: nat)
    requires Inv(z, p) && IsLive(z, p) && z.pages[p].order == i && i < z.maxOrder
    requires Flip(p, i) < |z.pages| && IsFree(z, Flip(p, i), i)
    ensures var b := Flip(p, i); var r := Join(z, p, b, i); var q := Lower(p, b);
      Inv(r, q) && IsLive(r, q) && r.pages[q].order == i + 1 && (q != p ==> !IsLive(z, q) && !IsLive(r, p)) &&
      (forall x: nat :: x != p && x != q ==>
        (IsLive(r, x) <==> IsLive(z, x)) && (IsLive(z, x) ==> r.pages[x] == z.pages[x]))
  {
    var b := Flip(p, i);
    var q := Lower(p, b);
    var r := Join(z, p, b, i);
    BuddyIsOtherHalf(p, i);
    assert z.pages[b].order == i;
    RemoveIsDeletion(z.areas[i], b);
    JoinIsMerge(z, p, b, i);
    MergedBlocks(z, r, q, i);
    MergedRest(z, r, q, i, p);
  }

  lemma JoinIsMerge(z: Zone, p: nat, b: nat, i: nat)
    requires Shape(z) && ListsFaithful(z) && IsLive(z, p) && z.pages[p].order == i && i < z.maxOrder
    requires b < |z.pages| && IsFree(z, b, i)
    requires var q := Lower(p, b); q + Pow2(i + 1) <= |z.pages| && Aligned(q, i + 1)
    requires p == b + Pow2(i) || b == p + Pow2(i)
    ensures Merged(z, Join(z, p, b, i), Lower(p, b), i)
  {
    var r := Join(z, p, b, i);
    RemoveIsDeletion(z.areas[i], b);
    forall k: nat, x: nat
      ensures IsFree(r, x, k) <==> IsFree(z, x, k) && x != p && x != b
    {
      if k == i {
        assert r.areas[k] == Remove(z.areas[k], b);
        assert x in Remove(z.areas[k], b) <==> x in z.areas[k] && x != b;
        assert !IsFree(z, p, k);
      } else if k < |z.areas| {
        assert r.areas[k] == z.areas[k];
        assert IsFree(z, x, k) ==> z.pages[x].order == k;
      }
    }
  }

  /** Exactly the block at `p` stops being live between `z` and `r`. */
  ghost predicate OnlyDropped(z: Zone, r: Zone, p: nat) {
    r.maxOrder == z.maxOrder && IsLive(z, p) && !IsLive(r, p) &&
    forall x: nat :: x != p ==> (IsLive(r, x) <==> IsLive(z, x)) && (IsLive(z, x) ==> r.pages[x] == z.pages[x])
  }

  lemma DroppedAfterJoin(z: Zone, y: Zone, r: Zone, p: nat, q: nat)
    requires IsLive(z, p) && y.maxOrder == z.maxOrder && OnlyDropped(y, r, q)
    requires (q != p ==> !IsLive(z, q) && !IsLive(y, p))
    requires forall x: nat ::
      x != p && x != q ==> (IsLive(y, x) <==> IsLive(z, x)) && (IsLive(z, x) ==> y.pages[x] == z.pages[x])
    ensures OnlyDropped(z, r, p)
  {
  }

  /** The whole loop: afterwards the zone is valid and exactly the given block is no longer live. */
  lemma {:induction false} CoalesceKeeps(z: Zone, p: nat, i: nat)
    requires Inv(z, p) && IsLive(z, p) && z.pages[p].order == i
    ensures i <= z.maxOrder && Valid(Coalesce(z, p, i)) && OnlyDropped(z, Coalesce(z, p, i), p)
    decreases z.maxOrder - i
  {
    if i == z.maxOrder {
      WholeRunStartsAtZero(p, i);
      HangKeeps(z, p, i, z.pages[p]);
    } else {
      FlipInRange(p, i, z.maxOrder);
      var b := Flip(p, i);
      if z.pages[b] == Page(i, 0) {
        assert IsFree(z, b, i);
        JoinKeeps(z, p, i);
        CoalesceKeeps(Join(z, p, b, i), Lower(p, b), i + 1);
        DroppedAfterJoin(z, Join(z, p, b, i), Coalesce(z, p, i), p, Lower(p, b));
      } else {
        assert !IsFree(z, b, i);
        HangKeeps(z, p, i, z.pages[p].(count := 0));
      }
    }
  }
}
