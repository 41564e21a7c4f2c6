/**
  Arithmetic of power-of-two aligned page runs, as the mailbox page allocator uses it:
  alignment, the `idx ^ (1 << i)` buddy map, and the nesting of aligned runs.
  Everything is defined bit by bit, so that every proof is a linear induction over the order.
 */
module Dyadic {

  function Pow2(k: nat): (r: nat)
    ensures r > 0
  {
    if k == 0 then 1 else 2 * Pow2(k - 1)
  }

  /** The low `k` bits of `x` are zero. */
  predicate Aligned(x: nat, k: nat) {
    k == 0 || (x % 2 == 0 && Aligned(x / 2, k - 1))
  }

  /** `x ^ (1 << i)`, for every `x` and `i`. */
  function Flip(x: nat, i: nat): (r: nat) {
    if i == 0 then (if x % 2 == 0 then x + 1 else x - 1)
    else 2 * Flip(x / 2, i - 1) + x % 2
  }

  /** The runs of `2^j` pages at `s` and of `2^k` pages at `t` share a page. */
  predicate Overlap(s: nat, j: nat, t: nat, k: nat) {
    s < t + Pow2(k) && t < s + Pow2(j)
  }

  lemma {:induction false} Pow2Less(j: nat, k: nat)
    requires j < k
    ensures Pow2(j) < Pow2(k)
    ensures 2 * Pow2(j) <= Pow2(k)
  {
    if j + 1 < k {
      Pow2Less(j, k - 1);
    }
  }

  lemma {:induction false} ZeroAligned(k: nat)
    ensures Aligned(0, k)
  {
    if k > 0 {
      ZeroAligned(k - 1);
    }
  }

  lemma {:induction false} CoarserAligned(x: nat, j: nat, k: nat)
    requires j <= k && Aligned(x, k)
    ensures Aligned(x, j)
  {
    if j > 0 {
      CoarserAligned(x / 2, j - 1, k - 1);
    }
  }

  /** An aligned run below `2^k` pages that has `2^k` pages starts at page 0. */
  lemma {:induction false} WholeRunStartsAtZero(x: nat, k: nat)
    requires Aligned(x, k) && x < Pow2(k)
    ensures x == 0
  {
    if k > 0 {
      WholeRunStartsAtZero(x / 2, k - 1);
    }
  }

  /** The upper half of an aligned run is aligned, but not one order higher. */
  lemma {:induction false} UpperHalfAligned(x: nat, k: nat)
    requires Aligned(x, k + 1)
    ensures Aligned(x + Pow2(k), k) && !Aligned(x + Pow2(k), k + 1)
    ensures Flip(x + Pow2(k), k) == x
  {
    if k == 0 {
      assert (x + 1) % 2 == 1;
    } else {
      UpperHalfAligned(x / 2, k - 1);
      var y := x + Pow2(k);
      assert y / 2 == x / 2 + Pow2(k - 1) && y % 2 == x % 2 == 0;
      assert Flip(y, k) == 2 * Flip(y / 2, k - 1);
    }
  }

  /** The buddy of an aligned run is the other half of the run one order up. */
  lemma {:induction false} BuddyIsOtherHalf(x: nat, k: nat)
    requires Aligned(x, k)
    ensures Aligned(x, k + 1) ==> Flip(x, k) == x + Pow2(k)
    ensures !Aligned(x, k + 1) ==>
              x >= Pow2(k) && Flip(x, k) == x - Pow2(k) && Aligned(x - Pow2(k), k + 1)
  {
    if k == 0 {
      assert Aligned(x, 1) == (x % 2 == 0);
    } else {
      BuddyIsOtherHalf(x / 2, k - 1);
      if !Aligned(x, k + 1) {
        assert (x - Pow2(k)) / 2 == x / 2 - Pow2(k - 1);
      }
    }
  }

  /** Flipping a bit below `n` stays below `2^n`. */
  lemma {:induction false} FlipInRange(x: nat, i: nat, n: nat)
    requires x < Pow2(n) && i < n
    ensures Flip(x, i) < Pow2(n)
    ensures Flip(x, i) != x
  {
    if i > 0 {
      FlipInRange(x / 2, i - 1, n - 1);
    }
  }

  /** Aligned runs never overlap partially: of two that share a page, the larger contains the smaller. */
  lemma {:induction false} Nested(s: nat, j: nat, t: nat, k: nat)
    requires Aligned(s, j) && Aligned(t, k) && j <= k
    requires Overlap(s, j, t, k)
    ensures t <= s && s + Pow2(j) <= t + Pow2(k)
  {
    if j > 0 {
      Nested(s / 2, j - 1, t / 2, k - 1);
    }
  }
}
