/** 32-bit counters of the send ring (C `uint32_t` arithmetic) beside the unbounded
    counts they stand for. */
module Counters {
  const TWO32 := 0x1_0000_0000
  const TWO31 := 0x8000_0000

  type uint32 = x: int | 0 <= x < 0x1_0000_0000

  /** Truncation of a mathematical integer to `uint32_t`. */
  function Wrap(x: int): uint32 {
    x % TWO32
  }

  /** The cast `(int32_t)x`. */
  function Signed(x: uint32): int {
    if x < TWO31 then x else x - TWO32
  }

  /** `a - b` on `uint32_t`. */
  function Minus(a: uint32, b: uint32): uint32 {
    Wrap(a - b)
  }

  /** The send-buffer slot the code computes as `tx_prod % send_depth`, for the n-th request. */
  function Slot(n: nat, depth: nat): nat
    requires depth > 0
  {
    Wrap(n) % depth
  }

  /** `tx_prod % send_depth` moves on by one slot at every step up to request number n. */
  ghost predicate Continuous(n: nat, depth: nat)
    requires depth > 0
  {
    TWO32 % depth == 0 || n <= TWO32
  }

  lemma ContinuousBelow(m: nat, n: nat, depth: nat)
    requires depth > 0 && m <= n && Continuous(n, depth)
    ensures Continuous(m, depth)
  {
  }

  /** The comparison `(int32_t)(a - b)` on wrapped counters gives the true distance. */
  lemma SignedDifference(a: nat, b: nat)
    requires -TWO31 <= a - b < TWO31
    ensures Signed(Minus(Wrap(a), Wrap(b))) == a - b
    ensures a >= b ==> Minus(Wrap(a), Wrap(b)) == a - b
  {
    var qa, qb := a / TWO32, b / TWO32;
    assert a == qa * TWO32 + Wrap(a) && b == qb * TWO32 + Wrap(b);
    var d := Wrap(a) - Wrap(b);
    assert d == (a - b) - (qa - qb) * TWO32;
    assert -TWO32 < d < TWO32;
    assert Minus(Wrap(a), Wrap(b)) == if d < 0 then d + TWO32 else d;
    assert -2 < qa - qb < 2;
  }

  lemma WrapStep(n: nat)
    ensures Wrap(Wrap(n) + 1) == Wrap(n + 1)
  {
  }

  lemma {:induction false} ModShift(d: nat, k: nat, r: nat)
    requires d > 0
    ensures (d * k + r) % d == r % d
  {
    if k > 0 {
      ModShift(d, k - 1, r);
      var x := d * (k - 1) + r;
      assert d * k + r == x + d;
      StepMod(x, d);
    }
  }

  lemma StepMod(x: nat, d: nat)
    requires d > 0
    ensures (x + d) % d == x % d
  {
    var q, r := x / d, x % d;
    assert x == d * q + r;
    assert x + d == d * (q + 1) + r;
    DivModUnique(x + d, d, q + 1, r);
  }

  lemma {:induction false} MulGap(d: nat, p: int, q: int)
    requires p < q
    ensures d * p + d <= d * q
    decreases q - p
  {
    if p + 1 < q {
      MulGap(d, p, q - 1);
    }
    assert d * q == d * (q - 1) + d;
  }

  lemma MulApart(d: nat, p: int, q: int)
    ensures p < q ==> d * p + d <= d * q
    ensures q < p ==> d * q + d <= d * p
  {
    if p < q {
      MulGap(d, p, q);
    } else if q < p {
      MulGap(d, q, p);
    }
  }

  lemma DivModUnique(x: nat, d: nat, q: nat, r: nat)
    requires d > 0 && r < d && x == d * q + r
    ensures x / d == q && x % d == r
  {
    MulApart(d, x / d, q);
  }

  /** While the slot sequence is continuous the wrapped counter picks the true slot. */
  lemma SlotIsTrueSlot(n: nat, depth: nat)
    requires depth > 0
    requires TWO32 % depth == 0 || n < TWO32
    ensures Slot(n, depth) == n % depth
  {
    if n >= TWO32 {
      var k, c := n / TWO32, TWO32 / depth;
      assert TWO32 == depth * c;
      assert n == TWO32 * k + Wrap(n);
      assert n == depth * (c * k) + Wrap(n) by {
        assert (depth * c) * k == depth * (c * k);
      }
      ModShift(depth, c * k, Wrap(n));
    }
  }

  lemma NearbyDiffer(m: nat, n: nat, d: nat)
    requires m < n < m + d
    ensures m % d != n % d
  {
    MulApart(d, m / d, n / d);
  }

  /** Two requests less than `depth` apart use different slots. */
  lemma SlotsDistinct(m: nat, n: nat, depth: nat)
    requires m < n < m + depth
    requires Continuous(n + 1, depth)
    ensures Slot(m, depth) != Slot(n, depth)
  {
    SlotIsTrueSlot(m, depth);
    SlotIsTrueSlot(n, depth);
    NearbyDiffer(m, n, depth);
  }

  ghost predicate NeverCollides(depth: nat)
    requires depth > 0
  {
    forall m: nat, n: nat | m < n < m + depth :: Slot(m, depth) != Slot(n, depth)
  }

  /** The ring is safe across the wrap of `tx_prod` exactly for the depths dividing 2^32. */
  lemma WrapSafeIffDepthDivides(depth: nat)
    requires 0 < depth < TWO32
    ensures NeverCollides(depth) <==> TWO32 % depth == 0
  {
    if TWO32 % depth == 0 {
      forall m: nat, n: nat | m < n < m + depth ensures Slot(m, depth) != Slot(n, depth) {
        SlotsDistinct(m, n, depth);
      }
    } else {
      // The last multiple of depth below 2^32 and the first wrapped request share slot 0.
      var r := TWO32 % depth;
      var m: nat := TWO32 - r;
      assert TWO32 == depth * (TWO32 / depth) + r;
      DivModUnique(m, depth, TWO32 / depth, 0);
      assert Slot(m, depth) == 0 == Slot(TWO32, depth);
      assert !NeverCollides(depth);
    }
  }
}
