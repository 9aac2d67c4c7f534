/** Triangular probing over a power-of-two table: the probe visits every slot exactly once. */
module Probing {
  import opened Arithmetic
  import opened Common

  function Pow2(k: nat): (n: nat)
    ensures n >= 1
  {
    if k == 0 then 1 else 2 * Pow2(k - 1)
  }

  ghost predicate IsPow2(n: nat) {
    exists k: nat :: n == Pow2(k)
  }

  // ---------------------------------------------------------------- masking

  /** The `&` operator on unsigned integers. */
  function BitAnd(x: nat, y: nat): (r: nat)
    ensures r <= y
  {
    if x == 0 || y == 0 then 0 else 2 * BitAnd(x / 2, y / 2) + (if x % 2 == 1 && y % 2 == 1 then 1 else 0)
  }

  lemma HalfMod(x: nat, n: nat)
    requires n > 0
    ensures x % (2 * n) == 2 * ((x / 2) % n) + x % 2
  {
    var q, r := (x / 2) / n, (x / 2) % n;
    assert x == 2 * (x / 2) + x % 2;
    assert x / 2 == q * n + r;
    assert x == q * (2 * n) + (2 * r + x % 2);
    DivModUnique(x, 2 * n, q, 2 * r + x % 2);
  }

  lemma BitAndHalf(x: nat, n: nat)
    requires x > 0 && n > 0
    ensures BitAnd(x, 2 * n - 1) == 2 * BitAnd(x / 2, n - 1) + x % 2
  {
    var y := 2 * n - 1;
    assert y / 2 == n - 1 && y % 2 == 1;
  }

  lemma DoubleTerm(q: nat, n: nat)
    ensures q * (2 * n) == 2 * (q * n)
  {
  }

  lemma DoubleSum(x: nat, q: nat, n: nat, r: nat)
    requires x / 2 == q * n + r
    ensures x == q * (2 * n) + (2 * r + x % 2)
  {
    DoubleTerm(q, n);
  }

  /** Masking with size - 1 takes whole multiples of the size off. */
  lemma {:induction false} MaskQuotient(x: nat, k: nat) returns (q: nat)
    ensures x == q * Pow2(k) + BitAnd(x, Pow2(k) - 1)
    decreases k, x
  {
    if x == 0 || k == 0 {
      q := x;
    } else {
      var n := Pow2(k - 1);
      q := MaskQuotient(x / 2, k - 1);
      BitAndHalf(x, n);
      DoubleSum(x, q, n, BitAnd(x / 2, n - 1));
    }
  }

  /** So it is reduction modulo the size. */
  lemma MaskIsMod(x: nat, k: nat)
    ensures BitAnd(x, Pow2(k) - 1) == x % Pow2(k)
  {
    var q := MaskQuotient(x, k);
    DivModUnique(x, Pow2(k), q, BitAnd(x, Pow2(k) - 1));
  }

  /** One advance of the probe, as the program computes it. */
  function Mask(x: nat, n: nat): (r: nat)
    requires n > 0
    ensures r < n
  {
    BitAnd(x, n - 1)
  }

  lemma MaskMod(x: nat, n: nat)
    requires IsPow2(n)
    ensures n > 0 && Mask(x, n) == x % n
  {
    var k: nat :| n == Pow2(k);
    MaskIsMod(x, k);
  }

  // ---------------------------------------------------------------- the probe sequence

  function Tri(i: nat): nat {
    if i == 0 then 0 else Tri(i - 1) + i
  }

  /** The slot probed after `i` advances from hash `h`. */
  function Slot(h: nat, i: nat, n: nat): (r: nat)
    requires n > 0
    ensures r < n
  {
    Mask(h + Tri(i), n)
  }

  lemma SlotMod(h: nat, i: nat, n: nat)
    requires IsPow2(n)
    ensures n > 0 && Slot(h, i, n) == (h + Tri(i)) % n
  {
    MaskMod(h + Tri(i), n);
  }

  lemma SlotStart(h: nat, n: nat)
    requires IsPow2(n)
    ensures n > 0 && Mask(h, n) == Slot(h, 0, n)
  {
    MaskMod(h, n);
  }

  lemma MaskUnique(x: nat, n: nat, q: nat, r: nat)
    requires IsPow2(n) && x == q * n + r && r < n
    ensures Mask(x, n) == r
  {
    DivModUnique(x, n, q, r);
    MaskMod(x, n);
  }

  lemma MaskWhole(x: nat, n: nat) returns (q: nat)
    requires IsPow2(n)
    ensures n > 0 && x == q * n + Mask(x, n)
  {
    var k: nat :| n == Pow2(k);
    q := MaskQuotient(x, k);
  }

  lemma SumTerms(q: nat, p: nat, n: nat)
    ensures (q + p) * n == q * n + p * n
  {
  }

  lemma MaskAdd(x: nat, y: nat, n: nat)
    requires IsPow2(n)
    ensures n > 0 && Mask(Mask(x, n) + y, n) == Mask(x + y, n)
  {
    var q := MaskWhole(x, n);
    var p := MaskWhole(Mask(x, n) + y, n);
    SumTerms(q, p, n);
    MaskUnique(x + y, n, q + p, Mask(Mask(x, n) + y, n));
  }

  /** `idx = (idx + step) & mask` moves the probe from one slot of the sequence to the next. */
  lemma SlotNext(h: nat, i: nat, n: nat)
    requires IsPow2(n)
    ensures n > 0 && Mask(Slot(h, i, n) + (i + 1), n) == Slot(h, i + 1, n)
  {
    MaskAdd(h + Tri(i), i + 1, n);
    assert h + Tri(i + 1) == h + Tri(i) + (i + 1);
  }

  // ---------------------------------------------------------------- it is a permutation

  lemma {:induction false} TriDouble(i: nat)
    ensures 2 * Tri(i) == i * (i + 1)
  {
    if i > 0 {
      TriDouble(i - 1);
    }
  }

  lemma OddOdd(x: nat, y: nat)
    requires x % 2 == 1 && y % 2 == 1
    ensures (x * y) % 2 == 1
  {
    var a, b := x / 2, y / 2;
    assert x * y == 2 * (2 * a * b + a + b) + 1;
  }

  /** An odd factor contributes nothing to divisibility by a power of two. */
  lemma {:induction false} OddFactor(m: nat, x: nat, y: nat, q: nat)
    requires x * y == q * Pow2(m) && y % 2 == 1
    ensures x % Pow2(m) == 0
  {
    if m > 0 {
      assert x * y == 2 * (q * Pow2(m - 1));
      if x % 2 == 1 {
        OddOdd(x, y);
      }
      var x' := x / 2;
      assert x == 2 * x';
      assert 2 * (x' * y) == x * y;
      OddFactor(m - 1, x', y, q);
      HalfMod(x, Pow2(m - 1));
    }
  }

  lemma {:induction false} TriMonotone(i: nat, j: nat)
    requires i <= j
    ensures Tri(i) <= Tri(j)
  {
    if i < j {
      TriMonotone(i, j - 1);
    }
  }

  lemma SameModDivides(x: nat, y: nat, n: nat) returns (q: nat)
    requires n > 0 && x <= y && x % n == y % n
    ensures y - x == q * n
  {
    var d := y / n - x / n;
    assert d * n == (y / n) * n - (x / n) * n;
    if d <= -1 {
      MulGe(-d, n);
    }
    q := d;
  }

  /** Two steps that probe the same slot are a multiple of the size apart. */
  lemma Collision(h: nat, n: nat, i: nat, j: nat) returns (q: nat)
    requires IsPow2(n) && i < j && Slot(h, i, n) == Slot(h, j, n)
    ensures Tri(j) - Tri(i) == q * n
  {
    TriMonotone(i, j);
    SlotMod(h, i, n);
    SlotMod(h, j, n);
    q := SameModDivides(h + Tri(i), h + Tri(j), n);
  }

  lemma GapProduct(i: nat, j: nat)
    requires i < j
    ensures (j - i) * (j + i + 1) == 2 * (Tri(j) - Tri(i))
  {
    TriDouble(i);
    TriDouble(j);
    assert (j - i) * (j + i + 1) == j * (j + 1) - i * (i + 1);
  }

  lemma Indivisible(x: nat, n: nat)
    requires 0 < x < n
    ensures x % n != 0
  {
  }

  lemma Commute(x: nat, y: nat)
    ensures x * y == y * x
  {
  }

  lemma OddCase(m: nat, x: nat, y: nat, q: nat)
    requires 0 < x < Pow2(m) && y % 2 == 1
    ensures x * y != q * Pow2(m)
  {
    Indivisible(x, Pow2(m));
    if x * y == q * Pow2(m) {
      OddFactor(m, x, y, q);
    }
  }

  /** No power of two above both factors divides their product when exactly one of them is odd. */
  lemma NoSharedPower(m: nat, x: nat, y: nat, q: nat)
    requires 0 < x < Pow2(m) && 0 < y < Pow2(m) && (x + y) % 2 == 1
    ensures x * y != q * Pow2(m)
  {
    if y % 2 == 1 {
      OddCase(m, x, y, q);
    } else {
      Commute(x, y);
      OddCase(m, y, x, q);
    }
  }

  lemma NoHalfMultiple(k: nat, x: nat, y: nat, q: nat, gap: nat)
    requires 0 < x < 2 * Pow2(k) && 0 < y < 2 * Pow2(k) && (x + y) % 2 == 1 && x * y == 2 * gap
    ensures gap != q * Pow2(k)
  {
    NoSharedPower(k + 1, x, y, q);
    DoubleTerm(q, Pow2(k));
  }

  lemma OddSum(i: nat, j: nat)
    requires i < j
    ensures ((j - i) + (j + i + 1)) % 2 == 1
  {
  }

  /** The gap of two triangular numbers below a power of two is no multiple of it. */
  lemma NoCollision(k: nat, i: nat, j: nat, q: nat)
    requires i < j < Pow2(k)
    ensures Tri(j) - Tri(i) != q * Pow2(k)
  {
    GapProduct(i, j);
    OddSum(i, j);
    TriMonotone(i, j);
    NoHalfMultiple(k, j - i, j + i + 1, q, Tri(j) - Tri(i));
  }

  /** Two different steps never probe the same slot. */
  lemma ProbeInjective(h: nat, n: nat, i: nat, j: nat)
    requires IsPow2(n) && i < j < n
    ensures Slot(h, i, n) != Slot(h, j, n)
  {
    var k: nat :| n == Pow2(k);
    if Slot(h, i, n) == Slot(h, j, n) {
      var q := Collision(h, n, i, j);
      NoCollision(k, i, j, q);
    }
  }

  /** The slots probed by the first `m` steps. */
  ghost function Visited(h: nat, n: nat, m: nat): set<nat>
    requires n > 0
  {
    if m == 0 then {} else Visited(h, n, m - 1) + {Slot(h, m - 1, n)}
  }

  lemma {:induction false} VisitedBy(h: nat, n: nat, m: nat, slot: nat) returns (i: nat)
    requires n > 0 && slot in Visited(h, n, m)
    ensures i < m && Slot(h, i, n) == slot
  {
    if slot == Slot(h, m - 1, n) {
      i := m - 1;
    } else {
      i := VisitedBy(h, n, m - 1, slot);
    }
  }

  lemma {:induction false} VisitedCard(h: nat, n: nat, m: nat)
    requires IsPow2(n) && 0 < n && m <= n
    ensures |Visited(h, n, m)| == m
  {
    if m > 0 {
      VisitedCard(h, n, m - 1);
      if Slot(h, m - 1, n) in Visited(h, n, m - 1) {
        var i := VisitedBy(h, n, m - 1, Slot(h, m - 1, n));
        ProbeInjective(h, n, i, m - 1);
      }
    }
  }

  ghost function Range(n: nat): set<nat> {
    if n == 0 then {} else Range(n - 1) + {n - 1}
  }

  lemma {:induction false} RangeCard(n: nat)
    ensures |Range(n)| == n && forall i: nat :: i in Range(n) <==> i < n
  {
    if n > 0 {
      RangeCard(n - 1);
    }
  }

  lemma {:induction false} InRange(h: nat, n: nat, m: nat)
    requires n > 0
    ensures Visited(h, n, m) <= Range(n)
  {
    RangeCard(n);
    if m > 0 {
      InRange(h, n, m - 1);
    }
  }

  /** A full probe sees the whole table. */
  lemma ProbeSurjective(h: nat, n: nat, slot: nat)
    requires IsPow2(n) && slot < n
    ensures exists i :: 0 <= i < n && Slot(h, i, n) == slot
  {
    VisitedCard(h, n, n);
    RangeCard(n);
    InRange(h, n, n);
    if slot in Visited(h, n, n) {
      var i := VisitedBy(h, n, n, slot);
    } else {
      SubsetCard(Visited(h, n, n), Range(n) - {slot});
    }
  }

  /** The one step at which the probe from `h` visits `slot`. */
  ghost function StepTo(h: nat, n: nat, slot: nat): (i: nat)
    requires IsPow2(n) && slot < n
    ensures i < n && Slot(h, i, n) == slot
  {
    ProbeSurjective(h, n, slot);
    var i :| 0 <= i < n && Slot(h, i, n) == slot;
    i
  }

  lemma StepToSlot(h: nat, n: nat, i: nat)
    requires IsPow2(n) && i < n
    ensures StepTo(h, n, Slot(h, i, n)) == i
  {
    var j := StepTo(h, n, Slot(h, i, n));
    if i < j {
      ProbeInjective(h, n, i, j);
    } else if j < i {
      ProbeInjective(h, n, j, i);
    }
  }
}
