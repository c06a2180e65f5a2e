/** Unsigned shifts, masks and bit tests as the C++ sources use them, over natural
    numbers.  Shifts are repeated doubling and halving, so every fact below is linear
    arithmetic; a caller that needs the 64-bit bound states it. */
module Bits {

  const UINT64_LIMIT: nat := 0x1_0000_0000_0000_0000

  /** `a << k` */
  function Shl(a: nat, k: nat): nat {
    if k == 0 then a else 2 * Shl(a, k - 1)
  }

  /** `a >> k` */
  function Shr(a: nat, k: nat): nat {
    if k == 0 then a else Shr(a, k - 1) / 2
  }

  /** `1 << k` */
  function Pow2(k: nat): nat {
    Shl(1, k)
  }

  predicate Bit(a: nat, k: nat) {
    Shr(a, k) % 2 == 1
  }

  /** `a & b` */
  function And(a: nat, b: nat): nat {
    if a == 0 || b == 0 then 0
    else 2 * And(a / 2, b / 2) + (if a % 2 == 1 && b % 2 == 1 then 1 else 0)
  }

  /** `a ^ b` */
  function Xor(a: nat, b: nat): nat
    decreases a + b
  {
    if a == 0 then b
    else if b == 0 then a
    else 2 * Xor(a / 2, b / 2) + (if a % 2 == b % 2 then 0 else 1)
  }

  /** ceil(n / 2^k), written as the repeated "half, rounded up" of a level resize. */
  function CeilShr(n: nat, k: nat): nat {
    if k == 0 then n else (CeilShr(n, k - 1) + 1) / 2
  }

  // ----- shifts -----

  lemma {:induction false} ShlPositive(a: nat, k: nat)
    ensures a > 0 ==> Shl(a, k) > 0
    ensures Shl(0, k) == 0
    ensures a <= Shl(a, k)
  {
    if k > 0 { ShlPositive(a, k - 1); }
  }

  lemma {:induction false} ShlAdd(a: nat, b: nat, k: nat)
    ensures Shl(a + b, k) == Shl(a, k) + Shl(b, k)
  {
    if k > 0 { ShlAdd(a, b, k - 1); }
  }

  lemma ShlMonotone(a: nat, b: nat, k: nat)
    ensures a <= b ==> Shl(a, k) <= Shl(b, k)
    ensures a < b ==> Shl(a, k) < Shl(b, k)
  {
    if a < b {
      ShlAdd(a, b - a, k);
      ShlPositive(b - a, k);
    }
  }

  lemma {:induction false} ShlOuter(a: nat, k: nat)
    ensures Shl(2 * a, k) == 2 * Shl(a, k)
  {
    if k > 0 { ShlOuter(a, k - 1); }
  }

  lemma {:induction false} ShlShl(a: nat, j: nat, k: nat)
    ensures Shl(Shl(a, j), k) == Shl(a, j + k)
  {
    if k > 0 { ShlShl(a, j, k - 1); }
  }

  lemma {:induction false} ShrShr(a: nat, j: nat, k: nat)
    ensures Shr(Shr(a, j), k) == Shr(a, j + k)
  {
    if k > 0 { ShrShr(a, j, k - 1); }
  }

  /** `a >> k` is the floor of the division by 2^k. */
  lemma {:induction false} ShrBounds(a: nat, k: nat)
    ensures Shl(Shr(a, k), k) <= a < Shl(Shr(a, k) + 1, k)
  {
    if k > 0 {
      ShrBounds(a, k - 1);
      var q := Shr(a, k - 1);
      ShlOuter(q / 2, k - 1);
      ShlOuter(q / 2 + 1, k - 1);
      ShlMonotone(2 * (q / 2), q, k - 1);
      ShlMonotone(q + 1, 2 * (q / 2) + 2, k - 1);
      assert 2 * (q / 2 + 1) == 2 * (q / 2) + 2;
    }
  }

  lemma ShrUnique(a: nat, k: nat, q: nat)
    requires Shl(q, k) <= a < Shl(q + 1, k)
    ensures Shr(a, k) == q
  {
    ShrBounds(a, k);
    ShlMonotone(Shr(a, k) + 1, q, k);
    ShlMonotone(q + 1, Shr(a, k), k);
  }

  lemma ShrShl(a: nat, k: nat)
    ensures Shr(Shl(a, k), k) == a
  {
    ShlMonotone(a, a + 1, k);
    ShrUnique(Shl(a, k), k, a);
  }

  /** Adding something below 2^k to a multiple of 2^k leaves the quotient alone. */
  lemma ShrShlPlus(a: nat, r: nat, k: nat)
    requires r < Pow2(k)
    ensures Shr(Shl(a, k) + r, k) == a
  {
    ShlAdd(a, 1, k);
    ShrUnique(Shl(a, k) + r, k, a);
  }

  lemma ShrLess(a: nat, n: nat, k: nat)
    ensures Shr(a, k) < n <==> a < Shl(n, k)
  {
    ShrBounds(a, k);
    ShlMonotone(Shr(a, k) + 1, n, k);
    ShlMonotone(n, Shr(a, k), k);
  }

  lemma ShrZero(a: nat, k: nat)
    ensures Shr(a, k) == 0 <==> a < Pow2(k)
  {
    ShrLess(a, 1, k);
  }

  /** `(a >> k) << k == a` says that `a` is a multiple of 2^k, at every coarser grain too. */
  lemma AlignedLower(a: nat, j: nat, k: nat)
    requires j <= k
    requires Shl(Shr(a, k), k) == a
    ensures Shl(Shr(a, j), j) == a
  {
    var q := Shr(a, k);
    ShlShl(q, k - j, j);
    ShrShl(Shl(q, k - j), j);
  }

  lemma {:induction false} Pow2Monotone(j: nat, k: nat)
    requires j <= k
    ensures Pow2(j) <= Pow2(k)
    ensures j < k ==> 2 * Pow2(j) <= Pow2(k)
  {
    if j < k {
      Pow2Monotone(j, k - 1);
    }
    ShlPositive(1, j);
  }

  lemma Pow2Values()
    ensures Pow2(5) == 32 && Pow2(3) == 8 && Pow2(2) == 4 && Pow2(0) == 1
    ensures Pow2(32) == 0x1_0000_0000
    ensures Pow2(37) == 0x20_0000_0000
    ensures Pow2(64) == UINT64_LIMIT
  {
    ShlShl(1, 4, 4); ShlShl(1, 8, 8); ShlShl(1, 16, 16); ShlShl(1, 32, 32);
    assert Shl(1, 4) == 16;
    assert Shl(16, 4) == 256;
    assert Shl(256, 8) == 65536 by { ShlShl(256, 4, 4); assert Shl(256, 4) == 4096; assert Shl(4096, 4) == 65536; }
    assert Shl(65536, 16) == 0x1_0000_0000 by {
      ShlShl(65536, 8, 8);
      ShlShl(65536, 4, 4);
      assert Shl(65536, 4) == 0x10_0000;
      assert Shl(0x10_0000, 4) == 0x100_0000;
      ShlShl(0x100_0000, 4, 4);
      assert Shl(0x100_0000, 4) == 0x1000_0000;
      assert Shl(0x1000_0000, 4) == 0x1_0000_0000;
    }
    ShlShl(1, 32, 5);
    assert Shl(0x1_0000_0000, 5) == 0x20_0000_0000;
    ShlTimes(0x1_0000_0000, 32);
  }

  lemma {:induction false} ShlTimes(a: nat, k: nat)
    ensures Shl(a, k) == a * Pow2(k)
  {
    if k > 0 { ShlTimes(a, k - 1); }
  }

  // ----- masks -----

  lemma {:induction false} ShrHalf(a: nat, k: nat)
    requires k > 0
    ensures Shr(a, k) == Shr(a / 2, k - 1)
  {
    ShrShr(a, 1, k - 1);
    assert Shr(a, 1) == a / 2;
  }

  lemma {:induction false} Pow2Half(k: nat)
    requires k > 0
    ensures Pow2(k) / 2 == Pow2(k - 1) && Pow2(k) % 2 == 0 && Pow2(k) > 0
  {
    ShlPositive(1, k);
  }

  lemma {:induction false} AndZero(a: nat)
    ensures And(a, 0) == 0
  {
  }

  /** `a & (1 << k)` is nonzero exactly when bit k of `a` is set. */
  lemma {:induction false} MaskTestsBit(a: nat, k: nat)
    ensures And(a, Pow2(k)) != 0 <==> Bit(a, k)
    decreases k
  {
    if k == 0 {
      AndZero(a / 2);
      assert Pow2(0) == 1;
    } else if a == 0 {
      ShrZero(0, k);
      ShlPositive(1, k);
    } else {
      Pow2Half(k);
      MaskTestsBit(a / 2, k - 1);
      ShrHalf(a, k);
    }
  }

  /** `a ^ (1 << k)` flips bit k: the quotient by 2^k moves to its neighbour in the pair,
      and nothing below bit k changes. */
  lemma {:induction false} XorFlipsBit(a: nat, k: nat)
    ensures Xor(a, Pow2(k)) == if Bit(a, k) then a - Pow2(k) else a + Pow2(k)
    ensures Bit(a, k) ==> a >= Pow2(k)
    decreases k
  {
    ShlPositive(1, k);
    if a == 0 {
      ShrZero(0, k);
    } else if k == 0 {
      assert Pow2(0) == 1;
      assert Xor(a / 2, 0) == a / 2;
    } else {
      Pow2Half(k);
      XorFlipsBit(a / 2, k - 1);
      ShrHalf(a, k);
    }
  }

  /** The index, at level k, of the sibling of the node holding address `a`. */
  function Buddy(i: nat): nat {
    if i % 2 == 1 then i - 1 else i + 1
  }

  lemma SiblingAddress(a: nat, k: nat)
    ensures Shr(Xor(a, Pow2(k)), k) == Buddy(Shr(a, k))
  {
    XorFlipsBit(a, k);
    ShrBounds(a, k);
    var q := Shr(a, k);
    ShlAdd(q, 1, k);
    ShlAdd(q + 1, 1, k);
    if q % 2 == 1 {
      ShlAdd(q - 1, 1, k);
      ShrUnique(Xor(a, Pow2(k)), k, q - 1);
    } else {
      ShrUnique(Xor(a, Pow2(k)), k, q + 1);
    }
  }

  // ----- powers of two -----

  /** `value > 0 && (value & (value - 1)) == 0` */
  predicate IsPowerOfTwo(v: nat) {
    v > 0 && And(v, v - 1) == 0
  }

  /** Position of the highest set bit: 63 minus the count of leading zeros of a 64-bit word. */
  function Ilog2(v: nat): nat
    requires v > 0
  {
    if v == 1 then 0 else 1 + Ilog2(v / 2)
  }

  lemma {:induction false} AndSelf(a: nat)
    ensures And(a, a) == a
  {
    if a > 0 { AndSelf(a / 2); }
  }

  /** The mask trick recognises exactly the powers of two, and `ilog2` inverts `1 << k` on them. */
  lemma {:induction false} PowerOfTwoIff(v: nat)
    requires v > 0
    ensures IsPowerOfTwo(v) <==> v == Pow2(Ilog2(v))
  {
    if v == 1 {
      assert And(1, 0) == 0;
    } else if v % 2 == 1 {
      // v - 1 keeps every higher bit of v
      assert (v - 1) / 2 == v / 2;
      AndSelf(v / 2);
      assert And(v, v - 1) == 2 * (v / 2);
      Pow2Half(Ilog2(v));
    } else {
      assert (v - 1) / 2 == v / 2 - 1;
      assert And(v, v - 1) == 2 * And(v / 2, v / 2 - 1);
      PowerOfTwoIff(v / 2);
    }
  }

  // ----- rounding up -----

  /** CeilShr(n, k) is the least count of 2^k-wide blocks that covers n. */
  lemma {:induction false} CeilShrIsCeiling(n: nat, k: nat)
    ensures n <= Shl(CeilShr(n, k), k)
    ensures CeilShr(n, k) > 0 ==> Shl(CeilShr(n, k) - 1, k) < n
  {
    if k > 0 {
      CeilShrIsCeiling(n, k - 1);
      var c := CeilShr(n, k - 1);
      var d := CeilShr(n, k);
      ShlOuter(d, k - 1);
      ShlMonotone(c, 2 * d, k - 1);
      if d > 0 {
        ShlOuter(d - 1, k - 1);
        assert 2 * (d - 1) <= c - 1;
        ShlMonotone(2 * (d - 1), c - 1, k - 1);
      }
    }
  }

  lemma CeilShrLess(n: nat, k: nat, i: nat)
    ensures i < CeilShr(n, k) <==> Shl(i, k) < n
  {
    CeilShrIsCeiling(n, k);
    var c := CeilShr(n, k);
    if i < c {
      ShlMonotone(i, c - 1, k);
    } else {
      ShlMonotone(c, i, k);
    }
  }

  lemma CeilShrMonotone(m: nat, n: nat, k: nat)
    requires m <= n
    ensures CeilShr(m, k) <= CeilShr(n, k)
  {
    if CeilShr(m, k) > CeilShr(n, k) {
      CeilShrLess(m, k, CeilShr(n, k));
      CeilShrLess(n, k, CeilShr(n, k));
    }
  }
}
