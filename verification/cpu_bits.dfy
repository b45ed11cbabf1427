/** 64-bit words as sets of bit numbers. */
module CpuBits {
  /*
   The machine's bitwise operations are defined bit by bit on naturals, and related to the ascending
   sequence of the bits that are set.
   */

  const WORD_BITS := 64

  function Pow2(n: nat): (p: nat)
    ensures p > 0
  {
    if n == 0 then 1 else 2 * Pow2(n - 1)
  }

  function Bit(w: nat, i: nat): bool { if i == 0 then w % 2 == 1 else Bit(w / 2, i - 1) }

  /** a & b */
  function And(a: nat, b: nat): nat {
    if a == 0 || b == 0 then 0 else 2 * And(a / 2, b / 2) + (if a % 2 == 1 && b % 2 == 1 then 1 else 0)
  }

  /** a | b */
  function Or(a: nat, b: nat): nat {
    if a == 0 then b else if b == 0 then a else 2 * Or(a / 2, b / 2) + (if a % 2 == 1 || b % 2 == 1 then 1 else 0)
  }

  /** a & ~b */
  function AndNot(a: nat, b: nat): nat {
    if a == 0 then 0 else 2 * AndNot(a / 2, b / 2) + (if a % 2 == 1 && b % 2 == 0 then 1 else 0)
  }

  /** ~0ULL << k */
  function HighMask(k: nat): nat
    requires k <= WORD_BITS
  {
    Pow2Monotone(k, WORD_BITS);
    Pow2(WORD_BITS) - Pow2(k)
  }

  /** absl::popcount */
  function Popcount(w: nat): nat { if w == 0 then 0 else w % 2 + Popcount(w / 2) }

  /** __builtin_ctzll */
  function Ctz(w: nat): nat
    requires w > 0
  {
    if w % 2 == 1 then 0 else 1 + Ctz(w / 2)
  }

  /** The set bits of w in ascending order, counted from base. */
  function Elems(w: nat, base: nat): seq<nat> {
    if w == 0 then [] else (if w % 2 == 1 then [base] else []) + Elems(w / 2, base + 1)
  }

  //---------------------------------------------------------------------------
  // Bits of the operations
  //---------------------------------------------------------------------------

  lemma {:induction false} Pow2Monotone(a: nat, b: nat)
    requires a <= b
    ensures Pow2(a) <= Pow2(b)
  {
    if a < b { Pow2Monotone(a, b - 1); }
  }

  lemma {:induction false} ZeroHasNoBits(i: nat)
    ensures !Bit(0, i)
  {
    if i > 0 { ZeroHasNoBits(i - 1); }
  }

  lemma {:induction false} AndBit(a: nat, b: nat, i: nat)
    ensures Bit(And(a, b), i) <==> Bit(a, i) && Bit(b, i)
  {
    if a == 0 || b == 0 {
      ZeroHasNoBits(i);
    } else if i > 0 {
      AndBit(a / 2, b / 2, i - 1);
      assert And(a, b) / 2 == And(a / 2, b / 2);
    }
  }

  lemma {:induction false} OrBit(a: nat, b: nat, i: nat)
    ensures Bit(Or(a, b), i) <==> Bit(a, i) || Bit(b, i)
  {
    if a == 0 || b == 0 {
      ZeroHasNoBits(i);
    } else if i > 0 {
      OrBit(a / 2, b / 2, i - 1);
      assert Or(a, b) / 2 == Or(a / 2, b / 2);
    }
  }

  lemma {:induction false} AndNotBit(a: nat, b: nat, i: nat)
    ensures Bit(AndNot(a, b), i) <==> Bit(a, i) && !Bit(b, i)
  {
    if a == 0 {
      ZeroHasNoBits(i);
    } else if i > 0 {
      AndNotBit(a / 2, b / 2, i - 1);
      assert AndNot(a, b) / 2 == AndNot(a / 2, b / 2);
    }
  }

  lemma {:induction false} Pow2Bit(k: nat, i: nat)
    ensures Bit(Pow2(k), i) <==> i == k
  {
    if k == 0 {
      if i > 0 { ZeroHasNoBits(i - 1); }
    } else if i > 0 {
      assert Pow2(k) / 2 == Pow2(k - 1);
      Pow2Bit(k - 1, i - 1);
    }
  }

  /** The n low bits without the k lowest. */
  lemma {:induction false} RangeBit(n: nat, k: nat, i: nat)
    requires k <= n
    ensures Pow2(k) <= Pow2(n)
    ensures Bit(Pow2(n) - Pow2(k), i) <==> k <= i < n
  {
    Pow2Monotone(k, n);
    if k == n {
      ZeroHasNoBits(i);
    } else if k > 0 {
      Pow2Monotone(k - 1, n - 1);
      if i > 0 {
        RangeBit(n - 1, k - 1, i - 1);
        assert (Pow2(n) - Pow2(k)) / 2 == Pow2(n - 1) - Pow2(k - 1);
      }
    } else {
      Pow2Monotone(0, n - 1);
      if i > 0 {
        RangeBit(n - 1, 0, i - 1);
        assert (Pow2(n) - 1) / 2 == Pow2(n - 1) - 1;
      }
    }
  }

  lemma {:induction false} HighMaskBit(k: nat, i: nat)
    requires k <= WORD_BITS
    ensures Bit(HighMask(k), i) <==> k <= i < WORD_BITS
  {
    RangeBit(WORD_BITS, k, i);
  }

  lemma {:induction false} BitBelow(w: nat, n: nat, i: nat)
    requires w < Pow2(n) && Bit(w, i)
    ensures i < n
    decreases n
  {
    if n == 0 {
      ZeroHasNoBits(i);
    } else if i > 0 {
      BitBelow(w / 2, n - 1, i - 1);
    }
  }

  /** No operation leaves the word. */
  lemma {:induction false} OpsFit(a: nat, b: nat, n: nat)
    requires a < Pow2(n) && b < Pow2(n)
    ensures And(a, b) < Pow2(n) && Or(a, b) < Pow2(n) && AndNot(a, b) < Pow2(n)
    decreases n
  {
    if n > 0 { OpsFit(a / 2, b / 2, n - 1); }
  }

  /** Words with the same bits are the same. */
  lemma {:induction false} SameBits(a: nat, b: nat)
    requires forall i: nat :: Bit(a, i) == Bit(b, i)
    ensures a == b
    decreases a + b
  {
    if a + b > 0 {
      assert Bit(a, 0) == Bit(b, 0);
      forall i: nat ensures Bit(a / 2, i) == Bit(b / 2, i) { assert Bit(a, i + 1) == Bit(b, i + 1); }
      SameBits(a / 2, b / 2);
    }
  }

  //---------------------------------------------------------------------------
  // The sequence of set bits
  //---------------------------------------------------------------------------

  lemma {:induction false} ElemsAre(w: nat, base: nat)
    ensures forall x: nat :: x in Elems(w, base) <==> x >= base && Bit(w, x - base)
    ensures forall i, j :: 0 <= i < j < |Elems(w, base)| ==> Elems(w, base)[i] < Elems(w, base)[j]
    ensures |Elems(w, base)| == Popcount(w)
  {
    if w == 0 {
      forall x: nat ensures x in Elems(w, base) <==> x >= base && Bit(w, x - base) {
        if x >= base { ZeroHasNoBits(x - base); }
      }
    } else {
      ElemsAre(w / 2, base + 1);
      var rest := Elems(w / 2, base + 1);
      forall i | 0 <= i < |rest| ensures rest[i] > base { assert rest[i] in rest; }
      forall x: nat ensures x in Elems(w, base) <==> x >= base && Bit(w, x - base) {
        assert x in rest <==> x >= base + 1 && Bit(w / 2, x - base - 1);
      }
    }
  }

  /** The lowest set bit comes first, and word &= word - 1 takes it away. */
  lemma {:induction false} ClearLowest(w: nat, base: nat)
    requires w > 0
    ensures Elems(w, base) != [] && Elems(w, base)[0] == base + Ctz(w)
    ensures Elems(And(w, w - 1), base) == Elems(w, base)[1..]
  {
    if w % 2 == 1 {
      if w > 1 {
        assert And(w, w - 1) == 2 * And(w / 2, w / 2);
        AndSelf(w / 2);
      }
    } else {
      ClearLowest(w / 2, base + 1);
      assert (w - 1) / 2 == w / 2 - 1;
      assert And(w, w - 1) == 2 * And(w / 2, w / 2 - 1);
    }
  }

  lemma {:induction false} AndSelf(w: nat)
    ensures And(w, w) == w
  {
    if w > 0 { AndSelf(w / 2); }
  }

  lemma {:induction false} CtzIsLeast(w: nat)
    requires w > 0
    ensures Bit(w, Ctz(w)) && forall i: nat :: i < Ctz(w) ==> !Bit(w, i)
  {
    if w % 2 == 0 {
      CtzIsLeast(w / 2);
      forall i: nat | i < Ctz(w) ensures !Bit(w, i) {
        if i > 0 { assert !Bit(w / 2, i - 1); }
      }
    }
  }
}
