/**
 Weighted virtual runtime.

 The tables of weights and inverse weights per nice value, and the fixed-point arithmetic that charges
 a task for the time it ran.
 */
module CfsWeights {
  import opened Common

  const MIN_NICE := -20
  const MAX_NICE := 19

  const NICE_TO_WEIGHT: seq<int> := [
    88761, 71755, 56483, 46273, 36291, 29154, 23254, 18705, 14949, 11916,
    9548, 7620, 6100, 4904, 3906, 3121, 2501, 1991, 1586, 1277,
    1024, 820, 655, 526, 423, 335, 272, 215, 172, 137,
    110, 87, 70, 56, 45, 36, 29, 23, 18, 15]

  const NICE_TO_INVERSE_WEIGHT: seq<int> := [
    48388, 59856, 76040, 92818, 118348, 147320, 184698, 229616, 287308, 360437,
    449829, 563644, 704093, 875809, 1099582, 1376151, 1717300, 2157191, 2708050, 3363326,
    4194304, 5237765, 6557202, 8165337, 10153587, 12820798, 15790321, 19976592, 24970740, 31350126,
    39045157, 49367440, 61356676, 76695844, 95443717, 119304647, 148102320, 186737708, 238609294, 286331153]

  const TWO22 := 0x40_0000
  const TWO32 := 0x1_0000_0000
  const TWO57 := 0x200_0000_0000_0000
  const TWO64 := 0x1_0000_0000_0000_0000
  const TWO86 := TWO64 * TWO22
  const TWO128 := TWO64 * TWO64

  type Nice = n: int | MIN_NICE <= n <= MAX_NICE witness 0

  function Weight(nice: Nice): int { NICE_TO_WEIGHT[nice - MIN_NICE] }

  function InverseWeight(nice: Nice): int { NICE_TO_INVERSE_WEIGHT[nice - MIN_NICE] }

  /** What runtime r adds to vruntime, without regard to integer widths. */
  function Delta(nice: Nice, r: nat): int { InverseWeight(nice) * r / TWO22 }

  /** The same as computed: the product in 128 bits, the shifted result cut to 64. */
  function Delta64(nice: Nice, r: nat): int { InverseWeight(nice) * r % TWO128 / TWO22 % TWO64 }

  /** Each inverse weight is 2^32 / weight to within one unit. */
  lemma InverseIsInverse(nice: Nice)
    ensures 15 <= Weight(nice) <= 88761 && 0 < InverseWeight(nice) < 0x2000_0000
    ensures -Weight(nice) < Weight(nice) * InverseWeight(nice) - TWO32 < Weight(nice)
  {
    AllFit(nice - MIN_NICE);
  }

  predicate Fits(k: nat)
    requires k < 40
  {
    var w, v := NICE_TO_WEIGHT[k], NICE_TO_INVERSE_WEIGHT[k];
    && 15 <= w <= 88761 && 0 < v < 0x2000_0000 && -w < w * v - TWO32 < w
    && (k < 39 ==> v < NICE_TO_INVERSE_WEIGHT[k + 1])
  }

  lemma {:induction false} FitFrom0()
    ensures forall k :: 0 <= k < 5 ==> Fits(k)
  {
    assert Fits(0) && Fits(1) && Fits(2) && Fits(3) && Fits(4);
  }

  lemma {:induction false} FitFrom5()
    ensures forall k :: 5 <= k < 10 ==> Fits(k)
  {
    assert Fits(5) && Fits(6) && Fits(7) && Fits(8) && Fits(9);
  }

  lemma {:induction false} FitFrom10()
    ensures forall k :: 10 <= k < 15 ==> Fits(k)
  {
    assert Fits(10) && Fits(11) && Fits(12) && Fits(13) && Fits(14);
  }

  lemma {:induction false} FitFrom15()
    ensures forall k :: 15 <= k < 20 ==> Fits(k)
  {
    assert Fits(15) && Fits(16) && Fits(17) && Fits(18) && Fits(19);
  }

  lemma {:induction false} FitFrom20()
    ensures forall k :: 20 <= k < 25 ==> Fits(k)
  {
    assert Fits(20) && Fits(21) && Fits(22) && Fits(23) && Fits(24);
  }

  lemma {:induction false} FitFrom25()
    ensures forall k :: 25 <= k < 30 ==> Fits(k)
  {
    assert Fits(25) && Fits(26) && Fits(27) && Fits(28) && Fits(29);
  }

  lemma {:induction false} FitFrom30()
    ensures forall k :: 30 <= k < 35 ==> Fits(k)
  {
    assert Fits(30) && Fits(31) && Fits(32) && Fits(33) && Fits(34);
  }

  lemma {:induction false} FitFrom35()
    ensures forall k :: 35 <= k < 40 ==> Fits(k)
  {
    assert Fits(35) && Fits(36) && Fits(37) && Fits(38) && Fits(39);
  }

  lemma {:induction false} AllFit(k: nat)
    requires k < 40
    ensures Fits(k)
  {
    FitFrom0();
    FitFrom5();
    FitFrom10();
    FitFrom15();
    FitFrom20();
    FitFrom25();
    FitFrom30();
    FitFrom35();
  }

  lemma {:induction false} MulLe(a: int, b: int, c: int)
    requires a <= b && 0 <= c
    ensures a * c <= b * c
  {
    assert (b - a) * c >= 0;
    assert (b - a) * c == b * c - a * c;
  }

  lemma {:induction false} DivLe(a: int, b: int, d: int)
    requires 0 <= a <= b && d > 0
    ensures a / d <= b / d
  {
    QuotientLe(d, a / d, a % d, b / d, b % d);
  }

  lemma {:induction false} InverseGrows(a: Nice, b: Nice)
    requires a <= b
    ensures InverseWeight(a) <= InverseWeight(b)
    decreases b - a
  {
    if a < b {
      InverseGrows(a, b - 1);
      InverseStep(b - 1);
    }
  }

  lemma {:induction false} InverseStep(n: Nice)
    requires n < MAX_NICE
    ensures InverseWeight(n) < InverseWeight(n + 1)
  {
    AllFit(n - MIN_NICE);
  }

  /** A longer run costs no less, and the same run costs a task of higher nice value no less. */
  lemma {:induction false} DeltaMonotone(a: Nice, b: Nice, r: nat, s: nat)
    requires a <= b && r <= s
    ensures Delta(a, r) <= Delta(b, s)
  {
    InverseGrows(a, b);
    InverseIsInverse(a);
    ScaledLe(InverseWeight(a), InverseWeight(b), r, s);
  }

  lemma {:induction false} ScaledLe(x: nat, y: nat, r: nat, s: nat)
    requires x <= y && r <= s
    ensures x * r / TWO22 <= y * s / TWO22
  {
    MulLe(x, y, r);
    MulLe(r, s, y);
    DivLe(x * r, y * s, TWO22);
  }

  lemma {:induction false} DeltaAtNiceZero(r: nat)
    ensures Delta(0, r) == r
  {
    assert InverseWeight(0) == TWO22;
  }

  /** For every 64-bit runtime, the computed value is the exact one if and only if that fits 64 bits. */
  lemma {:induction false} Delta64Exact(nice: Nice, r: nat)
    requires r < TWO64
    ensures Delta64(nice, r) == Delta(nice, r) <==> InverseWeight(nice) * r < TWO86
    ensures r < TWO57 ==> Delta64(nice, r) == Delta(nice, r) < TWO64
  {
    InverseIsInverse(nice);
    MulLe(InverseWeight(nice), 0x2000_0000, r);
    MulLe(0, InverseWeight(nice), r);
    Cut(InverseWeight(nice) * r);
  }

  lemma {:induction false} Cut(p: nat)
    requires p < TWO128
    ensures p % TWO128 / TWO22 % TWO64 == p / TWO22 <==> p < TWO86
    ensures p < TWO86 ==> p / TWO22 < TWO64
  {
  }

  //---------------------------------------------------------------------------
  // Error over a history of runs
  //---------------------------------------------------------------------------

  function Sum(runs: seq<nat>): nat {
    if runs == [] then 0 else runs[0] + Sum(runs[1..])
  }

  /** What a history of runs, each charged on its own, adds to vruntime. */
  function Charged(nice: Nice, runs: seq<nat>): int {
    if runs == [] then 0 else Delta(nice, runs[0]) + Charged(nice, runs[1..])
  }

  function Abs(x: int): nat { if x < 0 then -x else x }

  /** weight * vruntime against the runtime, both in units of 2^-32. */
  function Error(nice: Nice, runs: seq<nat>): int {
    Weight(nice) * Charged(nice, runs) * TWO22 - TWO32 * Sum(runs)
  }

  lemma {:induction false} OneRunError(nice: Nice, r: nat)
    ensures Abs(Weight(nice) * Delta(nice, r) * TWO22 - TWO32 * r) < Weight(nice) * (TWO22 + r)
  {
    InverseIsInverse(nice);
    OneError(Weight(nice), InverseWeight(nice), r, Delta(nice, r), InverseWeight(nice) * r % TWO22);
  }

  /** The same on numbers: weight, inverse weight, runtime, charge and what the shift drops. */
  lemma {:induction false} OneError(w: int, v: int, r: nat, d: int, rem: nat)
    requires w > 0 && -w < w * v - TWO32 < w && rem < TWO22 && d * TWO22 == v * r - rem
    ensures Abs(w * d * TWO22 - TWO32 * r) < w * (TWO22 + r)
  {
    var e := w * v - TWO32;
    Assoc(w, d, TWO22);
    Distribute(w, v * r, 0 - rem);
    Assoc(w, v, r);
    DistributeRight(TWO32, e, r);
    MulLe(e, w, r);
    MulLe(-w, e, r);
    NegMul(w, r);
    Distribute(w, TWO22, r);
    RoundedDown(w, rem);
  }

  lemma {:induction false} RoundedDown(w: int, rem: int)
    requires w > 0 && 0 <= rem < TWO22
    ensures w * -rem <= 0 && -(w * TWO22) < w * -rem
  {
    MulLe(rem, TWO22 - 1, w);
    MulLe(0, rem, w);
    NegMul(w, rem);
  }

  lemma {:induction false} Assoc(a: int, b: int, c: int)
    ensures a * b * c == a * (b * c)
  {
  }

  lemma {:induction false} Distribute(a: int, b: int, c: int)
    ensures a * (b + c) == a * b + a * c
  {
  }

  lemma {:induction false} DistributeRight(a: int, b: int, c: int)
    ensures (a + b) * c == a * c + b * c
  {
  }

  lemma {:induction false} NegMul(a: int, b: int)
    ensures -a * b == -(a * b) && a * -b == -(a * b)
  {
  }

  /** k runs that took s and cost c stay within the bound. */
  predicate Within(w: int, c: int, s: nat, k: nat) {
    Abs(w * c * TWO22 - TWO32 * s) < w * (TWO22 * k + s) || (k == 0 && c == 0 && s == 0)
  }

  lemma {:induction false} AddError(w: int, d: int, r: nat, c: int, s: nat, k: nat, c': int, s': nat, k': nat)
    requires c' == d + c && s' == r + s && k' == k + 1
    requires Abs(w * d * TWO22 - TWO32 * r) < w * (TWO22 + r)
    requires Within(w, c, s, k)
    ensures Within(w, c', s', k')
  {
    Distribute(w, d, c);
    Distribute(w, TWO22 + r, TWO22 * k + s);
  }

  lemma {:induction false} HistoryWithin(nice: Nice, runs: seq<nat>)
    ensures Within(Weight(nice), Charged(nice, runs), Sum(runs), |runs|)
  {
    if runs != [] {
      var rest := runs[1..];
      OneRunError(nice, runs[0]);
      HistoryWithin(nice, rest);
      AddError(Weight(nice), Delta(nice, runs[0]), runs[0], Charged(nice, rest), Sum(rest), |rest|,
               Charged(nice, runs), Sum(runs), |runs|);
    }
  }

  /**
   However a task's runtime is cut into runs, its weighted vruntime is off by less than
   weight * (2^22 per run + the runtime).
   */
  lemma {:induction false} HistoryError(nice: Nice, runs: seq<nat>)
    ensures Abs(Error(nice, runs)) <= Weight(nice) * (TWO22 * |runs| + Sum(runs))
    ensures runs != [] ==> Abs(Error(nice, runs)) < Weight(nice) * (TWO22 * |runs| + Sum(runs))
  {
    HistoryWithin(nice, runs);
  }

  lemma {:induction false} ScaledError(w: int, u: int, e: int, bound: nat)
    requires w > 0 && Abs(e) <= u * bound
    ensures -(u * w * bound) <= w * e <= u * w * bound
  {
    var x := u * bound;
    MulLe(e, x, w);
    MulLe(-x, e, w);
    NegMul(x, w);
    assert u * w * bound == x * w by { Assoc(u, bound, w); Assoc(u, w, bound); }
  }

  lemma {:induction false} ScaledGap(ww: int, d: int, gap: nat)
    requires ww > 0 && Abs(d) <= gap
    ensures -(ww * gap) * TWO22 <= ww * d * TWO22 <= ww * gap * TWO22
  {
    MulLe(d, gap, ww);
    var g: int := gap;
    MulLe(-g, d, ww);
    NegMul(g, ww);
  }

  /** b times the error of a. */
  lemma {:induction false} ScaledTerms(wa: int, wb: int, c: int, r: int)
    ensures wb * (wa * c * TWO22 - TWO32 * r) == wa * wb * c * TWO22 - TWO32 * (wb * r)
  {
    Distribute(wb, wa * c * TWO22, -(TWO32 * r));
    NegMul(wb, TWO32 * r);
    assert wb * (wa * c * TWO22) == wa * wb * c * TWO22 by {
      Assoc(wb, wa * c, TWO22);
      Assoc(wb, wa, c);
    }
    assert wb * (TWO32 * r) == TWO32 * (wb * r);
  }

  /**
   Proportional share: two tasks whose vruntimes grew by amounts at most `gap` apart ran for times
   proportional to their weights, up to an error set by the gap, the number of runs and the
   accuracy of the tables.
   */
  lemma {:induction false} ProportionalShare(a: Nice, runsA: seq<nat>, b: Nice, runsB: seq<nat>, gap: nat)
    requires Abs(Charged(a, runsA) - Charged(b, runsB)) <= gap
    ensures TWO32 * Abs(Weight(b) * Sum(runsA) - Weight(a) * Sum(runsB)) <=
      Weight(a) * Weight(b) * (TWO22 * (gap + |runsA| + |runsB|) + Sum(runsA) + Sum(runsB))
  {
    InverseIsInverse(a);
    InverseIsInverse(b);
    HistoryError(a, runsA);
    HistoryError(b, runsB);
    Share(Weight(a), Charged(a, runsA), Sum(runsA), |runsA|, Weight(b), Charged(b, runsB), Sum(runsB), |runsB|, gap);
  }

  /** The same on numbers: weights, charges, runtimes and numbers of runs. */
  lemma {:induction false} Share(wa: int, ca: int, ra: nat, ka: nat, wb: int, cb: int, rb: nat, kb: nat, gap: nat)
    requires wa > 0 && wb > 0 && Abs(ca - cb) <= gap
    requires Abs(wa * ca * TWO22 - TWO32 * ra) <= wa * (TWO22 * ka + ra)
    requires Abs(wb * cb * TWO22 - TWO32 * rb) <= wb * (TWO22 * kb + rb)
    ensures TWO32 * Abs(wb * ra - wa * rb) <= wa * wb * (TWO22 * (gap + ka + kb) + ra + rb)
  {
    var ea, eb := wa * ca * TWO22 - TWO32 * ra, wb * cb * TWO22 - TWO32 * rb;
    var ba, bb := TWO22 * ka + ra, TWO22 * kb + rb;
    ScaledError(wb, wa, ea, ba);
    ScaledError(wa, wb, eb, bb);
    ScaledGap(wa * wb, ca - cb, gap);
    ScaledTerms(wa, wb, ca, ra);
    ScaledTerms(wb, wa, cb, rb);
    Distribute(wa * wb, ca, -cb);
    NegMul(wa * wb, cb);
    Bounds(wa * wb, gap, ba, bb);
    Triangle(wa * wb * (ca - cb) * TWO22, wb * ea, wa * eb, wa * wb * gap * TWO22, wa * wb * ba, wa * wb * bb);
  }

  lemma {:induction false} Triangle(x: int, y: int, z: int, bx: int, by': int, bz: int)
    requires -bx <= x <= bx && -by' <= y <= by' && -bz <= z <= bz
    ensures Abs(x - y + z) <= bx + by' + bz
  {
  }

  lemma {:induction false} Bounds(ww: int, gap: nat, ba: nat, bb: nat)
    ensures ww * (TWO22 * gap + ba + bb) == ww * gap * TWO22 + ww * ba + ww * bb
  {
    Distribute(ww, TWO22 * gap + ba, bb);
    Distribute(ww, TWO22 * gap, ba);
    Assoc(ww, gap, TWO22);
  }
}
