/**
 * The allocation engine of src/lib/calc.ts: from the inputs, the vouchers
 * each partner actually spends, the pot and the cash it needs, each
 * partner's share after the bias, and the cash deposits, rounded to cents
 * so that they add up to the rounded cash need.
 *
 * Amounts are exact reals; `r2` is `Math.round(x * 100) / 100`, which
 * rounds half a cent upwards.
 */
module Calc {
  import opened JsRuntime
  import opened Types

  function Max(x: real, y: real): real { if x >= y then x else y }

  function Min(x: real, y: real): real { if x <= y then x else y }

  function Abs(x: real): real { if x >= 0.0 then x else -x }

  /** `clamp` of src/lib/format.ts, which is not part of this model: `min(hi, max(lo, x))`. */
  function Clamp(x: real, lo: real, hi: real): (r: real)
    requires lo <= hi
    ensures lo <= r <= hi
    ensures lo <= x <= hi ==> r == x
    ensures x < lo ==> r == lo
    ensures hi < x ==> r == hi
  {
    Min(hi, Max(lo, x))
  }

  // ----- Rounding to cents -----

  /** The number of cents in `x`, rounded down. */
  function CentsOf(x: real): int { (x * 100.0).Floor }

  /** `Math.round(x * 100)`: the nearest number of cents, half a cent rounding upwards. */
  function RoundedCents(x: real): int { (x * 100.0 + 0.5).Floor }

  /** `x` is a whole number of cents. */
  predicate IsCents(x: real) { CentsOf(x) as real == x * 100.0 }

  /** `r2`: the whole number of cents nearest to `x`, half a cent rounding upwards. */
  function R2(x: real): (r: real)
    ensures IsCents(r)
    ensures r - 0.005 <= x < r + 0.005
  {
    var k := RoundedCents(x);
    assert (k as real / 100.0) * 100.0 == k as real;
    k as real / 100.0
  }

  lemma R2OfCents(x: real)
    requires IsCents(x)
    ensures R2(x) == x
  {
    assert RoundedCents(x) == CentsOf(x);
  }

  lemma R2Monotone(x: real, y: real)
    requires x <= y
    ensures R2(x) <= R2(y)
  {
    assert RoundedCents(x) <= RoundedCents(y);
  }

  lemma R2NonNegative(x: real)
    ensures x >= 0.0 ==> R2(x) >= 0.0
  {
    if x >= 0.0 {
      R2Monotone(0.0, x);
      R2OfCents(0.0);
    }
  }

  lemma CentsDifference(x: real, y: real)
    requires IsCents(x) && IsCents(y)
    ensures IsCents(x - y)
  {
    var d := CentsOf(x) - CentsOf(y);
    assert (x - y) * 100.0 == d as real;
  }

  // ----- Phase 1: coercion of the inputs -----

  /** `toFinite`: a finite number as it is, anything else as the fallback. */
  function ToFinite(v: JsNumber, fallback: real): (r: real)
    ensures v.Finite? ==> r == v.value
    ensures !v.Finite? ==> r == fallback
  {
    if v.Finite? then v.value else fallback
  }

  // ----- Phase 2: vouchers -----

  /** The fraction of the vouchers spent: the percentage clamped to [0, 100], over 100. */
  function SpentFraction(trPct: real): (f: real)
    ensures 0.0 <= f <= 1.0
    ensures 0.0 <= trPct <= 100.0 ==> f * 100.0 == trPct
  {
    Clamp(trPct, 0.0, 100.0) / 100.0
  }

  /** The vouchers a partner spends: the non-negative part of the credit times the spent fraction. */
  function EffectiveVoucher(raw: real, fraction: real): (r: real)
    requires 0.0 <= fraction <= 1.0
    ensures 0.0 <= r <= Max(0.0, raw)
    ensures fraction == 1.0 ==> r == Max(0.0, raw)
    ensures fraction == 0.0 ==> r == 0.0
  {
    var credit := Max(0.0, raw);
    MulWithinBounds(credit, fraction);
    credit * fraction
  }

  lemma MulWithinBounds(x: real, f: real)
    requires x >= 0.0 && 0.0 <= f <= 1.0
    ensures 0.0 <= x * f <= x
  {
    assert x - x * f == x * (1.0 - f);
  }

  lemma FractionWithinUnit(n: real, d: real)
    requires d > 0.0 && 0.0 <= n <= d
    ensures 0.0 <= n / d <= 1.0
  {
    assert (n / d) * d == n;
  }

  lemma MulMonotone(p: real, s: real, t: real)
    requires p >= 0.0 && s <= t
    ensures p * s <= p * t
  {
    assert p * t - p * s == p * (t - s);
  }

  /**
   * The vouchers credited to the pot (calc.ts:33-47). Without the advanced
   * mode they are the effective ones. With it, their total is capped by the
   * eligible expenses, both partners scaled by one common ratio.
   */
  function CapVouchers(advanced: bool, effectiveA: real, effectiveB: real, eligible: real): (used: (real, real))
    requires effectiveA >= 0.0 && effectiveB >= 0.0 && eligible >= 0.0
    ensures !advanced ==> used == (effectiveA, effectiveB)
    ensures 0.0 <= used.0 <= effectiveA && 0.0 <= used.1 <= effectiveB
    ensures advanced ==> used.0 + used.1 == Min(effectiveA + effectiveB, eligible)
  {
    if !advanced then (effectiveA, effectiveB)
    else
      var effective := effectiveA + effectiveB;
      var cap := Min(effective, eligible);
      var scaled :=
        if effective > 0.0 && cap < effective then
          var ratio := cap / effective;
          ScaledByRatio(effectiveA, effectiveB, cap);
          (effectiveA * ratio, effectiveB * ratio)
        else (effectiveA, effectiveB);
      if cap == 0.0 then (0.0, 0.0) else scaled
  }

  /** Capping keeps the partners' vouchers in the same proportion. */
  lemma CapVouchersKeepsProportions(advanced: bool, effectiveA: real, effectiveB: real, eligible: real)
    requires effectiveA >= 0.0 && effectiveB >= 0.0 && eligible >= 0.0
    ensures var used := CapVouchers(advanced, effectiveA, effectiveB, eligible);
            used.0 * effectiveB == used.1 * effectiveA
  {
    var effective := effectiveA + effectiveB;
    if advanced && effective > 0.0 && Min(effective, eligible) < effective {
      ScaledByRatio(effectiveA, effectiveB, Min(effective, eligible));
    }
  }

  lemma ScaledByRatio(a: real, b: real, cap: real)
    requires a >= 0.0 && b >= 0.0 && a + b > 0.0 && 0.0 <= cap <= a + b
    ensures var ratio := cap / (a + b);
      && 0.0 <= ratio <= 1.0
      && a * ratio + b * ratio == cap
      && (a * ratio) * b == (b * ratio) * a
  {
    var ratio := cap / (a + b);
    assert ratio * (a + b) == cap;
    FractionWithinUnit(cap, a + b);
    MulWithinBounds(a, ratio);
    MulWithinBounds(b, ratio);
  }

  // ----- Phase 4: shares -----

  /** A's share of the weights, or one half when both weights are zero. */
  function RawShare(wD: real, wM: real): (s: real)
    requires wD >= 0.0 && wM >= 0.0
    ensures 0.0 <= s <= 1.0
    ensures wD + wM == 0.0 ==> s == 0.5
  {
    if wD + wM > 0.0 then
      FractionWithinUnit(wD, wD + wM);
      wD / (wD + wM)
    else 0.5
  }

  /** A's raw share is its weight over the total weight. */
  lemma RawShareIsProportion(wD: real, wM: real)
    requires wD >= 0.0 && wM >= 0.0 && wD + wM > 0.0
    ensures RawShare(wD, wM) * (wD + wM) == wD
  {
    assert (wD / (wD + wM)) * (wD + wM) == wD;
  }

  /** The bias in points, clamped to [-50, 50], as a fraction. */
  function BiasShift(biasPts: real): (shift: real)
    ensures -0.5 <= shift <= 0.5
    ensures -50.0 <= biasPts <= 50.0 ==> shift * 100.0 == biasPts
  {
    Clamp(biasPts, -50.0, 50.0) / 100.0
  }

  /** A's share after the bias, kept within [0, 1]. */
  function BiasedShare(shareRaw: real, biasPts: real): (s: real)
    ensures 0.0 <= s <= 1.0
  {
    Clamp(shareRaw + BiasShift(biasPts), 0.0, 1.0)
  }

  lemma BiasedShareMonotone(shareRaw: real, lo: real, hi: real)
    requires lo <= hi
    ensures BiasedShare(shareRaw, lo) <= BiasedShare(shareRaw, hi)
  {
  }

  // ----- Phase 4: deposits -----

  /** A's equivalent contribution: its share of the pot. */
  function Contribution(potTotal: real, share: real): (c: real)
    requires 0.0 <= share <= 1.0
    ensures potTotal >= 0.0 ==> 0.0 <= c <= potTotal
    ensures share == 0.5 ==> c + c == potTotal
  {
    if potTotal >= 0.0 then MulWithinBounds(potTotal, share); potTotal * share
    else potTotal * share
  }

  lemma ContributionMonotone(potTotal: real, s: real, t: real)
    requires potTotal >= 0.0 && 0.0 <= s <= t <= 1.0
    ensures Contribution(potTotal, s) <= Contribution(potTotal, t)
  {
    MulMonotone(potTotal, s, t);
  }

  /**
   * calc.ts:73-83: a negative deposit is set to 0 and its deficit moved to
   * the other partner, A first and then B.
   */
  function Redistribute(depositDRaw: real, depositMRaw: real): (d: (real, real))
    ensures d.0 + d.1 == depositDRaw + depositMRaw
    ensures d.1 >= 0.0
    ensures depositDRaw >= 0.0 && depositMRaw >= 0.0 ==> d == (depositDRaw, depositMRaw)
    ensures depositDRaw + depositMRaw >= 0.0 ==>
              d.0 == Clamp(depositDRaw, 0.0, depositDRaw + depositMRaw)
    ensures depositDRaw < 0.0 ==> d.0 <= 0.0
    ensures depositMRaw < 0.0 ==> d == (depositDRaw + depositMRaw, 0.0)
  {
    var (depositD, depositM) :=
      if depositDRaw < 0.0 then (0.0, depositMRaw + depositDRaw) else (depositDRaw, depositMRaw);
    if depositM < 0.0 then (depositD + depositM, 0.0) else (depositD, depositM)
  }

  /**
   * calc.ts:90-97: if the rounded deposits exceed the rounded cash need by
   * less than 5 cents, the excess is taken from B, or from A when B holds
   * less than the excess.
   */
  function DriftFix(depositD: real, depositM: real, cashNeededRounded: real): (r: (real, real))
    requires depositD >= 0.0 && depositM >= 0.0
    ensures r.0 >= 0.0 && r.1 >= 0.0
    ensures depositD + depositM <= cashNeededRounded ==> r == (depositD, depositM)
    ensures depositD == 0.0 && depositM == 0.0 ==> r == (0.0, 0.0)
  {
    var sumDeposits := depositD + depositM;
    if sumDeposits > cashNeededRounded && Abs(sumDeposits - cashNeededRounded) < 0.05 then
      var diff := R2(sumDeposits - cashNeededRounded);
      if diff > 0.0 then
        if depositM >= diff then
          R2NonNegative(depositM - diff);
          (depositD, R2(depositM - diff))
        else
          R2NonNegative(Max(0.0, depositD - diff));
          R2OfCents(0.0);
          (R2(Max(0.0, depositD - diff)), depositM)
      else (depositD, depositM)
    else (depositD, depositM)
  }

  /**
   * calc.ts:99-109: both deposits rounded again, and a deposit a rounding
   * error left less than 2 cents below zero snapped to 0. On non-negative
   * deposits only the rounding has an effect.
   */
  function SafetyBounds(depositD: real, depositM: real, cashNeededRounded: real): (r: (real, real))
    requires depositD >= 0.0 && depositM >= 0.0
    ensures r == (R2(depositD), R2(depositM))
  {
    var d := R2(depositD);
    var m := R2(depositM);
    R2NonNegative(depositD);
    R2NonNegative(depositM);
    var (d', m') := if m < 0.0 && Abs(m) < 0.02 then (R2(cashNeededRounded - 0.0), 0.0) else (d, m);
    if d' < 0.0 && Abs(d') < 0.02 then (0.0, R2(cashNeededRounded)) else (d', m')
  }

  /**
   * calc.ts:85-109: A's deposit is rounded, B's is the rounded cash need
   * minus it, then the two patch-ups for floating-point drift. When A's
   * deposit is at most the cash need, as `Redistribute` ensures, the
   * patch-ups change nothing and the two deposits add up to the rounded
   * cash need (0 when that is negative).
   */
  function Reconcile(depositD: real, cashNeeded: real): (r: (real, real))
    ensures r.0 >= 0.0 && r.1 >= 0.0
    ensures depositD <= cashNeeded ==>
              r.0 == R2(Max(0.0, depositD)) && r.0 + r.1 == Max(0.0, R2(cashNeeded))
  {
    var cashNeededRounded := R2(cashNeeded);
    var d := R2(Max(0.0, depositD));
    var m := R2(Max(0.0, cashNeededRounded - d));
    R2NonNegative(Max(0.0, depositD));
    R2NonNegative(Max(0.0, cashNeededRounded - d));
    var fixed := DriftFix(d, m, cashNeededRounded);
    R2NonNegative(fixed.0);
    R2NonNegative(fixed.1);
    ReconcileSum(depositD, cashNeeded);
    SafetyBounds(fixed.0, fixed.1, cashNeededRounded)
  }

  /** The case analysis behind `Reconcile`'s sum: what the first two roundings give. */
  lemma ReconcileSum(depositD: real, cashNeeded: real)
    ensures var cashNeededRounded := R2(cashNeeded);
            var d1 := R2(Max(0.0, depositD));
            var m1 := R2(Max(0.0, cashNeededRounded - d1));
            && R2(d1) == d1 && R2(m1) == m1
            && (depositD <= cashNeeded ==> d1 + m1 == Max(0.0, cashNeededRounded))
  {
    var cashNeededRounded := R2(cashNeeded);
    var d1 := R2(Max(0.0, depositD));
    var m1 := R2(Max(0.0, cashNeededRounded - d1));
    R2OfCents(0.0);
    R2OfCents(d1);
    R2OfCents(m1);
    if depositD <= cashNeeded {
      if cashNeeded >= 0.0 {
        R2Monotone(Max(0.0, depositD), cashNeeded);
        CentsDifference(cashNeededRounded, d1);
        R2OfCents(cashNeededRounded - d1);
        R2NonNegative(cashNeeded);
      } else {
        R2Monotone(cashNeeded, 0.0);
      }
    }
  }

  // ----- The whole computation -----

  /** calc.ts:14-24: the inputs once coerced, every number finite and every name displayable. */
  datatype Figures = Figures(
    a1: real, a2: real, b2: real, trPct: real, b: real, m: real,
    advanced: bool, E: real, biasPts: real,
    partnerAName: string, partnerBName: string)

  /** `v` coerced by `toFinite`: its value when finite, the fallback otherwise. */
  predicate CoercedTo(v: JsNumber, x: real, fallback: real)
  {
    (v.Finite? ==> x == v.value) && (!v.Finite? ==> x == fallback)
  }

  /**
   * The coerced inputs: each finite number kept, NaN and the infinities
   * replaced by 0 (by 100 for the voucher percentage), and each name the
   * trimmed name when non-blank, otherwise the partner's placeholder.
   */
  function Coerce(i: Inputs): (f: Figures)
    ensures CoercedTo(i.a1, f.a1, 0.0) && CoercedTo(i.a2, f.a2, 0.0) && CoercedTo(i.b2, f.b2, 0.0)
    ensures CoercedTo(i.trPct, f.trPct, 100.0) && CoercedTo(i.b, f.b, 0.0) && CoercedTo(i.m, f.m, 0.0)
    ensures CoercedTo(i.E, f.E, 0.0) && CoercedTo(i.biasPts, f.biasPts, 0.0)
    ensures f.advanced == i.advanced
    ensures f.partnerAName != [] && Trim(f.partnerAName) == f.partnerAName
    ensures f.partnerBName != [] && Trim(f.partnerBName) == f.partnerBName
    ensures f.partnerAName == PlaceholderA || (i.partnerAName.Some? && f.partnerAName == Trim(i.partnerAName.value))
    ensures f.partnerBName == PlaceholderB || (i.partnerBName.Some? && f.partnerBName == Trim(i.partnerBName.value))
    ensures i.partnerAName.Some? && Trim(i.partnerAName.value) != [] ==> f.partnerAName == Trim(i.partnerAName.value)
    ensures i.partnerBName.Some? && Trim(i.partnerBName.value) != [] ==> f.partnerBName == Trim(i.partnerBName.value)
  {
    DisplayNameWithPlaceholder(i.partnerAName, PlaceholderA);
    DisplayNameWithPlaceholder(i.partnerBName, PlaceholderB);
    Figures(
      ToFinite(i.a1, 0.0), ToFinite(i.a2, 0.0), ToFinite(i.b2, 0.0), ToFinite(i.trPct, 100.0),
      ToFinite(i.b, 0.0), ToFinite(i.m, 0.0), i.advanced, ToFinite(i.E, 0.0), ToFinite(i.biasPts, 0.0),
      DisplayName(i.partnerAName, PlaceholderA), DisplayName(i.partnerBName, PlaceholderB))
  }

  /** The unrounded values of one calculation, named as in calc.ts. */
  datatype Workings = Workings(
    figures: Figures,
    effectiveTRA: real, effectiveTRB: real, effectiveTR: real, eligibleTR: real,
    usedTRA: real, usedTRB: real, V: real,
    potTotal: real, cashNeeded: real,
    wD: real, wM: real, shareD_raw: real, shareD_biased: real, shareM_biased: real,
    contribEqD: real, contribEqM: real,
    depositDRaw: real, depositMRaw: real,
    depositD: real, depositM: real)

  /** calc.ts:11-83: every value `calculate` computes before rounding. */
  function Work(i: Inputs): Workings
  {
    Derive(Coerce(i))
  }

  /** calc.ts:26-83: the vouchers, the pot, the shares and the deposits, from the coerced inputs. */
  function Derive(f: Figures): (w: Workings)
    ensures w.figures == f
    ensures 0.0 <= w.usedTRA <= w.effectiveTRA && 0.0 <= w.usedTRB <= w.effectiveTRB
    ensures w.effectiveTR == w.effectiveTRA + w.effectiveTRB
    ensures w.V == w.usedTRA + w.usedTRB
    ensures w.figures.advanced ==> w.V == Min(w.effectiveTR, w.eligibleTR)
    ensures w.potTotal - w.V == w.cashNeeded
    ensures !w.figures.advanced ==> w.cashNeeded == w.figures.m
    ensures w.figures.advanced ==> w.cashNeeded == w.figures.m + Max(0.0, w.eligibleTR - w.effectiveTR)
    ensures w.figures.m >= 0.0 ==> w.cashNeeded >= 0.0 && w.potTotal >= 0.0
    ensures 0.0 <= w.shareD_raw <= 1.0 && 0.0 <= w.shareD_biased <= 1.0
    ensures w.shareD_biased + w.shareM_biased == 1.0
    ensures w.depositDRaw == w.contribEqD - w.usedTRA && w.depositMRaw == w.contribEqM - w.usedTRB
    ensures w.depositDRaw + w.depositMRaw == w.cashNeeded
    ensures w.depositD + w.depositM == w.cashNeeded
    ensures w.depositD <= w.cashNeeded && w.depositM >= 0.0
    ensures w.cashNeeded >= 0.0 ==> w.depositD >= 0.0
    ensures w.cashNeeded >= 0.0 ==> w.depositD == Clamp(w.depositDRaw, 0.0, w.cashNeeded)
    ensures w.depositDRaw < 0.0 ==> w.depositD <= 0.0
    ensures w.depositMRaw < 0.0 ==> w.depositD == w.cashNeeded
  {
    var Figures(a1, a2, b2, trPct, b, m, advanced, E, biasPts, _, _) := f;

    var trPctClamped := SpentFraction(trPct);
    var effectiveTRA := EffectiveVoucher(a2, trPctClamped);
    var effectiveTRB := EffectiveVoucher(b2, trPctClamped);
    var effectiveTR := effectiveTRA + effectiveTRB;
    var eligibleTR := Max(0.0, E);

    var used := CapVouchers(advanced, effectiveTRA, effectiveTRB, eligibleTR);
    var V := if advanced then used.0 + used.1 else effectiveTR;
    var potTotal := if advanced then m + eligibleTR else m + V;
    var extraEligibleCash := if advanced then Max(0.0, eligibleTR - V) else 0.0;
    var cashNeeded := m + extraEligibleCash;

    var wD := Max(0.0, a1) + used.0;
    var wM := Max(0.0, b) + used.1;
    var shareD_raw := RawShare(wD, wM);
    var shareD_biased := BiasedShare(shareD_raw, biasPts);
    var shareM_biased := 1.0 - shareD_biased;

    var contribEqD := Contribution(potTotal, shareD_biased);
    var contribEqM := potTotal - contribEqD;
    var depositDRaw := contribEqD - used.0;
    var depositMRaw := contribEqM - used.1;
    var deposits := Redistribute(depositDRaw, depositMRaw);

    Workings(
      f,
      effectiveTRA, effectiveTRB, effectiveTR, eligibleTR,
      used.0, used.1, V, potTotal, cashNeeded,
      wD, wM, shareD_raw, shareD_biased, shareM_biased,
      contribEqD, contribEqM, depositDRaw, depositMRaw,
      deposits.0, deposits.1)
  }

  // ----- Warnings and explanation -----

  datatype Partner = PartnerA | PartnerB

  /** The advisory messages of calc.ts:114-127, without their French wording. */
  datatype Warning =
    | ZeroWeight                                 // both weights are zero: 50/50 split
    | UnusedVouchers(unused: real)               // vouchers beyond the eligible expenses
    | DepositClamped(partner: Partner, name: string)  // the vouchers alone cover this partner's share

  /**
   * Each warning is raised exactly when its condition holds, at most once,
   * and the zero-weight notice comes first.
   */
  function Warnings(w: Workings): (ws: seq<Warning>)
    ensures ZeroWeight in ws <==> w.wD + w.wM == 0.0
    ensures UnusedVouchers(R2(w.effectiveTR - w.eligibleTR)) in ws <==> w.figures.advanced && w.effectiveTR > w.eligibleTR
    ensures DepositClamped(PartnerA, w.figures.partnerAName) in ws <==> w.contribEqD - w.usedTRA < 0.0
    ensures DepositClamped(PartnerB, w.figures.partnerBName) in ws <==> w.contribEqM - w.usedTRB < 0.0
    ensures forall x :: x in ws ==>
              || x == ZeroWeight
              || x == UnusedVouchers(R2(w.effectiveTR - w.eligibleTR))
              || x == DepositClamped(PartnerA, w.figures.partnerAName)
              || x == DepositClamped(PartnerB, w.figures.partnerBName)
    ensures |ws| <= 4
    ensures ZeroWeight in ws ==> ws[0] == ZeroWeight
  {
    (if w.wD + w.wM == 0.0 then [ZeroWeight] else [])
    + (if w.figures.advanced && w.effectiveTR > w.eligibleTR then [UnusedVouchers(R2(w.effectiveTR - w.eligibleTR))] else [])
    + (if w.contribEqD - w.usedTRA < 0.0 then [DepositClamped(PartnerA, w.figures.partnerAName)] else [])
    + (if w.contribEqM - w.usedTRB < 0.0 then [DepositClamped(PartnerB, w.figures.partnerBName)] else [])
  }

  /**
   * The derivation lines of calc.ts:129-144 with the figures they show,
   * before the display rounding and the text formatting.
   */
  datatype Step =
    | VouchersEffective(a: real, b: real, total: real)
    | VouchersUsed(afterCap: bool, a: real, b: real, total: real)
    | PotWithEligible(m: real, eligible: real, total: real)
    | PotWithVouchers(m: real, vouchers: real, total: real)
    | CashWithEligible(m: real, extra: real, total: real)
    | CashBudgetOnly(total: real)
    | SharesBeforeBias(a: real, b: real)
    | SharesAfterBias(biasPts: real, favoured: Option<Partner>, a: real, b: real)
    | Contributions(a: real, b: real)
    | Deposits(a: real, b: real, total: real)

  function Steps(w: Workings, cashNeededRounded: real, depositD: real, depositM: real): (s: seq<Step>)
    ensures |s| == 8
    ensures s[0].VouchersEffective? && s[0].total == w.effectiveTR
    ensures s[1].VouchersUsed? && s[1].afterCap == w.figures.advanced && s[1].total == w.V
    ensures !w.figures.advanced ==> s[1].a == w.effectiveTRA && s[1].b == w.effectiveTRB
    ensures (s[2].PotWithEligible? <==> w.figures.advanced) && (s[2].PotWithVouchers? <==> !w.figures.advanced)
    ensures s[2].total == w.potTotal
    ensures (s[3].CashWithEligible? <==> w.figures.advanced) && (s[3].CashBudgetOnly? <==> !w.figures.advanced)
    ensures s[3].total == cashNeededRounded
    ensures s[4].SharesBeforeBias? && s[4].a + s[4].b == 1.0
    ensures s[5].SharesAfterBias? && s[5].biasPts == w.figures.biasPts
    ensures s[5].favoured == None <==> w.figures.biasPts == 0.0
    ensures s[5].favoured == Some(PartnerB) <==> w.figures.biasPts > 0.0
    ensures s[6] == Contributions(w.contribEqD, w.contribEqM)
    ensures s[7].Deposits? && s[7].a == depositD && s[7].b == depositM && s[7].total == s[7].a + s[7].b
  {
    [ VouchersEffective(w.effectiveTRA, w.effectiveTRB, w.effectiveTR),
      if w.figures.advanced then VouchersUsed(true, w.usedTRA, w.usedTRB, w.V)
      else VouchersUsed(false, w.effectiveTRA, w.effectiveTRB, w.V),
      if w.figures.advanced then PotWithEligible(w.figures.m, w.eligibleTR, w.potTotal)
      else PotWithVouchers(w.figures.m, w.V, w.potTotal),
      if w.figures.advanced then CashWithEligible(w.figures.m, Max(0.0, w.eligibleTR - w.V), cashNeededRounded)
      else CashBudgetOnly(cashNeededRounded),
      SharesBeforeBias(w.shareD_raw, 1.0 - w.shareD_raw),
      SharesAfterBias(w.figures.biasPts,
                      if w.figures.biasPts == 0.0 then None else if w.figures.biasPts > 0.0 then Some(PartnerB) else Some(PartnerA),
                      w.shareD_biased, w.shareM_biased),
      Contributions(w.contribEqD, w.contribEqM),
      Deposits(depositD, depositM, depositD + depositM) ]
  }

  /** The record `calculate` returns: amounts and shares rounded to cents. */
  datatype Result = Result(
    effectiveTRA: real, effectiveTRB: real, effectiveTR: real,
    usedTRA: real, usedTRB: real, V: real,
    potTotal: real, cashNeeded: real,
    shareD_raw: real, shareD_biased: real, shareM_biased: real,
    contribEqD: real, contribEqM: real,
    depositD: real, depositM: real,
    warnings: seq<Warning>, steps: seq<Step>)

  /**
   * `calculate`: total over all inputs. The deposits are never negative and
   * add up to the rounded cash need (or to 0 if that is negative), and the
   * credited vouchers never exceed the spent ones.
   */
  function Calculate(i: Inputs): (r: Result)
    ensures r.depositD >= 0.0 && r.depositM >= 0.0
    ensures r.depositD + r.depositM == Max(0.0, r.cashNeeded)
    ensures ToFinite(i.m, 0.0) >= 0.0 ==> r.cashNeeded >= 0.0 && r.depositD + r.depositM == r.cashNeeded
    ensures r.usedTRA <= r.effectiveTRA && r.usedTRB <= r.effectiveTRB
    ensures |r.steps| == 8
    ensures r.cashNeeded == R2(Work(i).cashNeeded) && r.warnings == Warnings(Work(i))
    ensures r.depositD == R2(Max(0.0, Work(i).depositD))
  {
    var w := Work(i);
    var cashNeededRounded := R2(w.cashNeeded);
    var deposits := Reconcile(w.depositD, w.cashNeeded);
    R2Monotone(w.usedTRA, w.effectiveTRA);
    R2Monotone(w.usedTRB, w.effectiveTRB);
    R2NonNegative(w.cashNeeded);
    Result(
      R2(w.effectiveTRA), R2(w.effectiveTRB), R2(w.effectiveTR),
      R2(w.usedTRA), R2(w.usedTRB), R2(w.V),
      R2(w.potTotal), cashNeededRounded,
      R2(w.shareD_raw), R2(w.shareD_biased), R2(w.shareM_biased),
      R2(w.contribEqD), R2(w.contribEqM),
      deposits.0, deposits.1,
      Warnings(w), Steps(w, cashNeededRounded, deposits.0, deposits.1))
  }

  // ----- Properties of the whole calculation -----

  /** Raising the bias never lowers A's deposit and never raises B's (with a non-negative budget). */
  lemma BiasNeverLowersDepositA(i: Inputs, lo: real, hi: real)
    requires lo <= hi && ToFinite(i.m, 0.0) >= 0.0
    ensures Calculate(i.(biasPts := Finite(lo))).depositD <= Calculate(i.(biasPts := Finite(hi))).depositD
    ensures Calculate(i.(biasPts := Finite(lo))).depositM >= Calculate(i.(biasPts := Finite(hi))).depositM
  {
    var wl, wh := Work(i.(biasPts := Finite(lo))), Work(i.(biasPts := Finite(hi)));
    BiasNeverLowersRedistributedDepositA(i, lo, hi);
    R2Monotone(Max(0.0, wl.depositD), Max(0.0, wh.depositD));
  }

  /** The same before the final rounding, with the cash need unchanged by the bias. */
  lemma BiasNeverLowersRedistributedDepositA(i: Inputs, lo: real, hi: real)
    requires lo <= hi && ToFinite(i.m, 0.0) >= 0.0
    ensures var wl, wh := Work(i.(biasPts := Finite(lo))), Work(i.(biasPts := Finite(hi)));
            wl.depositD <= wh.depositD && wl.cashNeeded == wh.cashNeeded
  {
    var wl, wh := Work(i.(biasPts := Finite(lo))), Work(i.(biasPts := Finite(hi)));
    assert wl.potTotal == wh.potTotal && wl.usedTRA == wh.usedTRA && wl.cashNeeded == wh.cashNeeded;
    assert wl.shareD_raw == wh.shareD_raw;
    BiasedShareMonotone(wl.shareD_raw, lo, hi);
    ContributionMonotone(wl.potTotal, wl.shareD_biased, wh.shareD_biased);
    assert wl.depositDRaw <= wh.depositDRaw;
  }

  /**
   * A partner whose deposit is reported as clamped pays no cash, and the
   * other partner pays the whole cash need.
   */
  lemma ClampedPartnerPaysNothing(i: Inputs)
    ensures var w := Work(i); var r := Calculate(i);
            && (DepositClamped(PartnerA, w.figures.partnerAName) in r.warnings ==>
                  r.depositD == 0.0 && r.depositM == Max(0.0, r.cashNeeded))
            && (DepositClamped(PartnerB, w.figures.partnerBName) in r.warnings ==>
                  r.depositM == 0.0 && r.depositD == Max(0.0, r.cashNeeded))
  {
    var w := Work(i);
    var r := Calculate(i);
    R2OfCents(0.0);
    if w.cashNeeded < 0.0 {
      R2Monotone(w.cashNeeded, 0.0);
      assert r.depositD == 0.0 && r.depositM == 0.0;
    } else {
      R2NonNegative(w.cashNeeded);
      assert w.depositDRaw < 0.0 ==> r.depositD == 0.0;
      assert w.depositMRaw < 0.0 ==> r.depositD == r.cashNeeded;
    }
  }

  /** The inputs with every non-finite number replaced by the value `calculate` falls back to. */
  function Normalized(i: Inputs): (n: Inputs)
    ensures !HasNaN(n)
  {
    i.(a1 := Finite(ToFinite(i.a1, 0.0)), a2 := Finite(ToFinite(i.a2, 0.0)),
       b2 := Finite(ToFinite(i.b2, 0.0)), trPct := Finite(ToFinite(i.trPct, 100.0)),
       b := Finite(ToFinite(i.b, 0.0)), m := Finite(ToFinite(i.m, 0.0)),
       E := Finite(ToFinite(i.E, 0.0)), biasPts := Finite(ToFinite(i.biasPts, 0.0)))
  }

  /** NaN and the infinities count as their fallbacks: 0, or 100 for the voucher percentage. */
  lemma NonFiniteInputsFallBack(i: Inputs)
    ensures Calculate(Normalized(i)) == Calculate(i)
  {
    assert Coerce(Normalized(i)) == Coerce(i);
  }

  /**
   * The reported shares are each rounded to cents, so their sum is within a
   * cent of 1 but need not be 1.
   */
  lemma ReportedSharesNearlyComplementary(i: Inputs)
    ensures var r := Calculate(i); 0.99 < r.shareD_biased + r.shareM_biased <= 1.01
  {
  }

  /**
   * The cash to deposit is the budget, plus, in the advanced mode, the
   * eligible expenses the spent vouchers leave uncovered.
   */
  lemma CashNeededCoversUncoveredExpenses(i: Inputs)
    ensures var m := ToFinite(i.m, 0.0); var r := Calculate(i);
            var f := SpentFraction(ToFinite(i.trPct, 100.0));
            var spent := EffectiveVoucher(ToFinite(i.a2, 0.0), f) + EffectiveVoucher(ToFinite(i.b2, 0.0), f);
            && (!i.advanced ==> r.cashNeeded == R2(m))
            && (i.advanced ==> r.cashNeeded == R2(m + Max(0.0, Max(0.0, ToFinite(i.E, 0.0)) - spent)))
  {
    var f := Coerce(i);
    var w := Derive(f);
    assert Work(i) == w;
    assert w.effectiveTR == EffectiveVoucher(f.a2, SpentFraction(f.trPct)) + EffectiveVoucher(f.b2, SpentFraction(f.trPct));
  }

  /** When A's share is one eighth, it is reported as 0.13 and B's as 0.88. */
  lemma ReportedSharesMaySumAboveOne(i: Inputs)
    requires Work(i).shareD_biased == 0.125
    ensures Calculate(i).shareD_biased + Calculate(i).shareM_biased == 1.01
  {
    assert RoundedCents(0.125) == 13;
    assert RoundedCents(0.875) == 88;
  }

  /** Weights of 100 and 700 with no bias give A a share of one eighth. */
  lemma OneEighthShare()
    ensures RawShare(100.0, 700.0) == 0.125
    ensures BiasedShare(0.125, 0.0) == 0.125
  {
  }
}
