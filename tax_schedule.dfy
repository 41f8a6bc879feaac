/**
 The tax-schedule functions of the calculator: the salary (earning) deduction,
 the basic income deduction, the progressive rate and its quick-calculation
 deduction, the spouse and dependant deductions, and the truncation of taxable
 income to a multiple of 1,000 yen.

 The program evaluates these formulas on floating-point numbers; every one of
 them is a rational expression of its inputs, so the model computes them
 exactly on `real`.
 */
module TaxSchedule {

  /** `Math.max` on two amounts. */
  function Max(a: real, b: real): (r: real)
    ensures r >= a && r >= b
    ensures r == a || r == b
  {
    if a >= b then a else b
  }

  // ---------------------------------------------------------------------------
  // Salary deduction (National Tax Agency, Tax Answer No.1410)
  // ---------------------------------------------------------------------------

  /** The salary deduction for a gross salary: a flat 550,000 up to 1,625,000,
      four linear tiers, and the cap 1,950,000 above 8,500,000. */
  function EarningDeduction(earning: real): (r: real)
    ensures 550_000.0 <= r <= 1_950_000.0
    ensures earning <= 1_625_000.0 ==> r == 550_000.0
    ensures earning > 8_500_000.0 ==> r == 1_950_000.0
  {
    if earning <= 1_625_000.0 then 550_000.0
    else if earning <= 1_800_000.0 then earning * 40.0 / 100.0 - 100_000.0
    else if earning <= 3_600_000.0 then earning * 30.0 / 100.0 + 80_000.0
    else if earning <= 6_600_000.0 then earning * 20.0 / 100.0 + 440_000.0
    else if earning <= 8_500_000.0 then earning * 10.0 / 100.0 + 1_100_000.0
    else 1_950_000.0
  }

  /** The deduction never falls as salary rises, and it never rises by more
      than 40% of the salary increase: it is continuous at every tier boundary
      (1,625,000 / 1,800,000 / 3,600,000 / 6,600,000 / 8,500,000). */
  lemma EarningDeductionSlope(x: real, y: real)
    requires x <= y
    ensures 0.0 <= EarningDeduction(y) - EarningDeduction(x) <= (y - x) * 40.0 / 100.0
  {
  }

  /** What remains of a salary after its deduction never falls as the salary rises. */
  lemma NetEarningMonotone(x: real, y: real)
    requires x <= y
    ensures x - EarningDeduction(x) <= y - EarningDeduction(y)
  {
    EarningDeductionSlope(x, y);
  }

  // ---------------------------------------------------------------------------
  // Basic income deduction (Tax Answer No.1199)
  // ---------------------------------------------------------------------------

  /** The flat basic income deduction: 380,000 whatever the net income. */
  function BasicIncomeDeduction(deductedEarning: real): (r: real)
    ensures r == 380_000.0
  {
    380_000.0
  }

  // ---------------------------------------------------------------------------
  // Progressive rate and quick-calculation deduction (Tax Answer No.2260)
  // ---------------------------------------------------------------------------

  /** Inclusive upper bounds of the six lower brackets; the seventh is open-ended. */
  const TaxThresholds: seq<int> :=
    [1_949_000, 3_299_000, 6_949_000, 8_999_000, 17_999_000, 39_999_000]

  /** The rate of each bracket, lowest first. */
  const TierRates: seq<real> := [0.05, 0.10, 0.20, 0.23, 0.33, 0.40, 0.45]

  /** The quick-calculation deduction of each bracket, lowest first. */
  const TierDeductions: seq<int> := [0, 97_500, 427_500, 636_000, 1_536_000, 2_796_000, 4_796_000]

  /** The bracket an income falls in under a table of inclusive upper bounds:
      the first bracket whose bound is at least the income, or the open-ended
      bracket past the last bound. */
  function BracketIndex(bounds: seq<int>, income: real): (t: nat)
    ensures t <= |bounds|
    ensures forall k :: 0 <= k < t ==> (bounds[k] as real) < income
    ensures t < |bounds| ==> income <= bounds[t] as real
  {
    if bounds == [] then 0
    else if income <= bounds[0] as real then 0
    else 1 + BracketIndex(bounds[1..], income)
  }

  /** The marginal rate for a taxable income. */
  function TaxRate(deductedIncome: real): (r: real)
    ensures r in {0.05, 0.10, 0.20, 0.23, 0.33, 0.40, 0.45}
  {
    if deductedIncome <= 1_949_000.0 then 5.0 / 100.0
    else if deductedIncome <= 3_299_000.0 then 10.0 / 100.0
    else if deductedIncome <= 6_949_000.0 then 20.0 / 100.0
    else if deductedIncome <= 8_999_000.0 then 23.0 / 100.0
    else if deductedIncome <= 17_999_000.0 then 33.0 / 100.0
    else if deductedIncome <= 39_999_000.0 then 40.0 / 100.0
    else 45.0 / 100.0
  }

  /** The quick-calculation deduction for a taxable income. */
  function BasicTaxDeduction(deductedIncome: real): (r: int)
    ensures 0 <= r <= 4_796_000
  {
    if deductedIncome <= 1_949_000.0 then 0
    else if deductedIncome <= 3_299_000.0 then 97_500
    else if deductedIncome <= 6_949_000.0 then 427_500
    else if deductedIncome <= 8_999_000.0 then 636_000
    else if deductedIncome <= 17_999_000.0 then 1_536_000
    else if deductedIncome <= 39_999_000.0 then 2_796_000
    else 4_796_000
  }

  /** The rate and the deduction split incomes at the same thresholds: both are
      the entry of one bracket table at the bracket the income falls in. */
  lemma TaxLookupsShareBracket(income: real)
    ensures TaxRate(income) == TierRates[BracketIndex(TaxThresholds, income)]
    ensures BasicTaxDeduction(income) == TierDeductions[BracketIndex(TaxThresholds, income)]
  {
    var t := BracketIndex(TaxThresholds, income);
    if t > 0 { assert (TaxThresholds[t - 1] as real) < income; }
    if t < |TaxThresholds| { assert income <= TaxThresholds[t] as real; }
  }

  /** The rate never falls as income rises. */
  lemma TaxRateMonotone(x: real, y: real)
    requires x <= y
    ensures TaxRate(x) <= TaxRate(y)
    ensures BasicTaxDeduction(x) <= BasicTaxDeduction(y)
  {
  }

  /** Income tax before any additional tax credit: income times its rate minus
      its quick-calculation deduction. */
  function ProgressiveTax(income: real): (t: real)
    // no income is taxed at more than the top rate of 45%
    ensures income >= 0.0 ==> t <= income * 45.0 / 100.0
  {
    income * TaxRate(income) - BasicTaxDeduction(income) as real
  }

  /** The linear formula of bracket `i`, evaluated at any income. */
  function BracketFormula(i: nat, income: real): (t: real)
    requires i < |TierRates| && i < |TierDeductions|
  {
    income * TierRates[i] - TierDeductions[i] as real
  }

  /** The deduction constants make neighbouring formulas agree at the first
      whole-thousand income past each threshold. */
  lemma BracketFormulasMeet(i: nat)
    requires i < |TaxThresholds|
    ensures BracketFormula(i, (TaxThresholds[i] + 1000) as real)
         == BracketFormula(i + 1, (TaxThresholds[i] + 1000) as real)
  {
  }

  /** The largest of the seven bracket formulas. */
  function UpperEnvelope(income: real): (r: real)
    ensures forall i :: 0 <= i < |TierRates| ==> BracketFormula(i, income) <= r
  {
    Max(BracketFormula(0, income),
    Max(BracketFormula(1, income),
    Max(BracketFormula(2, income),
    Max(BracketFormula(3, income),
    Max(BracketFormula(4, income),
    Max(BracketFormula(5, income), BracketFormula(6, income)))))))
  }

  /** Every bracket formula has a non-negative rate, so their maximum never
      falls as income rises. */
  lemma UpperEnvelopeMonotone(x: real, y: real)
    requires x <= y
    ensures UpperEnvelope(x) <= UpperEnvelope(y)
  {
    forall i | 0 <= i < |TierRates|
      ensures BracketFormula(i, x) <= UpperEnvelope(y)
    {
      assert BracketFormula(i, x) <= BracketFormula(i, y);
    }
  }

  /** On whole thousands of yen the progressive tax is the largest of the
      seven bracket formulas: the bracket an income falls in is the one whose
      formula is largest there. */
  lemma {:induction false} ProgressiveTaxIsUpperEnvelope(k: int)
    ensures ProgressiveTax((k * 1000) as real) == UpperEnvelope((k * 1000) as real)
  {
    var x := (k * 1000) as real;
    if k <= 1949 {
      assert ProgressiveTax(x) == BracketFormula(0, x);
    } else if k <= 3299 {
      assert ProgressiveTax(x) == BracketFormula(1, x);
    } else if k <= 6949 {
      assert ProgressiveTax(x) == BracketFormula(2, x);
    } else if k <= 8999 {
      assert ProgressiveTax(x) == BracketFormula(3, x);
    } else if k <= 17999 {
      assert ProgressiveTax(x) == BracketFormula(4, x);
    } else if k <= 39999 {
      assert ProgressiveTax(x) == BracketFormula(5, x);
    } else {
      assert ProgressiveTax(x) == BracketFormula(6, x);
    }
  }

  /** On whole thousands of yen the progressive tax never falls as income rises. */
  lemma {:induction false} ProgressiveTaxMonotone(a: int, b: int)
    requires a <= b
    ensures ProgressiveTax((a * 1000) as real) <= ProgressiveTax((b * 1000) as real)
  {
    ProgressiveTaxIsUpperEnvelope(a);
    ProgressiveTaxIsUpperEnvelope(b);
    UpperEnvelopeMonotone((a * 1000) as real, (b * 1000) as real);
  }

  /** On non-negative whole thousands of yen the progressive tax is never
      negative: it is at least 5% of the income. */
  lemma {:induction false} ProgressiveTaxNonNegative(k: nat)
    ensures ProgressiveTax((k * 1000) as real) >= (k * 1000) as real * 5.0 / 100.0 >= 0.0
  {
    ProgressiveTaxIsUpperEnvelope(k);
    assert BracketFormula(0, (k * 1000) as real) <= UpperEnvelope((k * 1000) as real);
  }

  // ---------------------------------------------------------------------------
  // Spouse and dependant deductions (Tax Answer No.1191)
  // ---------------------------------------------------------------------------

  /** The deduction for `count` general spouses/dependants: 380,000 each up to a
      net income of 9,000,000, 260,000 each up to 9,500,000, 130,000 above. */
  function GeneralFamilyDependantDeduction(count: int, income: real): (r: real)
    ensures income <= 9_000_000.0 ==> r == (count * 380_000) as real
    ensures 9_000_000.0 < income <= 9_500_000.0 ==> r == (count * 260_000) as real
    ensures 9_500_000.0 < income ==> r == (count * 130_000) as real
  {
    (count * (if income <= 9_000_000.0 then 380_000 else if income <= 9_500_000.0 then 260_000 else 130_000)) as real
  }

  /** The deduction for `count` elderly spouses/dependants: 480,000 each up to a
      net income of 9,000,000, 320,000 each up to 9,500,000, 160,000 above. */
  function ElderFamilyDependantDeduction(count: int, income: real): (r: real)
    ensures income <= 9_000_000.0 ==> r == (count * 480_000) as real
    ensures 9_000_000.0 < income <= 9_500_000.0 ==> r == (count * 320_000) as real
    ensures 9_500_000.0 < income ==> r == (count * 160_000) as real
  {
    (count * (if income <= 9_000_000.0 then 480_000 else if income <= 9_500_000.0 then 320_000 else 160_000)) as real
  }

  /** For a non-negative count, both deductions shrink (weakly) as net income
      rises, the elderly one is never below the general one, and both vanish
      when there is nobody to count. */
  lemma FamilyDeductionsOrdered(count: int, x: real, y: real)
    requires count >= 0 && x <= y
    ensures GeneralFamilyDependantDeduction(count, y) <= GeneralFamilyDependantDeduction(count, x)
    ensures ElderFamilyDependantDeduction(count, y) <= ElderFamilyDependantDeduction(count, x)
    ensures GeneralFamilyDependantDeduction(count, x) <= ElderFamilyDependantDeduction(count, x)
    ensures count == 0 ==> GeneralFamilyDependantDeduction(count, x) == 0.0 == ElderFamilyDependantDeduction(count, x)
  {
  }

  // ---------------------------------------------------------------------------
  // Truncation to 1,000 yen
  // ---------------------------------------------------------------------------

  /** `Math.trunc`: the integer part, rounding toward zero. */
  function Trunc(x: real): (r: int)
    ensures x >= 0.0 ==> 0 <= r && r as real <= x < r as real + 1.0
    ensures x < 0.0 ==> r <= 0 && x <= r as real < x + 1.0
  {
    if x >= 0.0 then x.Floor else -((-x).Floor)
  }

  /** Taxable income truncated toward zero to a multiple of 1,000 yen. */
  function ThousandRound(value: real): (r: int)
    ensures r % 1000 == 0
    ensures value >= 0.0 ==> 0 <= r && r as real <= value < r as real + 1000.0
    ensures value < 0.0 ==> r <= 0 && value <= r as real < value + 1000.0
  {
    Trunc(value / 1000.0) * 1000
  }

  /** For a non-negative value the result is the largest multiple of 1,000 not above it. */
  lemma ThousandRoundIsGreatestMultipleBelow(value: real, m: int)
    requires value >= 0.0 && m % 1000 == 0 && m as real <= value
    ensures m <= ThousandRound(value)
  {
    var q := m / 1000;
    assert (q as real) * 1000.0 == m as real;
    assert q as real <= value / 1000.0;
  }

  /** Truncating an amount that is already truncated changes nothing. */
  lemma ThousandRoundIdempotent(value: real)
    ensures ThousandRound(ThousandRound(value) as real) == ThousandRound(value)
  {
    var r := ThousandRound(value);
    assert (r as real) / 1000.0 == (r / 1000) as real;
  }

  /** Truncation never turns a larger amount into a smaller one. */
  lemma ThousandRoundMonotone(x: real, y: real)
    requires x <= y
    ensures ThousandRound(x) <= ThousandRound(y)
  {
    assert x / 1000.0 <= y / 1000.0;
  }

  lemma ThousandRoundExamples()
    ensures ThousandRound(1999.0) == 1000
    ensures ThousandRound(2000.0) == 2000
    ensures ThousandRound(-1999.0) == -1000
  {
  }
}
