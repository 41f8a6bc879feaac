/**
 The tax computation of the calculator's page: the raw texts of nine input
 fields are sanitised to integers, and from them the page derives, in one
 straight line, the net salary, the side-business profit, the net income, the
 total income deduction, the taxable income and its truncation to 1,000 yen,
 the rate and quick-calculation deduction, the basic tax, the 2.1% reconstruction
 surtax and the total tax.
 */
module TaxPipeline {
  import opened TaxSchedule
  import opened SafeParse

  /** The texts of the input fields, as the page holds them. */
  datatype RawInputs = RawInputs(
    salary: string,
    businessRevenue: string,
    businessExpense: string,
    generalFamilyDependantCount: string,
    elderFamilyDependantCount: string,
    studentDependantCount: string,
    generalDependantCount: string,
    otherIncomeDeduction: string,
    otherTaxDeduction: string)

  /** The sanitised inputs. `parseInt` can yield any integer, so nothing here
      is assumed non-negative. */
  datatype Inputs = Inputs(
    salary: int,
    businessRevenue: int,
    businessExpense: int,
    generalFamilyDependantCount: int,
    elderFamilyDependantCount: int,
    studentDependantCount: int,
    generalDependantCount: int,
    otherIncomeDeduction: int,
    otherTaxDeduction: int)

  /** Every amount the page derives from the inputs. */
  datatype Breakdown = Breakdown(
    salaryDeduction: real,
    netSalary: real,
    businessProfit: real,
    netIncome: real,
    basicIncomeDeduction: real,
    generalFamilyDependantDeduction: real,
    elderFamilyDependantDeduction: real,
    studentDependantDeduction: real,
    generalDependantDeduction: real,
    incomeDeduction: real,
    taxedIncome: real,
    roundedTaxedIncome: int,
    taxRate: real,
    basicTaxDeduction: real,
    basicTax: real,
    disasterTax: real,
    tax: real)

  /** The texts the fields start with when nothing has been stored yet. */
  const DefaultRawInputs: RawInputs := RawInputs("3,000,000", "0", "0", "0", "0", "0", "0", "0", "0")

  /** Each field through `safeParseInt` with the default 0: a field holds the
      integer its text parses to, or 0 when that text parses to NaN. */
  function ParseInputs(raw: RawInputs): (i: Inputs)
    ensures ParseInt(raw.salary) == Some(i.salary) || (ParseInt(raw.salary) == None && i.salary == 0)
    ensures ParseInt(raw.businessRevenue) == Some(i.businessRevenue) || (ParseInt(raw.businessRevenue) == None && i.businessRevenue == 0)
    ensures ParseInt(raw.businessExpense) == Some(i.businessExpense) || (ParseInt(raw.businessExpense) == None && i.businessExpense == 0)
    ensures ParseInt(raw.generalFamilyDependantCount) == Some(i.generalFamilyDependantCount) || (ParseInt(raw.generalFamilyDependantCount) == None && i.generalFamilyDependantCount == 0)
    ensures ParseInt(raw.elderFamilyDependantCount) == Some(i.elderFamilyDependantCount) || (ParseInt(raw.elderFamilyDependantCount) == None && i.elderFamilyDependantCount == 0)
    ensures ParseInt(raw.studentDependantCount) == Some(i.studentDependantCount) || (ParseInt(raw.studentDependantCount) == None && i.studentDependantCount == 0)
    ensures ParseInt(raw.generalDependantCount) == Some(i.generalDependantCount) || (ParseInt(raw.generalDependantCount) == None && i.generalDependantCount == 0)
    ensures ParseInt(raw.otherIncomeDeduction) == Some(i.otherIncomeDeduction) || (ParseInt(raw.otherIncomeDeduction) == None && i.otherIncomeDeduction == 0)
    ensures ParseInt(raw.otherTaxDeduction) == Some(i.otherTaxDeduction) || (ParseInt(raw.otherTaxDeduction) == None && i.otherTaxDeduction == 0)
  {
    Inputs(
      SafeParseInt(raw.salary, 0),
      SafeParseInt(raw.businessRevenue, 0),
      SafeParseInt(raw.businessExpense, 0),
      SafeParseInt(raw.generalFamilyDependantCount, 0),
      SafeParseInt(raw.elderFamilyDependantCount, 0),
      SafeParseInt(raw.studentDependantCount, 0),
      SafeParseInt(raw.generalDependantCount, 0),
      SafeParseInt(raw.otherIncomeDeduction, 0),
      SafeParseInt(raw.otherTaxDeduction, 0))
  }

  /** Every field written as a plain decimal numeral. */
  function RenderInputs(i: Inputs): (raw: RawInputs)
  {
    RawInputs(
      ToDecimal(i.salary),
      ToDecimal(i.businessRevenue),
      ToDecimal(i.businessExpense),
      ToDecimal(i.generalFamilyDependantCount),
      ToDecimal(i.elderFamilyDependantCount),
      ToDecimal(i.studentDependantCount),
      ToDecimal(i.generalDependantCount),
      ToDecimal(i.otherIncomeDeduction),
      ToDecimal(i.otherTaxDeduction))
  }

  /** Whatever integers are typed as plain numerals are the integers the page computes with. */
  lemma ParseInputsRoundTrip(i: Inputs)
    ensures ParseInputs(RenderInputs(i)) == i
  {
    ParseIntRoundTrip(i.salary);
    ParseIntRoundTrip(i.businessRevenue);
    ParseIntRoundTrip(i.businessExpense);
    ParseIntRoundTrip(i.generalFamilyDependantCount);
    ParseIntRoundTrip(i.elderFamilyDependantCount);
    ParseIntRoundTrip(i.studentDependantCount);
    ParseIntRoundTrip(i.generalDependantCount);
    ParseIntRoundTrip(i.otherIncomeDeduction);
    ParseIntRoundTrip(i.otherTaxDeduction);
  }

  /** The whole derivation, in the page's order. */
  function Compute(i: Inputs): (b: Breakdown)
    // earnings: both clamped at zero, so the net income is never negative
    ensures b.salaryDeduction == EarningDeduction(i.salary as real)
    ensures b.netSalary >= 0.0 && b.netSalary >= i.salary as real - b.salaryDeduction
    ensures b.netSalary == 0.0 || b.netSalary == i.salary as real - b.salaryDeduction
    ensures b.businessProfit >= 0.0 && b.businessProfit >= (i.businessRevenue - i.businessExpense) as real
    ensures b.businessProfit == 0.0 || b.businessProfit == (i.businessRevenue - i.businessExpense) as real
    ensures b.netIncome == b.netSalary + b.businessProfit >= 0.0
    // income deduction: exactly six terms, the family ones read at the net income
    ensures b.basicIncomeDeduction == 380_000.0
    ensures b.generalFamilyDependantDeduction == GeneralFamilyDependantDeduction(i.generalFamilyDependantCount, b.netIncome)
    ensures b.elderFamilyDependantDeduction == ElderFamilyDependantDeduction(i.elderFamilyDependantCount, b.netIncome)
    ensures b.studentDependantDeduction == (i.studentDependantCount * 630_000) as real
    ensures b.generalDependantDeduction == (i.generalDependantCount * 380_000) as real
    ensures b.incomeDeduction == b.basicIncomeDeduction + b.generalFamilyDependantDeduction
      + b.elderFamilyDependantDeduction + b.studentDependantDeduction + b.generalDependantDeduction
      + i.otherIncomeDeduction as real
    // taxable income: clamped at zero, then truncated once to whole thousands
    ensures b.taxedIncome >= 0.0 && b.taxedIncome >= b.netIncome - b.incomeDeduction
    ensures b.taxedIncome == 0.0 || b.taxedIncome == b.netIncome - b.incomeDeduction
    ensures b.roundedTaxedIncome == ThousandRound(b.taxedIncome)
    // both lookups read the truncated income
    ensures b.taxRate == TaxRate(b.roundedTaxedIncome as real)
    ensures b.basicTaxDeduction == BasicTaxDeduction(b.roundedTaxedIncome as real) as real
    // basic tax: the quick-calculation formula less the tax credit, clamped at zero
    ensures b.basicTax >= 0.0
    ensures b.basicTax >= ProgressiveTax(b.roundedTaxedIncome as real) - i.otherTaxDeduction as real
    ensures b.basicTax == 0.0 || b.basicTax == ProgressiveTax(b.roundedTaxedIncome as real) - i.otherTaxDeduction as real
    // surtax and total
    ensures b.disasterTax == b.basicTax * 21.0 / 1000.0
    ensures b.tax == b.basicTax + b.disasterTax
  {
    var salary := i.salary as real;
    var salaryDeduction := EarningDeduction(salary);
    var netSalary := Max(salary - salaryDeduction, 0.0);

    var businessProfit := Max((i.businessRevenue - i.businessExpense) as real, 0.0);

    var netIncome := netSalary + businessProfit;

    var basicIncomeDeduction := BasicIncomeDeduction(netIncome);
    var generalFamilyDependantDeduction := GeneralFamilyDependantDeduction(i.generalFamilyDependantCount, netIncome);
    var elderFamilyDependantDeduction := ElderFamilyDependantDeduction(i.elderFamilyDependantCount, netIncome);
    var studentDependantDeduction := (i.studentDependantCount * 630_000) as real;
    var generalDependantDeduction := (i.generalDependantCount * 380_000) as real;
    var incomeDeduction :=
      basicIncomeDeduction
      + generalFamilyDependantDeduction
      + elderFamilyDependantDeduction
      + studentDependantDeduction
      + generalDependantDeduction
      + i.otherIncomeDeduction as real;

    var taxedIncome := Max(netIncome - incomeDeduction, 0.0);
    var roundedTaxedIncome := ThousandRound(taxedIncome);
    assert roundedTaxedIncome >= 0;
    var taxRate := TaxRate(roundedTaxedIncome as real);
    var basicTaxDeduction := BasicTaxDeduction(roundedTaxedIncome as real) as real;

    assert roundedTaxedIncome as real * taxRate - basicTaxDeduction == ProgressiveTax(roundedTaxedIncome as real);
    var basicTax := Max(roundedTaxedIncome as real * taxRate - basicTaxDeduction - i.otherTaxDeduction as real, 0.0);
    var disasterTax := basicTax * 2.1 / 100.0;
    var tax := basicTax + disasterTax;

    Breakdown(
      salaryDeduction, netSalary, businessProfit, netIncome,
      basicIncomeDeduction, generalFamilyDependantDeduction, elderFamilyDependantDeduction,
      studentDependantDeduction, generalDependantDeduction, incomeDeduction,
      taxedIncome, roundedTaxedIncome, taxRate, basicTaxDeduction,
      basicTax, disasterTax, tax)
  }

  /** The taxable income is truncated to whole thousands, within 1,000 yen of
      the untruncated amount. */
  lemma RoundedTaxedIncomeBounds(i: Inputs)
    ensures var b := Compute(i);
      && b.roundedTaxedIncome % 1000 == 0
      && 0 <= b.roundedTaxedIncome
      && b.roundedTaxedIncome as real <= b.taxedIncome < b.roundedTaxedIncome as real + 1000.0
  {
  }

  /** The basic tax never exceeds the truncated income times its rate when the
      tax credit is not negative, since the quick-calculation deduction never
      is; the total is 102.1% of the basic tax. */
  lemma BasicTaxBounds(i: Inputs)
    ensures i.otherTaxDeduction >= 0 ==>
      Compute(i).basicTax <= Compute(i).roundedTaxedIncome as real * Compute(i).taxRate
    ensures Compute(i).tax == Compute(i).basicTax * 1021.0 / 1000.0
    ensures Compute(i).tax >= Compute(i).basicTax
  {
    var b := Compute(i);
    RoundedTaxedIncomeBounds(i);
    ProductNonNegative(b.roundedTaxedIncome as real, b.taxRate);
  }

  /** The product of two non-negative amounts is non-negative. */
  lemma ProductNonNegative(x: real, y: real)
    requires 0.0 <= x && 0.0 <= y
    ensures 0.0 <= x * y
  {
  }

  /** A salary of 3,000,000 and nothing else. */
  lemma WorkedExample()
    ensures var b := Compute(Inputs(3_000_000, 0, 0, 0, 0, 0, 0, 0, 0));
      && b.salaryDeduction == 980_000.0
      && b.netIncome == 2_020_000.0
      && b.basicIncomeDeduction == 380_000.0
      && b.incomeDeduction == 380_000.0
      && b.roundedTaxedIncome == 1_640_000
      && b.taxRate == 0.05
      && b.basicTaxDeduction == 0.0
      && b.basicTax == 82_000.0
      && b.disasterTax == 1_722.0
      && b.tax == 83_722.0
  {
  }

  /** The lookups read the truncated income, and that matters: a salary of
      3,442,000 leaves a taxable income of 1,949,400, which lies in the 10%
      bracket, but its truncation 1,949,000 lies in the 5% bracket. */
  lemma RoundingPrecedesLookup()
    ensures var b := Compute(Inputs(3_442_000, 0, 0, 0, 0, 0, 0, 0, 0));
      && b.taxedIncome == 1_949_400.0
      && b.roundedTaxedIncome == 1_949_000
      && b.taxRate == 0.05
      && TaxRate(b.taxedIncome) == 0.10
      && b.basicTax == 97_450.0
  {
  }

  /** The page's own starting texts: `parseInt` stops at the first comma, so the
      salary field's "3,000,000" is read as 3 yen and no tax is due. */
  lemma DefaultInputsReadSalaryAsThree()
    ensures ParseInputs(DefaultRawInputs) == Inputs(3, 0, 0, 0, 0, 0, 0, 0, 0)
    ensures Compute(ParseInputs(DefaultRawInputs)).tax == 0.0
  {
    ParseIntGroupedNumeral();
    ParseIntRoundTrip(0);
    assert ToDecimal(0) == "0";
    ParseInputsOfParsed(DefaultRawInputs, Inputs(3, 0, 0, 0, 0, 0, 0, 0, 0));
    TaxOnThreeYen();
  }

  /** Texts that each parse to an integer give the inputs made of those integers. */
  lemma ParseInputsOfParsed(raw: RawInputs, i: Inputs)
    requires ParseInt(raw.salary) == Some(i.salary)
    requires ParseInt(raw.businessRevenue) == Some(i.businessRevenue)
    requires ParseInt(raw.businessExpense) == Some(i.businessExpense)
    requires ParseInt(raw.generalFamilyDependantCount) == Some(i.generalFamilyDependantCount)
    requires ParseInt(raw.elderFamilyDependantCount) == Some(i.elderFamilyDependantCount)
    requires ParseInt(raw.studentDependantCount) == Some(i.studentDependantCount)
    requires ParseInt(raw.generalDependantCount) == Some(i.generalDependantCount)
    requires ParseInt(raw.otherIncomeDeduction) == Some(i.otherIncomeDeduction)
    requires ParseInt(raw.otherTaxDeduction) == Some(i.otherTaxDeduction)
    ensures ParseInputs(raw) == i
  {
  }

  /** A salary of 3 yen is wholly absorbed by the minimum salary deduction. */
  lemma TaxOnThreeYen()
    ensures Compute(Inputs(3, 0, 0, 0, 0, 0, 0, 0, 0)).tax == 0.0
  {
  }

  /** With everything but the salary fixed and non-negative family counts, a
      higher salary never gives a lower total tax. */
  lemma {:induction false} TaxMonotoneInSalary(i: Inputs, salary: int)
    requires i.salary <= salary
    requires i.generalFamilyDependantCount >= 0 && i.elderFamilyDependantCount >= 0
    ensures Compute(i).tax <= Compute(i.(salary := salary)).tax
  {
    var j := i.(salary := salary);
    var b1, b2 := Compute(i), Compute(j);
    NetEarningMonotone(i.salary as real, salary as real);
    assert b1.netSalary <= b2.netSalary;
    assert b1.netIncome <= b2.netIncome;
    FamilyDeductionsOrdered(i.generalFamilyDependantCount, b1.netIncome, b2.netIncome);
    FamilyDeductionsOrdered(i.elderFamilyDependantCount, b1.netIncome, b2.netIncome);
    assert b2.incomeDeduction <= b1.incomeDeduction;
    assert b1.taxedIncome <= b2.taxedIncome;
    ThousandRoundMonotone(b1.taxedIncome, b2.taxedIncome);
    var k1, k2 := b1.roundedTaxedIncome / 1000, b2.roundedTaxedIncome / 1000;
    assert k1 * 1000 == b1.roundedTaxedIncome && k2 * 1000 == b2.roundedTaxedIncome;
    ProgressiveTaxMonotone(k1, k2);
    assert b1.basicTax <= b2.basicTax;
  }
}
