# Japanese income-tax calculator: a Dafny model

The calculator turns a few form fields into a Japanese personal income-tax
figure:

- salary;
- side-business revenue and expense;
- counts of four kinds of dependant;
- an extra income deduction and an extra tax credit.

Its logic has three parts, and this project models all three.

- **The tax-schedule functions** (`src/lib.ts`), module `TaxSchedule` in
  `tax_schedule.dfy`. These are the salary-deduction table (National Tax Agency
  Tax Answer No.1410), the flat basic income deduction, the progressive rate and
  quick-calculation deduction (No.2260), the general and elderly spouse/dependant
  deductions (No.1191), and the truncation of taxable income to ¥1,000.
- **The input sanitiser** `safeParseInt` (`src/lib.ts`), module `SafeParse` in
  `safe_parse.dfy`. It is modelled on the global `parseInt` of ECMAScript
  (section 19.2.5 of ECMA-262): leading white space (the full StrWhiteSpaceChar
  set), an optional sign, the `0x` prefix, and the longest run of digits. The
  fallback to the default happens on NaN.
- **The page's derivation** (`src/App.tsx`, inside `App()`), module
  `TaxPipeline` in `tax_pipeline.dfy`. Nine field texts are parsed into an
  `Inputs` record. `Compute` then maps it to a `Breakdown` record in the page's
  order: net salary, business profit, net income, the six-term income
  deduction, taxable income, truncation, rate and deduction lookups, basic tax,
  the 2.1% reconstruction surtax and the total.

Amounts are exact `real`s and parsed inputs are unbounded `int`s. The source
evaluates the same rational formulas (`earning * 40 / 100`, `5 / 100`,
`basicTax * 2.1 / 100`) on doubles.

The main results:

- the salary deduction is continuous and its slope is at most 40%;
- the rate and the quick-calculation deduction pick the same bracket;
- on whole thousands of yen, the progressive tax equals the largest of the seven
  bracket formulas, so it is monotone and non-negative;
- decimal numerals round-trip through `parseInt`;
- for non-negative family dependant counts, the total tax never falls when the
  salary rises (a count of −1, which `safeParseInt("-1")` yields, breaks this).

Three places where the model follows the code literally, although the intent may have been different:

- The basic income deduction is the flat 380,000 of `src/lib.ts:25`, with no
  income-tiered variant. For a salary of 3,000,000 the
  tax is therefore 83,722 (`WorkedExample`).
- `safeParseInt` does not strip thousands separators. `parseInt` stops at the
  first comma, so `"3,000,000"` reads as 3. The page's own default salary text
  is `'3,000,000'` (`src/App.tsx:25`). Assuming `useLocalStorage` returns that
  initial text when nothing is stored (its definition is not part of this
  model), the salary is then 3 yen and the tax is 0
  (`DefaultInputsReadSalaryAsThree`).
- `src/App.tsx` imports `getSalaryDeduction`. The model takes it to be
  `getEarningDeduction` of `src/lib.ts:11`, the only salary-deduction function
  there.

## Model

| member | source | states |
|---|---|---|
| `TaxSchedule.Max` | src/App.tsx:28 | `Math.max`: the result is at least both arguments and is one of them |
| `TaxSchedule.EarningDeduction` | src/lib.ts:11-22 | the salary deduction always lies in [550,000, 1,950,000]; it is 550,000 for every salary up to 1,625,000 and the cap 1,950,000 above 8,500,000 |
| `TaxSchedule.EarningDeductionSlope` | src/lib.ts:11-22 | for x ≤ y, 0 ≤ deduction(y) − deduction(x) ≤ 40% of (y − x): non-decreasing, and continuous at every tier boundary |
| `TaxSchedule.NetEarningMonotone` | src/lib.ts:11-22 | salary minus its deduction never falls as salary rises |
| `TaxSchedule.BasicIncomeDeduction` | src/lib.ts:25 | the basic income deduction is 380,000 whatever the net income |
| `TaxSchedule.BracketIndex` | src/lib.ts:28-57 | the bracket an income falls in is the first whose inclusive upper bound is at least the income, or the open-ended one past all bounds |
| `TaxSchedule.TaxRate` | src/lib.ts:28-41 | the rate is one of 5, 10, 20, 23, 33, 40, 45 % |
| `TaxSchedule.BasicTaxDeduction` | src/lib.ts:44-57 | the quick-calculation deduction is never negative and at most 4,796,000 |
| `TaxSchedule.TaxLookupsShareBracket` | src/lib.ts:28-57 | for every income, the rate and the deduction are the entries of one bracket table at the same bracket (same six thresholds) |
| `TaxSchedule.TaxRateMonotone` | src/lib.ts:28-57 | neither the rate nor the deduction falls as income rises |
| `TaxSchedule.BracketFormulasMeet` | src/lib.ts:28-57 | at threshold + 1,000, the formula of each bracket equals that of the next one |
| `TaxSchedule.ProgressiveTax` | src/App.tsx:103 | income × rate − deduction, the page's basic tax before the credit, is never more than 45% of a non-negative income; its shape is stated by `ProgressiveTaxIsUpperEnvelope` |
| `TaxSchedule.ProgressiveTaxIsUpperEnvelope` | src/lib.ts:28-57 | on every multiple of 1,000, income × rate − deduction equals the largest of the seven bracket formulas |
| `TaxSchedule.ProgressiveTaxMonotone` | src/lib.ts:28-57 | on multiples of 1,000, income × rate − deduction never falls as income rises |
| `TaxSchedule.ProgressiveTaxNonNegative` | src/lib.ts:28-57 | on non-negative multiples of 1,000, income × rate − deduction is at least 5% of the income, hence ≥ 0 |
| `TaxSchedule.GeneralFamilyDependantDeduction` | src/lib.ts:68-69 | count × 380,000 / 260,000 / 130,000 for net income ≤ 9,000,000 / ≤ 9,500,000 / above |
| `TaxSchedule.ElderFamilyDependantDeduction` | src/lib.ts:71-72 | count × 480,000 / 320,000 / 160,000 for the same three income bands |
| `TaxSchedule.FamilyDeductionsOrdered` | src/lib.ts:68-72 | for count ≥ 0: both deductions are non-increasing in income, elderly ≥ general, and both are 0 when count = 0 |
| `TaxSchedule.Trunc` | src/lib.ts:74 | `Math.trunc`: rounds toward zero, within 1 of its argument and never farther from zero |
| `TaxSchedule.ThousandRound` | src/lib.ts:74 | the result is a multiple of 1,000; for a value ≥ 0, result ≤ value < result + 1,000; for a negative value it truncates toward zero |
| `TaxSchedule.ThousandRoundIsGreatestMultipleBelow` | src/lib.ts:74 | for a value ≥ 0, every multiple of 1,000 not above the value is at most the result |
| `TaxSchedule.ThousandRoundIdempotent` | src/lib.ts:74 | truncating twice is the same as truncating once |
| `TaxSchedule.ThousandRoundMonotone` | src/lib.ts:74 | truncation is monotone |
| `TaxSchedule.ThousandRoundExamples` | src/lib.ts:74 | 1,999 → 1,000; 2,000 → 2,000; −1,999 → −1,000 |
| `SafeParse.TrimStart` | src/lib.ts:60 | the result is no longer than the input and does not start with white space |
| `SafeParse.TrimStartRemovesOnlyWhiteSpace` | src/lib.ts:60 | the trimmed text is a suffix of the input, and every character removed in front of it is white space |
| `SafeParse.LeadingDigits` | src/lib.ts:60 | the result is the longest prefix of digits: a prefix, all digits, and followed by a non-digit or nothing |
| `SafeParse.ParseInt` | src/lib.ts:60 | a negative result only comes from text that still holds a `-` once the leading white space is gone; when it is NaN is stated by `ParseIntNaNIff`, and its inverse by `ParseIntRoundTrip` |
| `SafeParse.ParseIntNegativeNeedsLeadingMinus` | src/lib.ts:60 | a negative result means the first character past the leading white space is `-` |
| `SafeParse.SafeParseInt` | src/lib.ts:59-62 | the result is the integer the text parses to, or the default exactly when the parse is NaN |
| `SafeParse.ParseIntRoundTrip` | src/lib.ts:59-62 | every integer written in decimal parses back to itself, so `safeParseInt` returns it whatever the default |
| `SafeParse.ParseIntStopsAtNonDigit` | src/lib.ts:60 | a decimal numeral followed by any non-digit parses as the numeral, except that `0` followed by `x`/`X` starts a hexadecimal numeral |
| `SafeParse.ParseIntIgnoresLeadingWhiteSpace` | src/lib.ts:60 | leading white space does not change the result |
| `SafeParse.ParseIntNaNIff` | src/lib.ts:60-61 | the parse is NaN exactly when, after the white space and the sign, the text is empty, starts with a non-digit, or is `0x`/`0X` without a hexadecimal digit after it |
| `SafeParse.SafeParseIntFallsBack` | src/lib.ts:61 | `""`, `"abc"` and `" 0x"` give the default |
| `SafeParse.SafeParseIntStopsAtSeparator` | src/lib.ts:59-62 | `"3,000,000"` gives 3 |
| `SafeParse.SafeParseIntSignedWithSuffix` | src/lib.ts:59-62 | `" \t-42px"` gives −42 |
| `SafeParse.SafeParseIntHexadecimal` | src/lib.ts:60 | `"0x1A"` gives 26 |
| `TaxPipeline.ParseInputs` | src/App.tsx:26-101 | each of the nine fields holds the integer its text parses to, or 0 when the text parses to NaN; `ParseInputsRoundTrip` states its inverse |
| `TaxPipeline.ParseInputsRoundTrip` | src/App.tsx:25-101 | fields typed as plain decimal numerals are read as exactly those integers |
| `TaxPipeline.Compute` | src/App.tsx:26-107 | net salary and business profit are clamped at 0, so net income = their sum ≥ 0; the income deduction is exactly the six terms, with family terms read at the net income; taxable income is clamped at 0 and truncated once; rate and deduction are both read from the truncated income; basic tax is the clamped quick formula less the credit; the surtax is 2.1% of the basic tax, and the total is their sum |
| `TaxPipeline.RoundedTaxedIncomeBounds` | src/App.tsx:94-95 | the truncated taxable income is a multiple of 1,000, is ≥ 0, and rounded ≤ taxed < rounded + 1,000 |
| `TaxPipeline.BasicTaxBounds` | src/App.tsx:103-107 | with a non-negative tax credit, basic tax ≤ truncated income × rate; total = 1.021 × basic tax ≥ basic tax |
| `TaxPipeline.WorkedExample` | src/App.tsx:26-107 | salary 3,000,000 and nothing else: deduction 980,000; net income 2,020,000; truncated income 1,640,000 at 5%; basic tax 82,000; surtax 1,722; total 83,722 |
| `TaxPipeline.RoundingPrecedesLookup` | src/App.tsx:94-99 | salary 3,442,000 gives a taxable income of 1,949,400, which would be in the 10% bracket, but the lookup reads its truncation 1,949,000 at 5% |
| `TaxPipeline.DefaultInputsReadSalaryAsThree` | src/App.tsx:25-26 | the page's default texts parse to a salary of 3 and all else 0, and the tax is 0 |
| `TaxPipeline.TaxMonotoneInSalary` | src/App.tsx:26-107 | with the family counts ≥ 0 and everything else fixed, a higher salary never gives a lower total tax |

## Left out

- The JSX, labels, help text, links and images of `src/App.tsx` (lines 109-842). They are presentation only.
- `useLocalStorage`, `useLocalStorageInt` and `window.localStorage` (src/lib.ts:76-99). They are persistence with try/catch logging. The model starts from the field texts as already read (`RawInputs`).
- `currencyPreview` and the `Currency` component. They format through `toLocaleString`, a locale-dependent foreign call.
- `getNearbyTaxRates` and the "how much more income before the rate changes" hints (src/App.tsx:97, 653-658). The function is imported, but src/lib.ts does not define it, so it is not part of this model.
- `totalEarning` and `totalExpense` (src/App.tsx:36-37). They appear only in explanatory text.
- IEEE-754 rounding. The model computes the same rational expressions exactly, so for example the surtax on 82,000 is exactly 1,722.
- SafeParse.ParseInt: returns the exact integer for every digit string. JavaScript rounds values past 2^53 to the nearest double and gives Infinity for numerals beyond about 1.8 × 10^308. `safeParseInt` then falls back to the default, and the model does not capture that fallback.
- SafeParse.ParseInt: does not distinguish `-0` from `0`. The two give the same results in every later computation.
- `src/main.tsx`. It only mounts the React root.
