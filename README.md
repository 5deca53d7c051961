# Financial ratio engine

This project models the ratio engine of the financial-statement analyzer:
`calculateFinancialRatios` in `lib/ratios.ts`, with its inner guard `safeDivide`
and the `FinancialRatios` output record. The engine takes three flat statements
(income statement, balance sheet, cash flow), each a map from line-item name to
amount. It returns fifteen ratios in five categories: liquidity, leverage,
profitability, efficiency and coverage.

The model has four modules:

- `JsNumber` (`js_number.dfy`) covers the JavaScript numbers the engine touches.
  A number is a finite amount (an exact `real`), +Infinity, -Infinity or NaN.
  It defines `+`, `-` and `*` on these numbers, the global `isFinite`,
  truthiness, and the `||` operator on property reads. A property read is
  `undefined` or a number.
- `Ratios` (`ratios.dfy`) holds the data model and the engine. `Prop` encodes the
  property read `statement.key`, which gives `undefined` for an absent key.
  `Read` performs the `const` bindings that read amounts through `|| 0`.
  `RatiosOf` builds the five categories from those readings. `Compute` is `calculateFinancialRatios`.
- `RatioReference` (`reference.dfy`) restates the fifteen formulas directly
  over real amounts. It is an independent reference definition.
- `RatioProperties` (`ratio_properties.dfy`) holds the lemmas. They cover the
  guard, the `|| 0` fallback, empty input, the equity fallback, the shared
  denominators, the duplicated interest-coverage field, the 10% debt-service
  assumption, and independence from the cash-flow statement. There is an
  agreement with the reference definition for every pair of all-finite
  statements, and a worked example.

Every read goes through `|| 0`, so a missing key, `0` and `NaN` all read as 0.
Every ratio goes through `safeDivide`, so each of the fifteen fields is a finite
real whatever the input. An infinity survives `|| 0` because it is truthy, but
`safeDivide` then maps it to 0.

## Model

| member | source | states |
|---|---|---|
| JsNumber.Add | lib/ratios.ts:48 | The sum is finite exactly when both operands are. It is NaN exactly when an operand is NaN or the operands are opposite infinities. For finite operands it is their real sum. |
| JsNumber.Sub | lib/ratios.ts:54 | The difference is finite exactly when both operands are. For finite operands it is their real difference. |
| JsNumber.Mul | lib/ratios.ts:85 | The product is finite exactly when both factors are. It is NaN exactly when a factor is NaN or an infinity meets zero. For finite factors it is their real product. |
| JsNumber.Or | lib/ratios.ts:59 | `x \|\| y` is truthy exactly when either operand is. It is always one of the operands: the left operand when that is truthy, else the right one. |
| JsNumber.OrZero | lib/ratios.ts:47 | `x \|\| 0` never yields NaN and agrees with `Or` applied to the number 0. |
| Ratios.Input | lib/ratios.ts:47-51 | A line item reads as its amount when present and not NaN, and as 0 otherwise. An infinity is kept. |
| Ratios.Equity | lib/ratios.ts:59 | Equity is TotalEquity when that read is truthy. Otherwise it is ShareholdersEquity read through `\|\| 0`. It is never NaN. |
| Ratios.SafeDivide | lib/ratios.ts:39-44 | The result is 0 for a zero denominator, for any numerator. It is 0 when either operand is not finite. Otherwise it is the quotient. |
| Ratios.Compute | lib/ratios.ts:66 | `leverage.interestCoverage` always equals `coverage.timesInterestEarned`, and both are 0 when InterestExpense reads as 0. |
| RatioProperties.SafeDivideZeroIff | lib/ratios.ts:40-43 | The guard returns 0 exactly when an operand is not finite, the denominator is 0, or the numerator is 0. |
| RatioProperties.PropAfterWrite | lib/ratios.ts:47-80 | After storing an amount under a key, reading that key gives the amount and reading any other key gives what it gave before. |
| RatioProperties.PropAfterDelete | lib/ratios.ts:47-80 | After deleting a key, reading that key gives `undefined` and reading any other key gives what it gave before. |
| RatioProperties.FalsyReadsAsAbsent | lib/ratios.ts:47-71 | Storing 0 or NaN under a key reads the same as leaving the key out, for every input read and for the equity fallback. |
| RatioProperties.ReadFalsyAsAbsent | lib/ratios.ts:47-80 | Replacing any key's amount by 0 or NaN, in either statement, leaves every reading unchanged compared with deleting that key. |
| RatioProperties.ComputeFalsyAsAbsent | lib/ratios.ts:35-113 | Replacing any key's amount by 0 or NaN, in either statement, leaves all fifteen ratios unchanged compared with deleting that key. |
| RatioProperties.EmptyStatementsReadZero | lib/ratios.ts:47-71 | With both statements empty, every reading is 0. |
| RatioProperties.ZeroReadingsGiveZeroRatios | lib/ratios.ts:53-85 | All-zero readings give all fifteen ratios 0. |
| RatioProperties.EmptyStatementsGiveZeroRatios | lib/ratios.ts:87-113 | Empty statements give all fifteen output fields 0, whatever the cash-flow statement holds. |
| RatioProperties.CashFlowIgnored | lib/ratios.ts:36 | Replacing the cash-flow statement by any other statement leaves the result unchanged. |
| RatioProperties.EquityResolution | lib/ratios.ts:59 | Equity is TotalEquity if it is present, nonzero and not NaN. Otherwise it is ShareholdersEquity under the same test. Otherwise it is 0. |
| RatioProperties.EquityDenominator | lib/ratios.ts:64-73 | `debtToEquity` and `roe` both divide by that resolved equity. |
| RatioProperties.EquityFallbackExample | lib/ratios.ts:59 | TotalEquity 0 with ShareholdersEquity 500 gives 500. A missing TotalEquity with ShareholdersEquity 500 gives 500. TotalEquity 2000 wins over 500. TotalEquity NaN with nothing else gives 0. |
| RatioProperties.LiquiditySharedDenominator | lib/ratios.ts:48-55 | The three liquidity ratios divide by the same AccountsPayable + ShortTermDebt. The current ratio minus the quick ratio is Inventory over that denominator. |
| RatioProperties.LiquidityGuard | lib/ratios.ts:40-55 | A zero or non-finite current-liabilities sum makes all three liquidity ratios 0. |
| RatioProperties.NonFiniteAssetsGiveZero | lib/ratios.ts:60-81 | A non-finite TotalAssets makes debtToAssets, roa and assetTurnover 0. |
| RatioProperties.ProfitabilityIsPercent | lib/ratios.ts:73-76 | With finite amounts and nonzero denominators, each profitability ratio is its quotient times 100. |
| RatioProperties.DebtServiceCoverageFormula | lib/ratios.ts:85 | With finite amounts and a nonzero denominator, debt service coverage is (OperatingIncome + InterestExpense) / (InterestExpense + 0.1 × total debt). |
| RatioProperties.NoInterestNoDebtNoCoverage | lib/ratios.ts:84-85 | With no interest expense and no debt, both coverage ratios and the interest coverage are 0. |
| RatioProperties.DebtFreeServiceCoverage | lib/ratios.ts:84-85 | Without debt and with nonzero interest expense, debt service coverage is interest coverage plus one. |
| RatioProperties.DuPontAssets | lib/ratios.ts:74-79 | Return on assets equals net profit margin times asset turnover (the DuPont identity). |
| RatioProperties.DuPontEquity | lib/ratios.ts:73-74 | Return on equity equals return on assets times TotalAssets over equity. |
| RatioProperties.FiniteInput | lib/ratios.ts:47 | In an all-finite statement, a line item reads as its real amount, or 0 when absent. |
| RatioProperties.ReadFinite | lib/ratios.ts:47-71 | For all-finite statements, the readings are the reference amounts: sums of real amounts, and equity by the nonzero test. |
| RatioProperties.FiniteRatios | lib/ratios.ts:53-85 | On finite readings, the five categories equal the reference formulas with a plain zero-denominator guard. |
| RatioProperties.FiniteInputMatchesReference | lib/ratios.ts:35-113 | For every pair of all-finite statements, the engine's fifteen ratios equal the reference definition's. |
| RatioProperties.WorkedExample | lib/ratios.ts:35-113 | A sample statement pair gives these ratios. Liquidity is 1000/300, 700/300 and 0.5. Leverage is 0.05, 0.02 and 3. Profitability is 4, 1.6, 10 and 50. Efficiency is 0.16, 350/300 and 0, the last because AccountsReceivable is absent. Coverage is 3 and 3.2. |

## Left out

- IEEE-754 rounding, overflow and underflow are not modelled. A finite number is an exact `real`, a quotient of finite numbers never overflows to Infinity, and the constant 0.1 is exactly one tenth rather than the nearest double.
- Negative zero is not distinguished from 0. The source's `=== 0` test and `|| 0` treat both alike, so nothing in the engine depends on the difference.
- Statements hold numbers only, and all three statement objects are present, as the declared `FinancialData` type promises. The statements come from an unchecked JSON parse of the AI response. If that yields strings, `null` or other non-number amounts, or leaves out a whole statement object, the model does not capture it. A missing statement object makes the source throw a TypeError at the first read from it, for example at line 47 of `lib/ratios.ts`.
- Idempotence holds by construction: `Compute` is a function, so equal inputs give equal results. There is no separate lemma.
- The AI extraction (`lib/gemini.ts`), spreadsheet export (`lib/excel.ts`), HTTP handler (`app/api/analyze/route.ts`), UI components, layout and framework configuration are not part of this model. They are I/O, transport, presentation or foreign-library code.
- `Ratios.Compute`: its contract states only the coverage-field equality. The full formulas are stated by `RatioProperties.FiniteInputMatchesReference` and the infinity cases by `Ratios.SafeDivide`. A body-length `ensures` would only repeat the definition.
- The record has fifteen fields, and `coverage.timesInterestEarned` duplicates `leverage.interestCoverage`. The `||` chain for equity skips a NaN TotalEquity as well as a zero or missing one; the model follows it.
