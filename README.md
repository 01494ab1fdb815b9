# Trade arithmetic, verified

A Dafny model of a small library of trading formulas (`src/lib.rs`). The
library sizes a position before a trade (recommended shares, leveraged
contracts, stop-loss, risk budget, initial risk), accounts for a transaction
(amount with and without tax and commission, transaction cost, tax part of an
amount, price from an amount), and evaluates the trade afterwards (actual
risk, R-multiple, total cost, gross and net profit or loss, other costs).
It also converts prices between currencies and computes percentages.

Every formula is a pure function of scalars, so each becomes a Dafny
`function`:

- `numeric.dfy`, module `Numeric`: the i32 share count as a newtype, the
  ceiling, truncation toward zero and the saturating `f64 as i32` cast.
- `trade_math.dfy`, module `TradeMath`: the `TransactionType` datatype
  (`Buy | Sell`), the nineteen formulas as the library writes them, and three
  corrected formulas (`StoplossIntended`,
  `AmountWithTaxAndCommissionIntended`, `ProfitLossTotalIntended`) for the
  findings below.
- `properties.dfy`, module `TradeMathProperties`: identities between the
  formulas (round trips, inverses, surcharges, bounds, monotonicity, the
  spelled-out examples) and the arithmetic facts behind them. Each holds
  for every input that meets the preconditions of the formulas it
  mentions, except the lemmas with premises of their own:
  `SharesRecommendedAffordable` (a positive price and non-negative net
  capital; for negative net capital the bound fails, as
  `SharesRecommendedOverspends` shows), `SharesRecommendedMaximal` and
  `SaturatedQuotientMaximal` (in addition, a quotient inside the i32
  range), `RiskActualBreachIsNetLoss` (a loss that reaches the initial
  risk), `LeveragedContractsMonotone` (two ordered counts), and the
  arithmetic helpers `MulLt` and `DivBelow` (a positive factor).
- `findings.dfy`, module `TradeMathFindings`: the relations the library's
  notes promise but its formulas break, each with the exact condition under
  which it still holds and a concrete input where it does not.

Prices, percentages, commissions, pools and amounts are `real` (exact
arithmetic); share counts are `Numeric.i32`. Each division the library
leaves unguarded is a precondition that its denominator is non-zero. The
tax argument is a percentage everywhere except in
`calculate_amount_with_tax_and_commission`, which multiplies by it directly;
the model keeps that as written.

## Model

| member | source | states |
|---|---|---|
| `Numeric.Ceil` | src/lib.rs:98 | the result is the least integer not below its argument |
| `Numeric.TruncateTowardZero` | src/lib.rs:85-88 | the result is rounded toward zero, never further from zero than the argument and less than one away |
| `Numeric.SaturatingToI32` | src/lib.rs:88 | the cast never moves away from zero, equals the truncation inside the i32 range and saturates at either bound outside it |
| `TradeMath.PercentageOf` | src/lib.rs:52-55 | the result, read as a percentage of `fromValue`, is `value` |
| `TradeMath.ConvertToOrig` | src/lib.rs:72-75 | applying the exchange rate to the result gives the converted price back |
| `TradeMath.Price` | src/lib.rs:248-264 | the result is the per-share price at which the amount with the tax percentage and commission on that side comes to `amount` |
| `TradeMath.RiskActual` | src/lib.rs:278-290 | a profit, break-even or a loss smaller than the initial risk keeps the initial risk; a loss at least as large gives the buy leg with tax and commission less the sell leg net of them |
| `TradeMath.RMultiple` | src/lib.rs:296-299 | the result times the initial risk is the profit or loss |
| `TradeMath.CostOther` | src/lib.rs:340-353 | the result is always the residual profit or loss less net profit or loss less total cost; the zero test changes nothing |
| `TradeMath.StoplossIntended` | src/lib.rs:101-167 | the corrected stop-loss makes the initial risk equal the risk budget, on both sides |
| `TradeMath.ConvertFromOrig` | src/lib.rs:62-65 | no contract of its own; characterised by ConvertToOrig and ConvertRoundTrip |
| `TradeMath.SharesRecommended` | src/lib.rs:83-89 | no contract of its own; characterised by SharesRecommendedAffordable, SharesRecommendedMaximal and SharesRecommendedExample |
| `TradeMath.LeveragedContracts` | src/lib.rs:96-99 | no contract of its own; characterised by LeveragedContractsIntegerForm, LeveragedContractsValues and LeveragedContractsMonotone |
| `TradeMath.Stoploss` | src/lib.rs:114-129 | no contract of its own; characterised by StoplossReconcilesIff, StoplossAgreesWithoutTaxOrWithOneShare and StoplossCounterexample |
| `TradeMath.RiskInput` | src/lib.rs:136-139 | no contract of its own; characterised by RiskInputPercentage |
| `TradeMath.RiskInitial` | src/lib.rs:155-167 | no contract of its own; characterised by RiskInitialOfLegs, StoplossIntended, StoplossIntendedUnique and StoplossReconcilesIff |
| `TradeMath.Amount` | src/lib.rs:173-176 | no contract of its own; characterised by AmountWithoutCosts, ProfitLossOfAmounts and CostTotalOfLegs |
| `TradeMath.AmountWithTaxAndCommission` | src/lib.rs:187-199 | no contract of its own; characterised by AmountTakesTaxAsFraction, CostTaxRecoversTax and PriceInvertsAmountIff |
| `TradeMath.CostTransaction` | src/lib.rs:221-224 | no contract of its own; characterised by CostTransactionIsSurcharge and CostTotalOfLegs |
| `TradeMath.CostTax` | src/lib.rs:230-242 | no contract of its own; characterised by CostTaxRecoversTax |
| `TradeMath.CostTotal` | src/lib.rs:305-308 | no contract of its own; characterised by CostTotalOfLegs |
| `TradeMath.ProfitLoss` | src/lib.rs:318-321 | no contract of its own; characterised by ProfitLossOfAmounts |
| `TradeMath.ProfitLossTotal` | src/lib.rs:331-334 | no contract of its own; characterised by ProfitLossTotalBuyTaxSign and CostOtherResidual |
| `TradeMath.AmountWithTaxAndCommissionIntended` | src/lib.rs:187-199 | corrected amount with the tax as a percentage; characterised by PriceInvertsAmount, CostTransactionIsSurcharge and AmountTakesTaxAsFraction |
| `TradeMath.ProfitLossTotalIntended` | src/lib.rs:323-334 | corrected net profit or loss with the buy tax added; characterised by ProfitLossTotalIntendedOfLegs, CostOtherVanishes and RiskActualBreachIsNetLoss |
| `TradeMathProperties.ConvertRoundTrip` | src/lib.rs:62-75 | converting and converting back, in either order, returns the original price (the second order is a corollary of `ConvertToOrig`'s postcondition) |
| `TradeMathProperties.RiskInputPercentage` | src/lib.rs:136-139 | the risk budget is the risk percentage of the pool, and the percentage a budget is of the pool gives that budget back (the latter a corollary of `PercentageOf`'s postcondition) |
| `TradeMathProperties.PercentageOfExample` | src/lib.rs:52-55 | 50 is 25 percent of 200 |
| `TradeMathProperties.SharesRecommendedAffordable` | src/lib.rs:83-89 | with a positive price and non-negative net capital, the recommended count is non-negative and costs at most the net capital |
| `TradeMathProperties.SharesRecommendedMaximal` | src/lib.rs:83-89 | one share more than recommended costs more than the net capital, whenever the quotient is within the i32 range |
| `TradeMathProperties.SharesRecommendedOverspends` | src/lib.rs:83-89 | with negative net capital (commission 5 on an empty pool, price 2) the count is -2 and costs more than the net capital |
| `TradeMathProperties.SaturatedQuotientMaximal` | src/lib.rs:85-88 | truncating a non-negative quotient inside the i32 range loses less than one unit of the divisor |
| `TradeMathProperties.SharesRecommendedExample` | src/lib.rs:83-89 | a pool of 10000, commission 10, tax 0.1% and price 23.65 give 421 shares |
| `TradeMathProperties.CeilThird` | src/lib.rs:98 | the ceiling of a third of an integer `n` is `(n + 2) / 3` in integer division |
| `TradeMathProperties.LeveragedContractsIntegerForm` | src/lib.rs:96-99 | the leveraged count is `n + (n + 2) / 3 - 1` in integer arithmetic |
| `TradeMathProperties.LeveragedContractsValues` | src/lib.rs:96-99 | 0 gives -1, 1 to 3 give themselves, and every positive count is never reduced |
| `TradeMathProperties.LeveragedContractsMonotone` | src/lib.rs:96-99 | the leveraged count is monotone non-decreasing |
| `TradeMathProperties.RiskInitialOfLegs` | src/lib.rs:141-167 | the initial risk is the buy leg's cost, tax and commission included, less the sell leg's proceeds net of them; a long trade buys at the price and sells at the stop-loss, a short one sells at the price and buys back at the stop-loss |
| `TradeMathProperties.StoplossIntendedUnique` | src/lib.rs:155-167 | a stop-loss price makes the initial risk equal the risk budget if and only if it is the corrected stop-loss |
| `TradeMathProperties.AmountWithoutCosts` | src/lib.rs:173-199 | with zero tax and commission both amount formulas give the bare amount, on both sides |
| `TradeMathProperties.CostTransactionIsSurcharge` | src/lib.rs:221-224 | the transaction cost is what tax and commission add to a buy and take off a sale |
| `TradeMathProperties.CostTaxRecoversTax` | src/lib.rs:230-242 | on both sides, the tax part of the library's amount is shares times price times the raw tax, and of the corrected amount the transaction cost less commission |
| `TradeMathProperties.PriceInvertsAmount` | src/lib.rs:248-264 | the price of an amount built with a tax percentage is the price it was built from, and the amount at the price of an amount is that amount (the latter a corollary of `Price`'s postcondition) |
| `TradeMathProperties.ProfitLossOfAmounts` | src/lib.rs:318-321 | the gross profit or loss is the sale's amount less the purchase's |
| `TradeMathProperties.CostTotalOfLegs` | src/lib.rs:305-308 | the total cost of a trade is the sum of the transaction costs of its legs |
| `TradeMathProperties.ProfitLossTotalIntendedOfLegs` | src/lib.rs:323-334 | the corrected net profit or loss is the sell leg's net amount less the buy leg's gross amount |
| `TradeMathProperties.CostOtherVanishes` | src/lib.rs:336-353 | with the corrected net profit or loss, a trade whose only costs are tax and commission has no other costs |
| `TradeMathProperties.RiskActualBreachIsNetLoss` | src/lib.rs:281-288 | a loss at least the initial risk makes the actual risk the corrected net loss of the trade |
| `TradeMathProperties.RiskActualAtBreakEven` | src/lib.rs:281-284 | a profit or loss of exactly zero keeps the initial risk |
| `TradeMathProperties.RMultipleOfStopOut` | src/lib.rs:296-299 | a loss of exactly the initial risk is an R-multiple of -1 |
| `TradeMathFindings.StoplossReconcilesIff` | src/lib.rs:114-167 | the library's stop-loss fed into the initial risk gives the risk budget if and only if the tax is zero, one share is traded or the stop-loss is zero, on both sides |
| `TradeMathFindings.StoplossAgreesWithoutTaxOrWithOneShare` | src/lib.rs:118-128 | with zero tax or a single share the library's stop-loss equals the corrected one |
| `TradeMathFindings.StoplossCounterexample` | src/lib.rs:118-128 | a concrete long trade whose stop-loss does not reconcile with its risk budget |
| `TradeMathFindings.AmountTakesTaxAsFraction` | src/lib.rs:187-199 | the library's amount is the corrected amount with the tax divided by 100 beforehand |
| `TradeMathFindings.PriceInvertsAmountIff` | src/lib.rs:248-264 | Price inverts the library's amount if and only if the tax or the price is zero |
| `TradeMathFindings.AmountCounterexample` | src/lib.rs:190-192 | ten shares at 100 with 1% tax and 5 commission give 2005 instead of 1015, and Price does not return 100 on it |
| `TradeMathFindings.ProfitLossTotalBuyTaxSign` | src/lib.rs:331-334 | the library's net profit or loss exceeds the corrected one by twice the buy leg's tax |
| `TradeMathFindings.CostOtherResidual` | src/lib.rs:331-353 | with the library's net profit or loss, a trade whose only costs are tax and commission shows other costs of minus twice the buy tax |
| `TradeMathFindings.ProfitLossTotalExample` | src/lib.rs:331-334 | a concrete trade nets 188 as written and 168 corrected; only the latter leaves zero other costs |

## Left out

- Floating point: rounding error, NaN and infinity, and the distinction
  between `-0.0` and `0.0`. The zero test of `calculate_cost_other` turns
  a `-0.0` residual into `0.0`, and also a NaN residual into `0.0`, since
  `NaN.abs() > 0.0` is false; neither case exists in exact reals. The
  model computes in exact reals; a zero denominator is excluded by a
  precondition instead of producing a non-finite value.
- `SharesRecommended`: the cast of a NaN or infinite quotient (a zero price)
  is not modelled; the price must be non-zero. The saturation of finite
  quotients at the i32 bounds is modelled.
- `LeveragedContracts`: requires `-1610612735 <= n <= 1610612736`, the exact
  range in which the i32 addition `- 1 + a_n` does not overflow; the
  overflow outside it (a panic or a wrap-around, depending on the build) is
  not modelled.
- `TradeMathProperties.SharesRecommendedMaximal`: states the upper bound only while
  the quotient is inside the i32 range, because a saturated count can be
  far below what is affordable.
- The commented-out `calculate_average_price` (src/lib.rs:28-46) and
  `calculate_amount_with_tax` (src/lib.rs:209-215): they are not compiled.
- `#[derive(Debug, PartialEq)]`: a Dafny datatype has equality already, and
  there is no formatting.

## Findings

| source | as written | input that shows it | evidently intended | confidence | as-written member | corrected member |
|---|---|---|---|---|---|---|
| src/lib.rs:121 | long stop-loss denominator `shares * 1.0 - tax / 100` (short: `+`, line 126) | long, price 10, 100 shares, tax 1%, no commission, risk 1% of 1000: stop-loss 1000/99.99, and the initial risk at it is about 19.90, not 10 | `shares * (1 - tax / 100)` (short: `shares * (1 + tax / 100)`), so that the initial risk at the stop-loss is the risk budget, as the note at line 145 says | high; not executed | `TradeMathFindings.StoplossReconcilesIff` | `TradeMath.StoplossIntended` |
| src/lib.rs:192 | buy amount `shares * price * tax` with the tax as a fraction (sell: line 196) | 10 shares at 100, tax 1, commission 5, buy: 2005 instead of 1015, and `calculate_price` on it gives 2000/10.1, not 100 | `shares * price * tax / 100`, the percentage every other formula uses, so that `calculate_price` inverts it | medium (callers could be passing a fraction here; `cost_tax` agrees with either reading); not executed | `TradeMathFindings.PriceInvertsAmountIff` | `TradeMath.AmountWithTaxAndCommissionIntended` |
| src/lib.rs:333 | buy leg `shares_buy * price_buy * (1.0 - tax_buy / 100)` | 10 shares bought at 100 and sold at 120, tax 1% and commission 5 on each leg: 188 instead of 168, and other costs of -20 instead of 0 | `(1.0 + tax_buy / 100)`, as the note at line 328 and the actual-risk formula at line 287 write the buy leg | high; not executed | `TradeMathFindings.CostOtherResidual` | `TradeMath.ProfitLossTotalIntended` |

The corrected definitions carry the intended properties:
`TradeMath.StoplossIntended` reconciles by its own postcondition and
`TradeMathProperties.StoplossIntendedUnique` shows it is the only stop-loss
that does; `TradeMathProperties.PriceInvertsAmount` shows that `Price`
inverts `AmountWithTaxAndCommissionIntended` in both directions;
`TradeMathProperties.CostOtherVanishes` shows that
`ProfitLossTotalIntended` leaves no other costs, and
`TradeMathProperties.RiskActualBreachIsNetLoss` that it agrees with the
actual-risk formula. `Price` and `RiskActual` are stated in terms of the
corrected amount.
