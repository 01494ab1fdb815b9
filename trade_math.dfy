/** The trade-arithmetic formulas of the library, one function per public
    formula, in exact real arithmetic. Share counts are i32; every other
    quantity (price, tax percentage, commission, pool, risk percentage,
    amount) is a real. Each division the library leaves unguarded is a
    precondition that its denominator is non-zero. */
module TradeMath {
  import opened Numeric

  /** The side of a transaction; it selects the sign conventions. */
  datatype TransactionType = Buy | Sell

  // ---------------------------------------------------------------
  // Percentage and currency conversion
  // ---------------------------------------------------------------

  /** What percentage `value` is of `fromValue`. */
  function PercentageOf(value: real, fromValue: real): (r: real)
    requires fromValue != 0.0
    ensures r / 100.0 * fromValue == value
  {
    value / fromValue * 100.0
  }

  /** A price with an exchange rate applied to it. */
  function ConvertFromOrig(price: real, exchangeRate: real): real
  {
    price * exchangeRate
  }

  /** A price in its original currency, the exchange rate taken off again. */
  function ConvertToOrig(convertedPrice: real, exchangeRate: real): (r: real)
    requires exchangeRate != 0.0
    ensures ConvertFromOrig(r, exchangeRate) == convertedPrice
  {
    convertedPrice / exchangeRate
  }

  // ---------------------------------------------------------------
  // Before the trade
  // ---------------------------------------------------------------

  /** The capital left to buy shares with: the pool less the tax
      percentage of the pool and less the commission. */
  function NetPool(pool: real, commission: real, tax: real): real
  {
    pool - tax / 100.0 * pool - commission
  }

  /** The recommended number of shares: the net capital divided by the
      price, truncated toward zero (and saturated at the i32 bounds, as the
      cast does), so that no more is recommended than can be paid. */
  function SharesRecommended(pool: real, commission: real, tax: real, price: real): i32
    requires price != 0.0
  {
    SaturatingToI32(NetPool(pool, commission, tax) / price)
  }

  /** The smallest and largest contract counts for which the i32
      addition of LeveragedContracts does not overflow. */
  const LEVERAGE_MIN: int := -1610612735
  const LEVERAGE_MAX: int := 1610612736

  /** The number of contracts to trade with leverage: one fewer than the
      ceiling of a third of `n`, added to `n`. */
  function LeveragedContracts(n: i32): i32
    requires LEVERAGE_MIN <= n as int <= LEVERAGE_MAX
  {
    (Ceil(n as real / 3.0) - 1 + n as int) as i32
  }

  /** The denominator of the stop-loss formula, grouped as the library
      groups it: `shares * 1.0 - tax / 100` (long) or `+` (short). */
  function StoplossDenominator(shares: i32, tax: real, isLong: bool): real
  {
    if isLong then (shares as real) * 1.0 - tax / 100.0
    else (shares as real) * 1.0 + tax / 100.0
  }

  /** The stop-loss price, as the library computes it. */
  function Stoploss(price: real, shares: i32, tax: real, commission: real,
                    risk: real, pool: real, isLong: bool): real
    requires StoplossDenominator(shares, tax, isLong) != 0.0
  {
    var s := shares as real;
    var numerator :=
      if isLong then s * price * (1.0 + tax / 100.0) - risk / 100.0 * pool + 2.0 * commission
      else risk / 100.0 * pool + s * price * (1.0 - tax / 100.0) - 2.0 * commission;
    numerator / StoplossDenominator(shares, tax, isLong)
  }

  /** The risk budget: `risk` percent of the pool. */
  function RiskInput(pool: real, risk: real): real
  {
    risk / 100.0 * pool
  }

  /** The loss taken when the stop-loss is reached, including tax on both
      legs and the commission paid twice. */
  function RiskInitial(price: real, shares: i32, tax: real, commission: real,
                       stoploss: real, isLong: bool): real
  {
    var s := shares as real;
    if isLong then s * price * (1.0 + tax / 100.0) - s * stoploss * (1.0 - tax / 100.0) + 2.0 * commission
    else s * stoploss * (1.0 + tax / 100.0) - s * price * (1.0 - tax / 100.0) + 2.0 * commission
  }

  // ---------------------------------------------------------------
  // Transaction accounting
  // ---------------------------------------------------------------

  /** The amount without tax and commission. */
  function Amount(price: real, shares: i32): real
  {
    price * (shares as real)
  }

  /** The amount including tax and commission, as the library computes it:
      here `tax` multiplies the amount directly, as a fraction, not as a
      percentage. */
  function AmountWithTaxAndCommission(price: real, shares: i32, tax: real, commission: real,
                                      side: TransactionType): real
  {
    var s := shares as real;
    if side == Buy then s * price + s * price * tax + commission
    else s * price - s * price * tax - commission
  }

  /** The cost of a transaction: the tax percentage of the amount plus
      the commission, whatever the side. */
  function CostTransaction(price: real, shares: i32, tax: real, commission: real): real
  {
    price * (shares as real) * tax / 100.0 + commission
  }

  /** The tax part of an amount that includes tax and commission. */
  function CostTax(amount: real, commission: real, shares: i32, price: real,
                   side: TransactionType): real
  {
    var s := shares as real;
    if side == Sell then - amount - commission + s * price
    else amount - s * price - commission
  }

  /** The denominator of the price formula: `(1 + tax / 100) * shares`
      (buy) or `(1 - tax / 100) * shares` (sell). */
  function PriceDenominator(shares: i32, tax: real, side: TransactionType): real
  {
    if side == Buy then (1.0 + tax / 100.0) * (shares as real)
    else (1.0 - tax / 100.0) * (shares as real)
  }

  /** The price per share of a transaction with the given amount: the price
      at which the amount with a tax percentage and commission comes to
      `amount`. */
  function Price(amount: real, shares: i32, tax: real, commission: real,
                 side: TransactionType): (r: real)
    requires PriceDenominator(shares, tax, side) != 0.0
    ensures AmountWithTaxAndCommissionIntended(r, shares, tax, commission, side) == amount
  {
    var numerator := if side == Buy then amount - commission else amount + commission;
    numerator / PriceDenominator(shares, tax, side)
  }

  // ---------------------------------------------------------------
  // After the trade
  // ---------------------------------------------------------------

  /** Absolute value (`f64::abs`). */
  function Abs(x: real): real
  {
    if x < 0.0 then -x else x
  }

  /** The risk actually taken. While the result of the trade is a profit,
      break-even or a loss smaller than the initial risk, that is the
      initial risk; a loss at least as large as the initial risk is
      measured on the two legs: what was paid on the buy, tax and
      commission included, less what the sell brought in, net of tax and
      commission. */
  function RiskActual(priceBuy: real, sharesBuy: i32, taxBuy: real, commissionBuy: real,
                      priceSell: real, sharesSell: i32, taxSell: real, commissionSell: real,
                      riskInitial: real, profitLoss: real): (r: real)
    ensures profitLoss >= 0.0 || -riskInitial < profitLoss ==> r == riskInitial
    ensures profitLoss < 0.0 && profitLoss <= -riskInitial ==>
              r == AmountWithTaxAndCommissionIntended(priceBuy, sharesBuy, taxBuy, commissionBuy, Buy)
                   - AmountWithTaxAndCommissionIntended(priceSell, sharesSell, taxSell, commissionSell, Sell)
  {
    if (profitLoss < 0.0 && Abs(profitLoss) < riskInitial) || profitLoss >= 0.0 then riskInitial
    else (sharesBuy as real) * priceBuy * (1.0 + taxBuy / 100.0)
         - (sharesSell as real) * priceSell * (1.0 - taxSell / 100.0)
         + commissionBuy + commissionSell
  }

  /** The R-multiple: the profit or loss in units of the initial risk. */
  function RMultiple(profitLoss: real, riskInitial: real): (r: real)
    requires riskInitial != 0.0
    ensures r * riskInitial == profitLoss
  {
    profitLoss / riskInitial
  }

  /** The total cost of a trade: the tax percentage of each leg's amount
      plus each leg's commission. */
  function CostTotal(amountBuy: real, taxBuy: real, commissionBuy: real,
                     amountSell: real, taxSell: real, commissionSell: real): real
  {
    taxBuy / 100.0 * amountBuy + commissionBuy + taxSell / 100.0 * amountSell + commissionSell
  }

  /** The profit or loss without tax and commission. */
  function ProfitLoss(priceBuy: real, sharesBuy: i32, priceSell: real, sharesSell: i32): real
  {
    (sharesSell as real) * priceSell - (sharesBuy as real) * priceBuy
  }

  /** The profit or loss after tax and commission, as the library computes
      it: both legs are reduced by their tax percentage. */
  function ProfitLossTotal(priceBuy: real, sharesBuy: i32, taxBuy: real, commissionBuy: real,
                           priceSell: real, sharesSell: i32, taxSell: real, commissionSell: real): real
  {
    (sharesSell as real) * priceSell * (1.0 - taxSell / 100.0)
    - (sharesBuy as real) * priceBuy * (1.0 - taxBuy / 100.0)
    - (commissionBuy + commissionSell)
  }

  /** The costs not explained by tax and commission: what remains of the
      gross profit or loss once the net one and the total cost are taken
      off. The library's non-zero test only turns an exact zero into zero. */
  function CostOther(profitLoss: real, profitLossTotal: real, costTotal: real): (r: real)
    ensures r + costTotal + profitLossTotal == profitLoss
  {
    var diff := profitLoss - profitLossTotal - costTotal;
    if Abs(diff) > 0.0 then diff else 0.0
  }

  // ---------------------------------------------------------------
  // Corrected formulas (see the findings in README.md)
  // ---------------------------------------------------------------

  /** The amount including tax and commission with `tax` read as a
      percentage, as every other formula reads it. */
  function AmountWithTaxAndCommissionIntended(price: real, shares: i32, tax: real, commission: real,
                                              side: TransactionType): real
  {
    var s := shares as real;
    if side == Buy then s * price * (1.0 + tax / 100.0) + commission
    else s * price * (1.0 - tax / 100.0) - commission
  }

  /** The stop-loss denominator grouped as the risk formula needs it:
      `shares * (1 - tax / 100)` (long) or `shares * (1 + tax / 100)` (short). */
  function StoplossDenominatorIntended(shares: i32, tax: real, isLong: bool): real
  {
    if isLong then (shares as real) * (1.0 - tax / 100.0)
    else (shares as real) * (1.0 + tax / 100.0)
  }

  /** The stop-loss price at which the initial risk equals the risk budget. */
  function StoplossIntended(price: real, shares: i32, tax: real, commission: real,
                            risk: real, pool: real, isLong: bool): (r: real)
    requires StoplossDenominatorIntended(shares, tax, isLong) != 0.0
    ensures RiskInitial(price, shares, tax, commission, r, isLong) == RiskInput(pool, risk)
  {
    var s := shares as real;
    var numerator :=
      if isLong then s * price * (1.0 + tax / 100.0) - risk / 100.0 * pool + 2.0 * commission
      else risk / 100.0 * pool + s * price * (1.0 - tax / 100.0) - 2.0 * commission;
    numerator / StoplossDenominatorIntended(shares, tax, isLong)
  }

  /** The profit or loss after tax and commission with the buy leg's tax
      added to what was paid, as the library's own note on it writes it. */
  function ProfitLossTotalIntended(priceBuy: real, sharesBuy: i32, taxBuy: real, commissionBuy: real,
                                   priceSell: real, sharesSell: i32, taxSell: real, commissionSell: real): real
  {
    (sharesSell as real) * priceSell * (1.0 - taxSell / 100.0)
    - (sharesBuy as real) * priceBuy * (1.0 + taxBuy / 100.0)
    - (commissionBuy + commissionSell)
  }
}
