/** Identities between the formulas, and the bounds and arithmetic facts
    behind them. Each lemma holds for every input that meets the
    preconditions of the formulas it mentions, except those with premises
    of their own: SharesRecommendedAffordable (a positive price and
    non-negative net capital; SharesRecommendedOverspends shows the bound
    fails for negative net capital), SharesRecommendedMaximal and
    SaturatedQuotientMaximal (in addition, a quotient inside the i32
    range), RiskActualBreachIsNetLoss (a loss that reaches the initial
    risk), LeveragedContractsMonotone (two ordered counts), and the
    arithmetic helpers MulLt and DivBelow (a positive factor and the
    inequality they scale). */
module TradeMathProperties {
  import opened Numeric
  import opened TradeMath

  // ---------------------------------------------------------------
  // Percentage and currency conversion
  // ---------------------------------------------------------------

  /** Converting to another currency and back, or back and then forth
      again, returns the price one started from. The second clause is a
      corollary of the postcondition of ConvertToOrig. */
  lemma ConvertRoundTrip(price: real, exchangeRate: real)
    requires exchangeRate != 0.0
    ensures ConvertToOrig(ConvertFromOrig(price, exchangeRate), exchangeRate) == price
    ensures ConvertFromOrig(ConvertToOrig(price, exchangeRate), exchangeRate) == price
  {
  }

  /** The risk budget is the risk percentage of the pool, and the
      percentage that a budget is of the pool gives that budget back. The
      second clause is a corollary of the postcondition of PercentageOf. */
  lemma RiskInputPercentage(pool: real, risk: real, budget: real)
    requires pool != 0.0
    ensures PercentageOf(RiskInput(pool, risk), pool) == risk
    ensures RiskInput(pool, PercentageOf(budget, pool)) == budget
  {
  }

  /** 50 is 25 percent of 200. */
  lemma PercentageOfExample()
    ensures PercentageOf(50.0, 200.0) == 25.0
  {
  }

  // ---------------------------------------------------------------
  // Recommended shares
  // ---------------------------------------------------------------

  /** Multiplying both sides of `a < b` by a positive factor. */
  lemma MulLt(a: real, b: real, c: real)
    requires a < b && c > 0.0
    ensures a * c < b * c
  {
  }

  /** Dividing `a < b * c` by a positive `c`. */
  lemma DivBelow(a: real, b: real, c: real)
    requires a < b * c && c > 0.0
    ensures a / c < b
  {
  }

  /** The recommended shares never cost more than the net capital. */
  lemma SharesRecommendedAffordable(pool: real, commission: real, tax: real, price: real)
    requires price > 0.0 && NetPool(pool, commission, tax) >= 0.0
    ensures 0 <= SharesRecommended(pool, commission, tax, price)
    ensures (SharesRecommended(pool, commission, tax, price) as real) * price <= NetPool(pool, commission, tax)
  {
  }

  /** With negative net capital the bound fails: a commission of 5 on an
      empty pool, at price 2, gives -2 shares, which cost -4, more than the
      net capital of -5. */
  lemma SharesRecommendedOverspends()
    ensures NetPool(0.0, 5.0, 0.0) == -5.0
    ensures SharesRecommended(0.0, 5.0, 0.0, 2.0) == -2
    ensures (SharesRecommended(0.0, 5.0, 0.0, 2.0) as real) * 2.0 > NetPool(0.0, 5.0, 0.0)
  {
  }

  /** Truncating a non-negative quotient inside the i32 range loses less
      than one unit of the divisor. */
  lemma SaturatedQuotientMaximal(net: real, price: real)
    requires price > 0.0
    requires 0.0 <= net < (I32_MAX as real + 1.0) * price
    ensures net < (SaturatingToI32(net / price) as real + 1.0) * price
  {
    var q := net / price;
    DivBelow(net, I32_MAX as real + 1.0, price);
    var t := TruncateTowardZero(q);
    assert SaturatingToI32(q) as int == t;
    MulLt(q, t as real + 1.0, price);
    assert q * price == net;
  }

  /** One share more than recommended costs more than the net capital,
      unless the quotient is beyond the i32 range and the count saturated. */
  lemma SharesRecommendedMaximal(pool: real, commission: real, tax: real, price: real)
    requires price > 0.0
    requires 0.0 <= NetPool(pool, commission, tax) < (I32_MAX as real + 1.0) * price
    ensures NetPool(pool, commission, tax) < (SharesRecommended(pool, commission, tax, price) as real + 1.0) * price
  {
    SaturatedQuotientMaximal(NetPool(pool, commission, tax), price);
  }

  /** A pool of 10000 with commission 10 and 0.1% tax buys 421 shares at 23.65. */
  lemma SharesRecommendedExample()
    ensures SharesRecommended(10000.0, 10.0, 0.1, 23.65) == 421
  {
  }

  // ---------------------------------------------------------------
  // Leveraged contracts
  // ---------------------------------------------------------------

  /** The ceiling of a third of an integer, in integer arithmetic. */
  lemma CeilThird(n: int)
    ensures Ceil(n as real / 3.0) == (n + 2) / 3
  {
  }

  /** The leveraged count in integer arithmetic: `n` plus `(n + 2) / 3`
      (rounded down), less one. */
  lemma LeveragedContractsIntegerForm(n: i32)
    requires LEVERAGE_MIN <= n as int <= LEVERAGE_MAX
    ensures LeveragedContracts(n) as int == n as int + (n as int + 2) / 3 - 1
  {
  }

  /** The boundary values: no contracts give -1, one to three give as many,
      and every positive count is never reduced. */
  lemma LeveragedContractsValues(n: i32)
    requires LEVERAGE_MIN <= n as int <= LEVERAGE_MAX
    ensures n == 0 ==> LeveragedContracts(n) == -1
    ensures 1 <= n <= 3 ==> LeveragedContracts(n) == n
    ensures n >= 1 ==> LeveragedContracts(n) >= n
  {
  }

  /** More base contracts never give fewer leveraged contracts. */
  lemma LeveragedContractsMonotone(n: i32, m: i32)
    requires LEVERAGE_MIN <= n as int <= LEVERAGE_MAX
    requires LEVERAGE_MIN <= m as int <= LEVERAGE_MAX
    requires n <= m
    ensures LeveragedContracts(n) <= LeveragedContracts(m)
  {
  }

  // ---------------------------------------------------------------
  // Stop-loss and initial risk
  // ---------------------------------------------------------------

  /** The initial risk is the buy leg's cost, tax and commission included,
      less the sell leg's proceeds, net of tax and commission: a long trade
      buys at the price and sells at the stop-loss, a short one sells at the
      price and buys back at the stop-loss. */
  lemma RiskInitialOfLegs(price: real, shares: i32, tax: real, commission: real, stoploss: real)
    ensures RiskInitial(price, shares, tax, commission, stoploss, true)
            == AmountWithTaxAndCommissionIntended(price, shares, tax, commission, Buy)
               - AmountWithTaxAndCommissionIntended(stoploss, shares, tax, commission, Sell)
    ensures RiskInitial(price, shares, tax, commission, stoploss, false)
            == AmountWithTaxAndCommissionIntended(stoploss, shares, tax, commission, Buy)
               - AmountWithTaxAndCommissionIntended(price, shares, tax, commission, Sell)
  {
  }

  /** The corrected stop-loss is the only stop-loss price at which the
      initial risk equals the risk budget. */
  lemma StoplossIntendedUnique(price: real, shares: i32, tax: real, commission: real,
                               risk: real, pool: real, isLong: bool, stoploss: real)
    requires StoplossDenominatorIntended(shares, tax, isLong) != 0.0
    ensures RiskInitial(price, shares, tax, commission, stoploss, isLong) == RiskInput(pool, risk)
            <==> stoploss == StoplossIntended(price, shares, tax, commission, risk, pool, isLong)
  {
  }

  // ---------------------------------------------------------------
  // Transaction accounting
  // ---------------------------------------------------------------

  /** Without tax and commission both amount formulas give the bare amount. */
  lemma AmountWithoutCosts(price: real, shares: i32, side: TransactionType)
    ensures AmountWithTaxAndCommission(price, shares, 0.0, 0.0, side) == Amount(price, shares)
    ensures AmountWithTaxAndCommissionIntended(price, shares, 0.0, 0.0, side) == Amount(price, shares)
  {
  }

  /** The transaction cost is what tax and commission add to a buy and
      take off a sale. */
  lemma CostTransactionIsSurcharge(price: real, shares: i32, tax: real, commission: real)
    ensures CostTransaction(price, shares, tax, commission)
            == AmountWithTaxAndCommissionIntended(price, shares, tax, commission, Buy) - Amount(price, shares)
    ensures CostTransaction(price, shares, tax, commission)
            == Amount(price, shares) - AmountWithTaxAndCommissionIntended(price, shares, tax, commission, Sell)
  {
  }

  /** CostTax recovers the tax part of an amount, on both sides: the raw
      tax factor for the library's amount, the tax percentage (the
      transaction cost without commission) for the corrected one. */
  lemma CostTaxRecoversTax(price: real, shares: i32, tax: real, commission: real, side: TransactionType)
    ensures CostTax(AmountWithTaxAndCommission(price, shares, tax, commission, side), commission, shares, price, side)
            == (shares as real) * price * tax
    ensures CostTax(AmountWithTaxAndCommissionIntended(price, shares, tax, commission, side), commission, shares, price, side)
            == CostTransaction(price, shares, tax, commission) - commission
  {
  }

  /** Price inverts the amount built with a tax percentage, in both
      directions. The second clause is a corollary of the postcondition of
      Price. */
  lemma PriceInvertsAmount(price: real, shares: i32, tax: real, commission: real,
                           side: TransactionType, amount: real)
    requires PriceDenominator(shares, tax, side) != 0.0
    ensures Price(AmountWithTaxAndCommissionIntended(price, shares, tax, commission, side), shares, tax, commission, side)
            == price
    ensures AmountWithTaxAndCommissionIntended(Price(amount, shares, tax, commission, side), shares, tax, commission, side)
            == amount
  {
  }

  // ---------------------------------------------------------------
  // After the trade
  // ---------------------------------------------------------------

  /** The gross profit or loss is the sale's amount less the purchase's. */
  lemma ProfitLossOfAmounts(priceBuy: real, sharesBuy: i32, priceSell: real, sharesSell: i32)
    ensures ProfitLoss(priceBuy, sharesBuy, priceSell, sharesSell)
            == Amount(priceSell, sharesSell) - Amount(priceBuy, sharesBuy)
  {
  }

  /** The total cost of a trade is the sum of its two transaction costs. */
  lemma CostTotalOfLegs(priceBuy: real, sharesBuy: i32, taxBuy: real, commissionBuy: real,
                        priceSell: real, sharesSell: i32, taxSell: real, commissionSell: real)
    ensures CostTotal(Amount(priceBuy, sharesBuy), taxBuy, commissionBuy,
                      Amount(priceSell, sharesSell), taxSell, commissionSell)
            == CostTransaction(priceBuy, sharesBuy, taxBuy, commissionBuy)
               + CostTransaction(priceSell, sharesSell, taxSell, commissionSell)
  {
  }

  /** The net profit or loss is what the sale brought in, net of tax and
      commission, less what the purchase cost, tax and commission included. */
  lemma ProfitLossTotalIntendedOfLegs(priceBuy: real, sharesBuy: i32, taxBuy: real, commissionBuy: real,
                                      priceSell: real, sharesSell: i32, taxSell: real, commissionSell: real)
    ensures ProfitLossTotalIntended(priceBuy, sharesBuy, taxBuy, commissionBuy,
                                    priceSell, sharesSell, taxSell, commissionSell)
            == AmountWithTaxAndCommissionIntended(priceSell, sharesSell, taxSell, commissionSell, Sell)
               - AmountWithTaxAndCommissionIntended(priceBuy, sharesBuy, taxBuy, commissionBuy, Buy)
  {
  }

  /** When a trade's only costs are tax and commission, nothing is left
      over as other costs. */
  lemma CostOtherVanishes(priceBuy: real, sharesBuy: i32, taxBuy: real, commissionBuy: real,
                          priceSell: real, sharesSell: i32, taxSell: real, commissionSell: real)
    ensures CostOther(ProfitLoss(priceBuy, sharesBuy, priceSell, sharesSell),
                      ProfitLossTotalIntended(priceBuy, sharesBuy, taxBuy, commissionBuy,
                                              priceSell, sharesSell, taxSell, commissionSell),
                      CostTotal(Amount(priceBuy, sharesBuy), taxBuy, commissionBuy,
                                Amount(priceSell, sharesSell), taxSell, commissionSell))
            == 0.0
  {
  }

  /** When the loss reached the initial risk, the actual risk is the net
      loss of the trade. */
  lemma RiskActualBreachIsNetLoss(priceBuy: real, sharesBuy: i32, taxBuy: real, commissionBuy: real,
                                  priceSell: real, sharesSell: i32, taxSell: real, commissionSell: real,
                                  riskInitial: real, profitLoss: real)
    requires profitLoss < 0.0 && profitLoss <= -riskInitial
    ensures RiskActual(priceBuy, sharesBuy, taxBuy, commissionBuy, priceSell, sharesSell, taxSell, commissionSell,
                       riskInitial, profitLoss)
            == - ProfitLossTotalIntended(priceBuy, sharesBuy, taxBuy, commissionBuy,
                                         priceSell, sharesSell, taxSell, commissionSell)
  {
  }

  /** Break-even keeps the initial risk: an exact zero takes the
      non-breach branch. */
  lemma RiskActualAtBreakEven(priceBuy: real, sharesBuy: i32, taxBuy: real, commissionBuy: real,
                              priceSell: real, sharesSell: i32, taxSell: real, commissionSell: real,
                              riskInitial: real)
    ensures RiskActual(priceBuy, sharesBuy, taxBuy, commissionBuy, priceSell, sharesSell, taxSell, commissionSell,
                       riskInitial, 0.0)
            == riskInitial
  {
  }

  /** A stop-out at exactly the initial risk is an R-multiple of -1. */
  lemma RMultipleOfStopOut(riskInitial: real)
    requires riskInitial != 0.0
    ensures RMultiple(-riskInitial, riskInitial) == -1.0
  {
  }
}
