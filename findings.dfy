/** Where the library's formulas, as written, break the relations their own
    notes describe: each as-written formula is set against its corrected
    counterpart in TradeMath. */
module TradeMathFindings {
  import opened Numeric
  import opened TradeMath

  /** A product of reals is zero exactly when a factor is. */
  lemma MulZero(a: real, b: real)
    ensures a * b == 0.0 <==> a == 0.0 || b == 0.0
  {
  }

  // ---------------------------------------------------------------
  // Stop-loss: the denominator is grouped as `shares - tax / 100`
  // ---------------------------------------------------------------

  /** Feeding the library's stop-loss into the initial risk gives back the
      risk budget exactly when the tax is zero, a single share is traded,
      or the stop-loss is zero; on both sides. */
  lemma StoplossReconcilesIff(price: real, shares: i32, tax: real, commission: real,
                              risk: real, pool: real, isLong: bool)
    requires StoplossDenominator(shares, tax, isLong) != 0.0
    ensures RiskInitial(price, shares, tax, commission,
                        Stoploss(price, shares, tax, commission, risk, pool, isLong), isLong)
            == RiskInput(pool, risk)
            <==> tax == 0.0 || shares == 1
                 || Stoploss(price, shares, tax, commission, risk, pool, isLong) == 0.0
  {
    var s := shares as real;
    var t := tax / 100.0;
    var sl := Stoploss(price, shares, tax, commission, risk, pool, isLong);
    var d := StoplossDenominator(shares, tax, isLong);
    var numerator :=
      if isLong then s * price * (1.0 + t) - risk / 100.0 * pool + 2.0 * commission
      else risk / 100.0 * pool + s * price * (1.0 - t) - 2.0 * commission;
    assert sl * d == numerator;
    // The initial risk differs from the budget by the gap between the
    // intended and the written denominator, times the stop-loss.
    var gap := if isLong then s * (1.0 - t) - d else s * (1.0 + t) - d;
    assert gap == (if isLong then t * (1.0 - s) else t * (s - 1.0));
    assert RiskInitial(price, shares, tax, commission, sl, isLong) - RiskInput(pool, risk)
           == (if isLong then - sl * gap else sl * gap);
    if isLong { MulZero(t, 1.0 - s); } else { MulZero(t, s - 1.0); }
    MulZero(sl, gap);
  }

  /** The library's stop-loss agrees with the corrected one when the tax is
      zero or a single share is traded. */
  lemma StoplossAgreesWithoutTaxOrWithOneShare(price: real, shares: i32, tax: real, commission: real,
                                               risk: real, pool: real, isLong: bool)
    requires StoplossDenominator(shares, tax, isLong) != 0.0
    requires tax == 0.0 || shares == 1
    ensures StoplossDenominatorIntended(shares, tax, isLong) != 0.0
    ensures Stoploss(price, shares, tax, commission, risk, pool, isLong)
            == StoplossIntended(price, shares, tax, commission, risk, pool, isLong)
  {
  }

  /** A long trade of 100 shares at 10 with 1% tax, no commission, risking
      1% of a 1000 pool: the library's stop-loss implies a risk near 19.9,
      not the budgeted 10. */
  lemma StoplossCounterexample()
    ensures StoplossDenominator(100, 1.0, true) != 0.0
    ensures RiskInitial(10.0, 100, 1.0, 0.0, Stoploss(10.0, 100, 1.0, 0.0, 1.0, 1000.0, true), true)
            != RiskInput(1000.0, 1.0)
  {
  }

  // ---------------------------------------------------------------
  // Amount with tax and commission: the tax is taken as a fraction
  // ---------------------------------------------------------------

  /** The library's amount is the corrected amount with the tax divided by
      one hundred beforehand. */
  lemma AmountTakesTaxAsFraction(price: real, shares: i32, tax: real, commission: real, side: TransactionType)
    ensures AmountWithTaxAndCommission(price, shares, tax / 100.0, commission, side)
            == AmountWithTaxAndCommissionIntended(price, shares, tax, commission, side)
  {
  }

  /** Price inverts the library's amount only when the tax or the price
      is zero. */
  lemma PriceInvertsAmountIff(price: real, shares: i32, tax: real, commission: real, side: TransactionType)
    requires PriceDenominator(shares, tax, side) != 0.0
    ensures Price(AmountWithTaxAndCommission(price, shares, tax, commission, side), shares, tax, commission, side)
            == price
            <==> tax == 0.0 || price == 0.0
  {
  }

  /** Ten shares bought at 100 with a 1% tax and 5 commission: the library's
      amount is 2005 instead of 1015, and Price does not return 100 on it. */
  lemma AmountCounterexample()
    ensures AmountWithTaxAndCommission(100.0, 10, 1.0, 5.0, Buy) == 2005.0
    ensures AmountWithTaxAndCommissionIntended(100.0, 10, 1.0, 5.0, Buy) == 1015.0
    ensures Price(2005.0, 10, 1.0, 5.0, Buy) != 100.0
  {
  }

  // ---------------------------------------------------------------
  // Total profit or loss: the buy leg's tax is subtracted
  // ---------------------------------------------------------------

  /** The library's net profit or loss exceeds the corrected one by twice
      the buy leg's tax, so the two agree only when that tax is zero. */
  lemma ProfitLossTotalBuyTaxSign(priceBuy: real, sharesBuy: i32, taxBuy: real, commissionBuy: real,
                                  priceSell: real, sharesSell: i32, taxSell: real, commissionSell: real)
    ensures ProfitLossTotal(priceBuy, sharesBuy, taxBuy, commissionBuy, priceSell, sharesSell, taxSell, commissionSell)
            - ProfitLossTotalIntended(priceBuy, sharesBuy, taxBuy, commissionBuy, priceSell, sharesSell, taxSell, commissionSell)
            == 2.0 * CostTransaction(priceBuy, sharesBuy, taxBuy, 0.0)
  {
  }

  /** With the library's net profit or loss, a trade whose only costs are
      tax and commission shows other costs of minus twice the buy tax. */
  lemma CostOtherResidual(priceBuy: real, sharesBuy: i32, taxBuy: real, commissionBuy: real,
                          priceSell: real, sharesSell: i32, taxSell: real, commissionSell: real)
    ensures CostOther(ProfitLoss(priceBuy, sharesBuy, priceSell, sharesSell),
                      ProfitLossTotal(priceBuy, sharesBuy, taxBuy, commissionBuy,
                                      priceSell, sharesSell, taxSell, commissionSell),
                      CostTotal(Amount(priceBuy, sharesBuy), taxBuy, commissionBuy,
                                Amount(priceSell, sharesSell), taxSell, commissionSell))
            == -2.0 * CostTransaction(priceBuy, sharesBuy, taxBuy, 0.0)
  {
  }

  /** Ten shares bought at 100 and sold at 120, 1% tax and 5 commission on
      each leg: the library's net result is 188, the corrected one 168, and
      only the latter leaves no other costs. */
  lemma ProfitLossTotalExample()
    ensures ProfitLossTotal(100.0, 10, 1.0, 5.0, 120.0, 10, 1.0, 5.0) == 188.0
    ensures ProfitLossTotalIntended(100.0, 10, 1.0, 5.0, 120.0, 10, 1.0, 5.0) == 168.0
    ensures CostTotal(1000.0, 1.0, 5.0, 1200.0, 1.0, 5.0) == 32.0
    ensures CostOther(200.0, 188.0, 32.0) == -20.0
    ensures CostOther(200.0, 168.0, 32.0) == 0.0
  {
  }
}
