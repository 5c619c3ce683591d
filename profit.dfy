/** The profit formulas of the routes: percentage change from the value
    recorded when a coin was shared to its current value. */
module Profit {
  import opened Common

  /** `((current - share) / share) * 100`, exactly, over the reals: positive
      exactly when the value grew, zero exactly when it did not change. */
  function PercentChange(share: real, current: real): (p: real)
    requires share != 0.0
    ensures share > 0.0 ==> (p > 0.0 <==> current > share)
    ensures p == 0.0 <==> current == share
  {
    var d := current - share;
    var q := d / share;
    assert q * share == d;
    q * 100.0
  }

  /** The result is the percentage that carries `share` to `current`, so
      `current` can be recovered from it. */
  lemma PercentChangeRecoversCurrent(share: real, current: real)
    requires share != 0.0
    ensures current == share + share * PercentChange(share, current) / 100.0
  {
    var q := (current - share) / share;
    assert q * share == current - share;
  }

  /** Market-cap profit of one coin, as the highlight and average routes
      compute it: present only when both the recorded and the current market
      cap are truthy; otherwise the coin is skipped. */
  function CapProfit(shareCap: Option<real>, currentCap: Option<real>): (r: Option<real>)
    ensures r.Some? <==> Truthy(shareCap) && Truthy(currentCap)
  {
    if Truthy(currentCap) && Truthy(shareCap) then
      Some(PercentChange(shareCap.value, currentCap.value))
    else
      None
  }

  /** A market-cap profit is the percentage change from the share cap to the
      current cap. */
  lemma CapProfitRecoversCurrent(shareCap: Option<real>, currentCap: Option<real>)
    ensures var r := CapProfit(shareCap, currentCap);
            r.Some? ==> currentCap.value == shareCap.value + shareCap.value * r.value / 100.0
  {
    if Truthy(currentCap) && Truthy(shareCap) {
      PercentChangeRecoversCurrent(shareCap.value, currentCap.value);
    }
  }

  /** Price-based profit of the latest-coins listing: the percentage change
      from the share price to the current price when both are truthy, and
      exactly 0 otherwise (a missing current price counts as 0). */
  function PriceProfit(sharePrice: Option<real>, currentPrice: Option<real>): (r: real)
    ensures !(Truthy(sharePrice) && Truthy(currentPrice)) ==> r == 0.0
  {
    var shareP := sharePrice.GetOr(0.0);
    var currentP := currentPrice.GetOr(0.0);
    if shareP != 0.0 && currentP != 0.0 then PercentChange(shareP, currentP) else 0.0
  }

  /** With both prices truthy, the listing's profit is the percentage change
      from the share price to the current price. */
  lemma PriceProfitRecoversCurrent(sharePrice: Option<real>, currentPrice: Option<real>)
    requires Truthy(sharePrice) && Truthy(currentPrice)
    ensures currentPrice.value == sharePrice.value + sharePrice.value * PriceProfit(sharePrice, currentPrice) / 100.0
  {
    PercentChangeRecoversCurrent(sharePrice.value, currentPrice.value);
  }

  /** The three reference points of the formula: a rise from 100 to 150 is
      50%, a fall to 50 is -50%, no change is 0%. */
  lemma PercentChangeExamples()
    ensures CapProfit(Some(100.0), Some(150.0)) == Some(50.0)
    ensures CapProfit(Some(100.0), Some(50.0)) == Some(-50.0)
    ensures CapProfit(Some(100.0), Some(100.0)) == Some(0.0)
  {
  }

  /** A zero or missing recorded market cap never yields a profit: the coin is
      reported as not computable instead of dividing by zero. */
  lemma ZeroShareCapIsSkipped(shareCap: Option<real>, currentCap: Option<real>)
    requires shareCap.None? || shareCap.value == 0.0
    ensures CapProfit(shareCap, currentCap).None?
  {
  }
}
