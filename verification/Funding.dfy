/** Funding rate, per-base funding delta, payments and time-weighted averages. */
module Funding {
  import opened Numbers

  function CalculateFundingRate(markTwap: u64, oracleTwap: u64, period: i64, maxAbsRate: i128): Result<i128> {
    var _ :- Need(oracleTwap > 0, InvalidOraclePrice);
    var diff :- FitI128(markTwap - oracleTwap);
    var scaledDiff :- FitI128(diff * FUNDING_RATE_PRECISION);
    var rate :- FitI128(TruncDiv(scaledDiff, oracleTwap));
    var overPeriod :- FitI128(rate * period);
    var scaled :- FitI128(TruncDiv(overPeriod, DAY_SECONDS));
    var lowest :- FitI128(0 - maxAbsRate);
    FitI128(Clamp(scaled, lowest, maxAbsRate))
  }

  function FundingDeltaPerBase(rate: i128, price: u64): Result<i128> {
    var scaled :- FitI128(rate * price);
    FitI128(TruncDiv(scaled, FUNDING_RATE_PRECISION))
  }

  /** What a position owes since it last settled; positive when the user pays. */
  function FundingPayment(base: i64, cumNow: i128, cumLast: i128): Result<i128> {
    var delta :- FitI128(cumNow - cumLast);
    var scaled :- FitI128(base * delta);
    FitI128(TruncDiv(scaled, BASE_PRECISION))
  }

  function UpdateTwap(previous: u64, current: u64, elapsed: i64, window: i64): Result<u64> {
    if elapsed <= 0 || previous == 0 then Ok(current)
    else
      var w: u128 := Max(window, 1);
      var weight: u128 := Min(elapsed, w);
      var kept :- FitU128(previous * (w - weight));
      var added :- FitU128(current * weight);
      var sum :- FitU128(kept + added);
      FitU64(sum / w)
  }
}
