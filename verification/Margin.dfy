/** Profit and loss, margin requirements, fees and the liquidation test. */
module Margin {
  import opened Numbers
  import opened State

  function BaseAssetValue(base: i64, price: u64): Result<i128> {
    var scaled :- FitI128(base * price);
    FitI128(TruncDiv(scaled, BASE_PRECISION))
  }

  function UnrealizedPnl(p: PerpPosition, price: u64): Result<i128> {
    var value :- BaseAssetValue(p.base, price);
    FitI128(value + p.entry)
  }

  function PositionNotional(base: i64, price: u64): Result<u128> {
    var scaled :- FitU128(Abs(base) * price);
    Ok(scaled / BASE_PRECISION)
  }

  function MarginRequirement(notional: u128, ratio: u32): Result<u128> {
    var scaled :- FitU128(notional * ratio);
    Ok(scaled / MARGIN_PRECISION)
  }

  /** A fee on a notional, rounded up. */
  function FeeAmount(notional: u128, bps: u16): Result<u128> {
    var scaled :- FitU128(notional * bps);
    DivCeil(scaled, BPS_DENOMINATOR)
  }

  function LiquidationFee(notional: u128, bps: u16): Result<u128> {
    var scaled :- FitU128(notional * bps);
    Ok(scaled / BPS_DENOMINATOR)
  }

  /** Account health: collateral with unrealized PnL, and the two requirements. */
  datatype Health = Health(total: i128, initial: u128, maintenance: u128)

  function AddPosition(h: Health, p: PerpPosition, price: u64, ratioInitial: u32, ratioMaintenance: u32)
    : Result<Health>
  {
    var pnl :- UnrealizedPnl(p, price);
    var total :- FitI128(h.total + pnl);
    var notional :- PositionNotional(p.base, price);
    var imr :- MarginRequirement(notional, ratioInitial);
    var initial :- FitU128(h.initial + imr);
    var mmr :- MarginRequirement(notional, ratioMaintenance);
    var maintenance :- FitU128(h.maintenance + mmr);
    Ok(Health(total, initial, maintenance))
  }

  predicate MeetsInitial(h: Health) { h.total >= AsI128(h.initial) }

  predicate IsLiquidatable(total: i128, maintenance: u128) { total < AsI128(maintenance) }

  /** Health of one position against a collateral balance, as every caller computes it. */
  function HealthOf(collateral: u64, p: PerpPosition, price: u64, m: Market): Result<Health> {
    AddPosition(Health(collateral, 0, 0), p, price, m.marginInitial, m.marginMaintenance)
  }

  /** The `require_initial` gate behind every operation that adds risk. */
  function RequireInitial(collateral: u64, p: PerpPosition, price: u64, m: Market): Result<()> {
    var h :- HealthOf(collateral, p, price, m);
    var _ :- Need(MeetsInitial(h), InsufficientFreeCollateral);
    Ok(())
  }

  // ------------------------------------------------------------ facts

  /** Health in exact terms: no cast in it ever wraps. */
  lemma HealthExact(collateral: u64, p: PerpPosition, price: u64, m: Market)
    requires HealthOf(collateral, p, price, m).Ok?
    ensures var h := HealthOf(collateral, p, price, m).value;
      var notional := Abs(p.base) * price / BASE_PRECISION;
      && h.total == collateral + TruncDiv(p.base * price, BASE_PRECISION) + p.entry
      && h.initial == notional * m.marginInitial / MARGIN_PRECISION
      && h.maintenance == notional * m.marginMaintenance / MARGIN_PRECISION
      && AsI128(h.initial) == h.initial
      && AsI128(h.maintenance) == h.maintenance
  {
    var notional := Abs(p.base) * price / BASE_PRECISION;
    assert U128_MAX / MARGIN_PRECISION <= I128_MAX;
    FloorMono(notional * m.marginInitial, U128_MAX, MARGIN_PRECISION);
    FloorMono(notional * m.marginMaintenance, U128_MAX, MARGIN_PRECISION);
  }

  /** Fees fit a signed 128-bit integer. */
  lemma FeeExact(notional: u128, bps: u16)
    requires FeeAmount(notional, bps).Ok?
    ensures FeeAmount(notional, bps).value == CeilDiv(notional * bps, BPS_DENOMINATOR)
    ensures AsI128(FeeAmount(notional, bps).value) == FeeAmount(notional, bps).value
  {
    CeilMono(notional * bps, U128_MAX, BPS_DENOMINATOR);
    assert CeilDiv(U128_MAX, BPS_DENOMINATOR) <= I128_MAX;
  }

  lemma LiquidationFeeExact(notional: u128, bps: u16)
    requires LiquidationFee(notional, bps).Ok?
    ensures AsI128(LiquidationFee(notional, bps).value) == LiquidationFee(notional, bps).value
  {
    FloorMono(notional * bps, U128_MAX, BPS_DENOMINATOR);
    assert U128_MAX / BPS_DENOMINATOR <= I128_MAX;
  }
}
