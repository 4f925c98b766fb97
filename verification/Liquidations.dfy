/** Funding settlement and liquidation: what they take, and what they leave as debt. */
module Liquidations {
  import opened Numbers
  import opened Sequences
  import opened State
  import opened Margin
  import opened Funding
  import opened Controller
  import opened Instructions
  import opened Bookkeeping

  /** Funding moves collateral and debt by the payment, and nothing but the checkpoint else. */
  lemma PayFundingFacts(u: User, at: nat, payment: i128, cum: i128)
    requires at < |u.positions| && PayFunding(u, at, payment, cum).Ok?
    ensures var u' := PayFunding(u, at, payment, cum).value;
      && u' == u.(collateral := Max(u.collateral - payment, 0), badDebt := u.badDebt + Max(payment - u.collateral, 0),
                  positions := u.positions[at := u.positions[at].(lastCumFunding := cum)])
      && UserCash()(u') == UserCash()(u) - payment
  {
  }

  lemma FundingPaymentExact(base: i64, cumNow: i128, cumLast: i128)
    requires FundingPayment(base, cumNow, cumLast).Ok?
    ensures FundingPayment(base, cumNow, cumLast).value == TruncDiv(base * (cumNow - cumLast), BASE_PRECISION)
  {
  }

  /** Settling funding does not change which slot a market's position is found in. */
  lemma PaidSlotFound(u: User, k: u16, cum: i128)
    requires SlotsOk(u.positions) && FindPosition(u.positions, k).Some?
    ensures var at := FindPosition(u.positions, k).value;
      var ps := u.positions[at := u.positions[at].(lastCumFunding := cum)];
      SlotsOk(ps) && FindPosition(ps, k) == Some(at) && OnlySlot(ps, at, k)
  {
    var at := FindPosition(u.positions, k).value;
    var ps := u.positions[at := u.positions[at].(lastCumFunding := cum)];
    FoundIsOnly(u.positions, k);
    assert OpenIn(k)(ps[at]);
    var found := FindPosition(ps, k);
    assert found.Some? && OnlySlot(ps, at, k);
  }

  /** The fee is part of what is left after profit and loss, so the fee alone never
      creates debt; it is charged in full when it fits. */
  lemma FeeNeverCreatesDebt(m: Market, size: u64, price: u64, afterPnl: i128)
    requires ChargeLiquidation(m, size, price, afterPnl).Ok?
    ensures var fee := ChargeLiquidation(m, size, price, afterPnl).value;
      && 0 <= fee <= Max(afterPnl, 0)
      && (afterPnl - fee < 0 <==> afterPnl < 0)
      && (afterPnl <= 0 ==> fee == 0)
  {
    var notional := PositionNotional(AsI64(size), price).value;
    LiquidationFeeExact(notional, m.liquidationFeeBps);
  }

  /** The closing half of a liquidation, stage by stage. */
  lemma LiquidateShape(u: User, m: Market, insurance: u64, at: nat, size: u64, price: u64)
    returns (swap: Curve.SwapResult, reduction: Reduction, fee: int)
    requires at < |u.positions| && LiquidateClose(u, m, insurance, at, size, price).Ok?
    ensures SwapMarket(m, size, if u.positions[at].base > 0 then Curve.Add else Curve.Remove) == Ok(swap)
    ensures Reduce(u.positions[at], size, swap.quote) == Ok(reduction)
    ensures FitI128(u.collateral + reduction.realized).Ok?
    ensures ChargeLiquidation(m, size, price, u.collateral + reduction.realized) == Ok(fee)
    ensures RemoveOpenInterest(WithReserves(m, swap), u.positions[at].base > 0, size).Ok?
    ensures 0 <= fee
    ensures var r := LiquidateClose(u, m, insurance, at, size, price).value;
      var final := u.collateral + reduction.realized - fee;
      && I64_MIN <= u.settledPnl + reduction.realized <= I64_MAX
      && r.insurance == insurance + fee
      && r.market == RemoveOpenInterest(WithReserves(m, swap), u.positions[at].base > 0, size).value
      && 0 <= u.badDebt + Max(-final, 0) <= U64_MAX && Max(final, 0) <= U64_MAX
      && r.user == u.(collateral := Max(final, 0), badDebt := u.badDebt + Max(-final, 0),
                      bankrupt := u.bankrupt || final < 0,
                      settledPnl := u.settledPnl + reduction.realized, beingLiquidated := false,
                      positions := u.positions[at := reduction.position])
  {
    swap := SwapMarket(m, size, if u.positions[at].base > 0 then Curve.Add else Curve.Remove).value;
    reduction := Reduce(u.positions[at], size, swap.quote).value;
    fee := ChargeLiquidation(m, size, price, u.collateral + reduction.realized).value;
    FeeNeverCreatesDebt(m, size, price, u.collateral + reduction.realized);
  }

  /** A liquidation moves reserves and totals of its market, and keeps the curve. */
  lemma LiquidateMarket(u: User, m: Market, insurance: u64, at: nat, size: u64, price: u64)
    requires CurveOk(m.amm) && at < |u.positions| && 0 < size <= Abs(u.positions[at].base)
    requires Abs(u.positions[at].base) <= if u.positions[at].base > 0 then m.oiLong else m.oiShort
    requires LiquidateClose(u, m, insurance, at, size, price).Ok?
    ensures var m' := LiquidateClose(u, m, insurance, at, size, price).value.market;
      && OnlyTraded(m, m') && m'.amm.totalFee == m.amm.totalFee && Kept(m.amm, m'.amm)
      && m'.oiLong - m.oiLong == m'.amm.long - m.amm.long && m'.oiShort - m.oiShort == m.amm.short - m'.amm.short
      && m'.amm.long - m.amm.long == (if u.positions[at].base > 0 then 0 - size else 0)
      && m'.amm.short - m.amm.short == (if u.positions[at].base > 0 then 0 else size)
  {
    var swap, reduction, fee := LiquidateShape(u, m, insurance, at, size, price);
    hide LiquidateClose, ChargeLiquidation;
    var p := u.positions[at];
    SwapKeepsCurve(m, size, if p.base > 0 then Curve.Add else Curve.Remove);
    RemoveOpenInterestFacts(WithReserves(m, swap), p.base > 0, size);
  }

  /** A liquidation writes one slot, pays the fund its fee, and books the profit it realizes. */
  lemma LiquidateUser(u: User, m: Market, insurance: u64, at: nat, size: u64, price: u64)
    requires UserOk(u) && CurveOk(m.amm) && at < |u.positions| && 0 < size <= Abs(u.positions[at].base)
    requires LiquidateClose(u, m, insurance, at, size, price).Ok?
    ensures var r := LiquidateClose(u, m, insurance, at, size, price).value;
      && |r.user.positions| == |u.positions| && r.user.positions == u.positions[at := r.user.positions[at]]
      && var p, p' := u.positions[at], r.user.positions[at];
      var realized := r.user.settledPnl - u.settledPnl;
      && SlotOk(p') && p'.marketIndex == p.marketIndex
      && p'.base == (if p.base > 0 then p.base - size else p.base + size)
      && realized == p.entry - p'.entry - QuoteIn(m.amm, r.market.amm)
      && UserCash()(r.user) == UserCash()(u) + realized - (r.insurance - insurance)
      && |r.user.orders| == |u.orders| && r.user.orders == u.orders && (r.user.bankrupt ==> r.user.badDebt > 0)
  {
    var swap, reduction, fee := LiquidateShape(u, m, insurance, at, size, price);
    var r := LiquidateClose(u, m, insurance, at, size, price).value;
    var p := u.positions[at];
    assert r.market.amm.quote == swap.newQuote && r.market.amm.peg == m.amm.peg;
    hide LiquidateClose, ChargeLiquidation, SwapMarket, Reduce, RemoveOpenInterest, CurveOk, SlotsOk;
    SwapKeepsCurve(m, size, if p.base > 0 then Curve.Add else Curve.Remove);
    ReduceFacts(p, size, swap.quote);
    assert QuoteIn(m.amm, r.market.amm) == if p.base > 0 then 0 - swap.quote else swap.quote;
  }

  /** The closing half of a liquidation as a trade leg: the charge is what the fund gets. */
  lemma LiquidateFacts(u: User, m: Market, insurance: u64, at: nat, size: u64, price: u64)
    requires UserOk(u) && CurveOk(m.amm) && OnlySlot(u.positions, at, m.index)
    requires u.positions[at].marketIndex == m.index && 0 < size <= Abs(u.positions[at].base)
    requires Abs(u.positions[at].base) <= if u.positions[at].base > 0 then m.oiLong else m.oiShort
    requires LiquidateClose(u, m, insurance, at, size, price).Ok?
    ensures var r := LiquidateClose(u, m, insurance, at, size, price).value;
      && Leg(u, m, r.user, r.market, QuoteIn(m.amm, r.market.amm), r.user.settledPnl - u.settledPnl,
             r.insurance - insurance)
      && OnlyTraded(m, r.market) && r.market.amm.totalFee == m.amm.totalFee
      && Kept(m.amm, r.market.amm)
      && UserOk(r.user)
  {
    LiquidateMarket(u, m, insurance, at, size, price);
    LiquidateUser(u, m, insurance, at, size, price);
    var r := LiquidateClose(u, m, insurance, at, size, price).value;
    hide LiquidateClose, Kept, OnlyTraded, CurveOk, UserCash, QuoteIn;
    CloseLeg(u, m, r.user, r.market, at, r.user.settledPnl - u.settledPnl, r.insurance - insurance);
  }
}
