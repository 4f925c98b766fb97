/** The instruction handlers over mutable accounts.  Each computes what `Instructions` says
    of the values its accounts held, or fails with the same error. */
module Handlers {
  import opened Numbers
  import opened Sequences
  import opened State
  import opened Curve
  import opened Margin
  import opened Funding
  import opened Controller
  import opened Instructions
  import opened Accounts
  import Execution

  // ------------------------------------------------------------ collateral

  method Deposit(cfg: Config, user: UserAccount, amount: u64) returns (r: Result<()>)
    modifies user
    ensures DepositCollateral(cfg, old(user.View()), amount) == if r.Ok? then Ok(user.View()) else Err(r.error)
  {
    var _ :- Need(!cfg.paused, ProtocolPaused);
    var _ :- Need(amount > 0, InvalidAmount);
    var collateral :- FitU64(user.collateral + amount);
    user.collateral := collateral;
    var deposits :- FitI64(user.cumDeposits + AsI64(amount));
    user.cumDeposits := deposits;
    return Ok(());
  }

  method Withdraw(cfg: Config, user: UserAccount, market: MarketAccount, amount: u64, price: u64)
    returns (r: Result<()>)
    modifies user
    ensures WithdrawCollateral(cfg, old(user.View()), market.View(), amount, price)
      == if r.Ok? then Ok(user.View()) else Err(r.error)
  {
    hide Margin.AddPosition;
    var _ :- Need(!cfg.paused, ProtocolPaused);
    var _ :- Need(amount > 0, InvalidAmount);
    var _ :- Need(amount <= user.collateral, InsufficientCollateral);
    var remaining: u64 := user.collateral - amount;
    var margin := new MarginCalculation(remaining);
    var found := user.FindPosition(market.index);
    if found.Some? {
      var _ :- margin.AddPosition(user.positions[found.value], price, market.marginInitial, market.marginMaintenance);
    }
    var _ :- margin.RequireInitial();
    user.collateral := remaining;
    return Ok(());
  }

  // ------------------------------------------------------------ trading

  method OpenTrade(cfg: Config, user: UserAccount, market: MarketAccount, dir: Direction, size: u64, limit: u64,
                   price: u64)
    returns (r: Result<()>)
    modifies user, user.positions, market
    ensures
      OpenPosition(cfg, old(user.View()), old(market.View()), dir, size, limit, price)
      == if r.Ok? then Ok((user.View(), market.View())) else Err(r.error)
  {
    hide ExecuteAmmOpen;
    var _ :- Need(!cfg.paused, ProtocolPaused);
    var _ :- market.View().RequireCanOpen();
    var _ :- Need(size >= market.minOrderBase && size > 0, OrderTooSmall);
    var _ :- Need(!user.beingLiquidated, BeingLiquidated);
    var _ :- Execution.ExecuteAmmOpen(user, market, cfg.takerFeeBps, dir, size, limit, price);
    return Ok(());
  }

  method CloseTrade(cfg: Config, user: UserAccount, market: MarketAccount, size: u64, limit: u64)
    returns (r: Result<()>)
    modifies user, user.positions, market
    ensures
      ClosePosition(cfg, old(user.View()), old(market.View()), size, limit)
      == if r.Ok? then Ok((user.View(), market.View())) else Err(r.error)
  {
    hide ExecuteAmmClose;
    var found := user.FindPosition(market.index);
    if found.None? {
      return Err(PositionNotFound);
    }
    var whole: u64 := Abs(user.positions[found.value].base);
    var _ :- Execution.ExecuteAmmClose(user, market, cfg.takerFeeBps, found.value, CloseSize(size, whole), limit);
    return Ok(());
  }

  // ------------------------------------------------------------ orders

  method Place(cfg: Config, user: UserAccount, market: MarketAccount, p: OrderParams, now: i64) returns (r: Result<()>)
    modifies user, user.orders
    ensures PlaceOrder(cfg, old(user.View()), market.View(), p, now) == if r.Ok? then Ok(user.View()) else Err(r.error)
  {
    var _ :- Need(!cfg.paused, ProtocolPaused);
    var _ :- market.View().RequireCanPlaceOrder(p.reduceOnly);
    var _ :- Need(p.amount >= market.minOrderBase && p.amount > 0, OrderTooSmall);
    var _ :- CheckOrderPrices(p);
    var slot := user.FreeOrderSlot();
    if slot.None? {
      return Err(OrdersFull);
    }
    var id := user.NextOrderId();
    user.orders[slot.value] := RestingOrder(id, market.index, p, now);
    return Ok(());
  }

  method Cancel(user: UserAccount, id: u32) returns (r: Result<()>)
    modifies user.orders
    ensures CancelOrder(old(user.View()), id) == if r.Ok? then Ok(user.View()) else Err(r.error)
  {
    var slot :- user.FindOrder(id);
    user.orders[slot] := EMPTY_ORDER;
    return Ok(());
  }

  /** Fill a resting limit order against the AMM: an opening order in full, a reduce-only
      order up to the position it closes. */
  method Fill(cfg: Config, user: UserAccount, market: MarketAccount, id: u32, price: u64) returns (r: Result<()>)
    modifies user, user.positions, user.orders, market
    ensures
      FillOrder(cfg, old(user.View()), old(market.View()), id, price)
      == if r.Ok? then Ok((user.View(), market.View())) else Err(r.error)
  {
    hide ExecuteAmmOpen, ExecuteAmmClose;
    var _ :- Need(!cfg.paused, ProtocolPaused);
    var slot :- user.FindOrder(id);
    var order := user.orders[slot];
    var _ :- Need(order.orderType == Limit, UnsupportedOrderType);
    var _ :- Need(order.marketIndex == market.index, InvalidMarketIndex);
    var remaining := order.Remaining();
    var _ :- Need(remaining > 0, InvalidAmount);
    var _ :- if order.reduceOnly then market.View().RequireCanReduce() else market.View().RequireCanOpen();
    if order.reduceOnly {
      var found := user.FindPosition(market.index);
      if found.None? {
        return Err(PositionNotFound);
      }
      var base := user.positions[found.value].base;
      var _ :- Need((order.direction == Long) != (base > 0), ReduceOnlyViolation);
      var whole: u64 := Abs(base);
      var size: u64 := Min(remaining, whole);
      assert size > 0; // an open position and a non-empty remainder: the size check cannot fail
      var _ :- Execution.ExecuteAmmClose(user, market, cfg.takerFeeBps, found.value, size, order.price);
      user.orders[slot] := user.orders[slot].Fill(size);
      if user.orders[slot].Remaining() == 0 || size == whole {
        user.orders[slot] := EMPTY_ORDER;
      }
    } else {
      var _ :- Execution.ExecuteAmmOpen(user, market, cfg.takerFeeBps, order.direction, remaining, order.price, price);
      user.orders[slot] := EMPTY_ORDER;
    }
    assert user.orders[..] == old(user.orders[..])[slot := user.orders[slot]];
    return Ok(());
  }

  method FindOpenLimit(user: UserAccount, id: u32, k: u16) returns (r: Result<nat>)
    ensures r == Instructions.FindOpenLimit(user.View(), id, k)
    ensures r.Ok? ==> r.value < user.orders.Length
  {
    var slot :- user.FindOrder(id);
    var _ :- Need(user.orders[slot].orderType == Limit, UnsupportedOrderType);
    var _ :- Need(!user.orders[slot].reduceOnly, UnsupportedOrderType);
    var _ :- Need(user.orders[slot].marketIndex == k, InvalidMarketIndex);
    return Ok(slot);
  }

  /** Count a fill in an order slot, and free the slot once nothing remains. */
  method FillAndMaybeClear(user: UserAccount, slot: nat, size: u64)
    requires slot < user.orders.Length
    modifies user.orders
    ensures user.orders[..]
      == old(user.orders[..])[slot := Instructions.FillAndMaybeClear(old(user.orders[slot]), size)]
  {
    user.orders[slot] := user.orders[slot].Fill(size);
    if user.orders[slot].Remaining() == 0 {
      user.orders[slot] := EMPTY_ORDER;
    }
  }

  /** Cross two resting limit orders of different accounts. */
  method Match(cfg: Config, taker: UserAccount, maker: UserAccount, market: MarketAccount, takerId: u32, makerId: u32,
               price: u64)
    returns (r: Result<()>)
    requires taker != maker && taker.positions != maker.positions && taker.orders != maker.orders
    modifies taker, taker.positions, taker.orders, maker, maker.positions, maker.orders, market
    ensures
      FillMatch(cfg, old(taker.View()), old(maker.View()), false, old(market.View()), takerId, makerId, price)
      == if r.Ok? then Ok(MatchFill(taker.View(), maker.View(), market.View())) else Err(r.error)
  {
    hide ExecuteMakerMatch, Instructions.FindOpenLimit;
    var _ :- Need(!cfg.paused, ProtocolPaused);
    var _ :- market.View().RequireCanOpen();
    var t :- FindOpenLimit(taker, takerId, market.index);
    var m :- FindOpenLimit(maker, makerId, market.index);
    var bid, ask := taker.orders[t], maker.orders[m];
    var _ :- Need(bid.direction != ask.direction, OrdersDoNotCross);
    var _ :- Need(Crosses(bid, ask), OrdersDoNotCross);
    var size: u64 := Min(bid.Remaining(), ask.Remaining());
    var _ :- Need(size > 0, InvalidAmount);
    var _ :- Execution.ExecuteMakerMatch(taker, maker, market, cfg.takerFeeBps, cfg.makerRebateBps, bid.direction, size,
                                         ask.price, price);
    FillAndMaybeClear(taker, t, size);
    FillAndMaybeClear(maker, m, size);
    return Ok(());
  }

  /** Fire a stop-loss or take-profit: close, then consume the order. */
  method Trigger(cfg: Config, user: UserAccount, market: MarketAccount, id: u32, price: u64) returns (r: Result<()>)
    modifies user, user.positions, user.orders, market
    ensures
      TriggerOrder(cfg, old(user.View()), old(market.View()), id, price)
      == if r.Ok? then Ok((user.View(), market.View())) else Err(r.error)
  {
    hide ExecuteAmmClose;
    var _ :- Need(!cfg.paused, ProtocolPaused);
    var _ :- market.View().RequireCanReduce();
    var slot :- user.FindOrder(id);
    var order := user.orders[slot];
    var _ :- Need(order.orderType == TriggerMarket || order.orderType == TriggerLimit, UnsupportedOrderType);
    var _ :- Need(order.reduceOnly, UnsupportedOrderType);
    var _ :- Need(order.marketIndex == market.index, InvalidMarketIndex);
    var _ :- Need(Fired(order, price), TriggerConditionNotMet);
    var found := user.FindPosition(market.index);
    if found.None? {
      return Err(PositionNotFound);
    }
    var whole: u64 := Abs(user.positions[found.value].base);
    var size: u64 := Min(order.Remaining(), whole);
    var _ :- Need(size > 0, InvalidAmount);
    var limit: u64 := if order.orderType == TriggerLimit then order.price else 0;
    var _ :- Execution.ExecuteAmmClose(user, market, cfg.takerFeeBps, found.value, size, limit);
    user.orders[slot] := user.orders[slot].Fill(size);
    user.orders[slot] := user.orders[slot].(status := Init);
    assert user.orders[..] == old(user.orders[..])[slot := user.orders[slot]];
    return Ok(());
  }

  // ------------------------------------------------------------ funding

  /** Refresh both averages, then accrue funding for the time elapsed. */
  method UpdateFunding(market: MarketAccount, price: u64, now: i64) returns (r: Result<()>)
    modifies market
    ensures UpdateFundingRate(old(market.View()), price, now) == if r.Ok? then Ok(market.View()) else Err(r.error)
  {
    hide ReservePrice, UpdateTwap, CalculateFundingRate, FundingDeltaPerBase;
    var mark :- ReservePrice(market.amm.base, market.amm.quote, market.amm.peg);
    var window: i64 := Max(market.fundingPeriod, 1);
    var elapsedTwap :- FitI64(now - market.amm.lastTwapTs);
    var markTwap :- UpdateTwap(market.amm.markTwap, mark, elapsedTwap, window);
    market.amm := market.amm.(markTwap := markTwap);
    var oracleTwap :- UpdateTwap(market.amm.oracleTwap, price, elapsedTwap, window);
    market.amm := market.amm.(oracleTwap := oracleTwap);
    market.amm := market.amm.(lastTwapTs := now);
    var elapsed :- FitI64(now - market.amm.lastFundingTs);
    if elapsed > 0 {
      var period: i64 := Min(elapsed, market.fundingPeriod);
      var rate :- CalculateFundingRate(market.amm.markTwap, market.amm.oracleTwap, period, MAX_FUNDING_RATE);
      var delta :- FundingDeltaPerBase(rate, market.amm.oracleTwap);
      var cum :- FitI128(market.amm.cumFundingLong as int + delta);
      market.amm := market.amm.(cumFundingLong := cum);
      market.amm := market.amm.(cumFundingShort := market.amm.cumFundingLong);
      market.amm := market.amm.(lastFundingRate := rate, lastFundingTs := now);
      var next :- FitI64(now + market.fundingPeriod);
      market.nextFundingTs := next;
    }
    return Ok(());
  }

  /** Take a funding payment from the collateral; what it does not cover is bad debt. */
  method PayFunding(user: UserAccount, at: nat, payment: i128, cum: i128) returns (r: Result<()>)
    requires at < user.positions.Length
    modifies user, user.positions
    ensures Instructions.PayFunding(old(user.View()), at, payment, cum)
      == if r.Ok? then Ok(user.View()) else Err(r.error)
  {
    var after :- FitI128(user.collateral - payment);
    if after < 0 {
      var shortfall :- FitU64(0 - after);
      var debt :- FitU64(user.badDebt + shortfall);
      user.badDebt := debt;
      user.collateral := 0;
    } else {
      var collateral :- FitU64(after);
      user.collateral := collateral;
    }
    user.positions[at] := user.positions[at].(lastCumFunding := cum);
    return Ok(());
  }

  method Settle(user: UserAccount, market: MarketAccount) returns (r: Result<()>)
    modifies user, user.positions
    ensures SettleFunding(old(user.View()), market.View()) == if r.Ok? then Ok(user.View()) else Err(r.error)
  {
    hide FundingPayment;
    var found := user.FindPosition(market.index);
    if found.None? {
      return Err(PositionNotFound);
    }
    var cum := market.amm.cumFundingLong;
    var payment :- FundingPayment(user.positions[found.value].base, cum, user.positions[found.value].lastCumFunding);
    var _ :- PayFunding(user, found.value, payment, cum);
    var owed :- FitI64(payment);
    var settled :- FitI64(user.settledPnl - owed);
    user.settledPnl := settled;
    return Ok(());
  }

  // ------------------------------------------------------------ liquidation

  /** A notional that overflows fails the liquidation the same way wherever it is computed. */
  lemma NotionalOverflow(u: User, m: Market, insurance: u64, at: nat, size: u64, price: u64)
    requires at < |u.positions| && size > 0 && PositionNotional(AsI64(size), price).Err?
    ensures PositionNotional(AsI64(size), price).error == MathOverflow
    ensures LiquidateClose(u, m, insurance, at, size, price) == Err(MathOverflow)
  {
    hide AddSettledPnl, RemoveOpenInterest, Instructions.Absorb, DepositInsurance;
  }

  /** Collateral, debt and the bankruptcy flag once `final` is what is left. */
  method Absorb(user: UserAccount, final: i128) returns (r: Result<()>)
    modifies user
    ensures Instructions.Absorb(old(user.View()), final) == if r.Ok? then Ok(user.View()) else Err(r.error)
  {
    if final < 0 {
      var shortfall :- FitU64(0 - final);
      var debt :- FitU64(user.badDebt + shortfall);
      user.badDebt := debt;
      user.collateral := 0;
      user.bankrupt := true;
    } else {
      var collateral :- FitU64(final);
      user.collateral := collateral;
    }
    return Ok(());
  }

  /** Absorbing a loss does not look at the positions. */
  lemma AbsorbApart(u: User, ps: seq<PerpPosition>, final: i128)
    ensures Instructions.Absorb(u.(positions := ps), final)
      == match Instructions.Absorb(u, final) { case Ok(v) => Ok(v.(positions := ps)) case Err(e) => Err(e) }
    ensures Instructions.Absorb(u, final).Ok? ==>
      var v := Instructions.Absorb(u, final).value;
      v == u.(collateral := v.collateral, badDebt := v.badDebt, bankrupt := v.bankrupt)
  {
  }

  method PayInsurance(fund: InsuranceFund, fee: i128) returns (r: Result<()>)
    modifies fund
    ensures DepositInsurance(old(fund.totalDeposits), fee) == if r.Ok? then Ok(fund.totalDeposits) else Err(r.error)
  {
    if fee > 0 {
      var paid :- FitU64(fee);
      var deposits :- FitU64(fund.totalDeposits + paid);
      fund.totalDeposits := deposits;
    }
    return Ok(());
  }

  /** Close `size` of the position, settle profit and fee, and record any shortfall. */
  method LiquidatedClose(user: UserAccount, market: MarketAccount, fund: InsuranceFund, at: nat, size: u64, price: u64)
    returns (r: Result<()>)
    requires at < user.positions.Length && size > 0
    modifies user, user.positions, market, fund
    ensures
      LiquidateClose(old(user.View()), old(market.View()), old(fund.totalDeposits), at, size, price)
      == if r.Ok? then Ok(Liquidation(user.View(), market.View(), fund.totalDeposits)) else Err(r.error)
  {
    hide CostBasisClosed, CloseFlow, Decrease, AddSettledPnl, RemoveOpenInterest, SwapMarket, LiquidationFee,
      DepositInsurance,
      PositionNotional, Instructions.Absorb;
    var before := user.positions[at];
    var isLong := before.base > 0;
    var notional := PositionNotional(AsI64(size), price);
    if notional.Err? {
      NotionalOverflow(user.View(), market.View(), fund.totalDeposits, at, size, price);
      return Err(notional.error);
    }
    var swap :- SwapMarket(market.View(), size, if isLong then Add else Remove);
    var whole: u64 := Abs(before.base);
    var closed :- CostBasisClosed(before.entry, size, whole);
    var flow :- CloseFlow(swap.quote, isLong);
    var realized :- FitI128(flow as int + closed);
    Execution.MoveReserves(market, swap);
    var _ :- Execution.DecreasePosition(user, at, isLong, size, closed);
    var afterPnl :- FitI128(user.collateral as int + realized);
    var target :- LiquidationFee(notional.value, market.liquidationFeeBps);
    var fee: i128 := Min(AsI128(target), Max(afterPnl, 0));
    var final :- FitI128(afterPnl as int - fee);
    var _ :- PayInsurance(fund, fee);
    AbsorbApart(old(user.View()), user.positions[..], final);
    var _ :- Absorb(user, final);
    var settled :- AddSettledPnl(user.settledPnl, realized);
    user.settledPnl := settled;
    user.beingLiquidated := false;
    var _ :- Execution.RemoveOpenInterest(market, isLong, size);
    return Ok(());
  }

  /** Settle funding, check health, then close. */
  method Liquidate(user: UserAccount, market: MarketAccount, fund: InsuranceFund, maxBase: u64, price: u64)
    returns (r: Result<()>)
    modifies user, user.positions, market, fund
    ensures
      LiquidatePerp(old(user.View()), old(market.View()), old(fund.totalDeposits), maxBase, price)
      == if r.Ok? then Ok(Liquidation(user.View(), market.View(), fund.totalDeposits)) else Err(r.error)
  {
    hide FundingPayment, LiquidateClose, Margin.AddPosition;
    var found := user.FindPosition(market.index);
    if found.None? {
      return Err(PositionNotFound);
    }
    var at := found.value;
    var cum := market.amm.cumFundingLong;
    var payment :- FundingPayment(user.positions[at].base, cum, user.positions[at].lastCumFunding);
    var _ :- PayFunding(user, at, payment, cum);
    var margin := new MarginCalculation(user.collateral);
    var _ :- margin.AddPosition(user.positions[at], price, market.marginInitial, market.marginMaintenance);
    var _ :- Need(IsLiquidatable(margin.totalCollateral, margin.maintenanceRequirement), NotLiquidatable);
    var whole: u64 := Abs(user.positions[at].base);
    var size: u64 := if maxBase == 0 || maxBase > whole then whole else maxBase;
    r := LiquidatedClose(user, market, fund, at, size, price);
  }

  /** Draw what the fund can give against the debt of a bankrupt account. */
  method Resolve(user: UserAccount, fund: InsuranceFund) returns (r: Result<()>)
    modifies user, fund
    ensures
      ResolveBankruptcy(old(user.View()), old(fund.totalDeposits))
      == if r.Ok? then Ok((user.View(), fund.totalDeposits)) else Err(r.error)
  {
    var _ :- Need(user.bankrupt && user.badDebt > 0, NotLiquidatable);
    var draw: u64 := Min(user.badDebt, fund.totalDeposits);
    fund.totalDeposits := fund.totalDeposits - draw;
    user.badDebt := user.badDebt - draw;
    if user.badDebt == 0 {
      user.bankrupt := false;
    }
    return Ok(());
  }

  // ------------------------------------------------------------ administration

  /** Fill in a freshly allocated market account, field by field. */
  method InitMarket(market: MarketAccount, numMarkets: nat, p: MarketParams, now: i64) returns (r: Result<()>)
    requires market.oiLong == 0 && market.oiShort == 0
    modifies market
    ensures InitializeMarket(numMarkets, p, now) == if r.Ok? then Ok(market.View()) else Err(r.error)
  {
    hide InitialReserves;
    var _ :- Need(p.index == numMarkets, InvalidMarketIndex);
    var _ :- Need(p.marginInitial > p.marginMaintenance > 0, InvalidAmount);
    market.index := p.index;
    market.status := Active;
    var amm :- InitialReserves(p.reserve, p.peg);
    var price :- FitU64(p.peg);
    market.amm := amm.(markTwap := price, oracleTwap := price, lastTwapTs := now, lastFundingTs := now);
    market.marginInitial := p.marginInitial;
    market.marginMaintenance := p.marginMaintenance;
    market.maxLeverage := p.maxLeverage;
    market.minOrderBase := p.minOrderBase;
    market.maxOi := p.maxOi;
    market.liquidationFeeBps := p.liquidationFeeBps;
    market.fundingPeriod := p.fundingPeriod;
    var next :- FitI64(now + p.fundingPeriod);
    market.nextFundingTs := next;
    var _ :- Need(numMarkets < 0xFFFF, MathOverflow);
    return Ok(());
  }

  /** What the platform allocates for a market before it is initialized. */
  const BLANK_MARKET :=
    Market(0, Initialized, Amm(0, 0, 0, 0, 0, 0, 0, 0, 0, 0, 0, 0, 0, 0), 0, 0, 0, 0, 0, 0, 0, 0, 0, 0)

  method SetParams(market: MarketAccount, a: MarketArgs) returns (r: Result<()>)
    modifies market
    ensures UpdateMarketParams(old(market.View()), a) == if r.Ok? then Ok(market.View()) else Err(r.error)
  {
    var _ :- Need(a.marginInitial > a.marginMaintenance > 0, InvalidAmount);
    var _ :- Need(a.fundingPeriod > 0, InvalidAmount);
    market.status := a.status;
    market.marginInitial := a.marginInitial;
    market.marginMaintenance := a.marginMaintenance;
    market.maxLeverage := a.maxLeverage;
    market.minOrderBase := a.minOrderBase;
    market.maxOi := a.maxOi;
    market.liquidationFeeBps := a.liquidationFeeBps;
    market.fundingPeriod := a.fundingPeriod;
    return Ok(());
  }
}
