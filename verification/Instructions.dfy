/** The instructions of the program as functions on account values, and the protocol
    state machine they form.  An instruction that fails changes nothing. */
module Instructions {
  import opened Numbers
  import opened Sequences
  import opened State
  import opened Curve
  import opened Margin
  import opened Funding
  import opened Controller

  // ------------------------------------------------------------ collateral

  function DepositCollateral(cfg: Config, u: User, amount: u64): Result<User> {
    var _ :- Need(!cfg.paused, ProtocolPaused);
    var _ :- Need(amount > 0, InvalidAmount);
    var collateral :- FitU64(u.collateral + amount);
    var deposits :- FitI64(u.cumDeposits + AsI64(amount));
    Ok(u.(collateral := collateral, cumDeposits := deposits))
  }

  function WithdrawCollateral(cfg: Config, u: User, m: Market, amount: u64, price: u64): Result<User> {
    var _ :- Need(!cfg.paused, ProtocolPaused);
    var _ :- Need(amount > 0, InvalidAmount);
    var _ :- Need(amount <= u.collateral, InsufficientCollateral);
    var remaining :- FitU64(u.collateral - amount);
    match FindPosition(u.positions, m.index)
    case Some(i) =>
      var _ :- RequireInitial(remaining, u.positions[i], price, m);
      Ok(u.(collateral := remaining))
    case None => Ok(u.(collateral := remaining))
  }

  // ------------------------------------------------------------ trading

  function OpenPosition(cfg: Config, u: User, m: Market, dir: Direction, size: u64, limit: u64, price: u64)
    : Result<(User, Market)>
  {
    var _ :- Need(!cfg.paused, ProtocolPaused);
    var _ :- m.RequireCanOpen();
    var _ :- Need(size >= m.minOrderBase && size > 0, OrderTooSmall);
    var _ :- Need(!u.beingLiquidated, BeingLiquidated);
    var fill :- ExecuteAmmOpen(u, m, cfg.takerFeeBps, dir, size, limit, price);
    Ok((fill.user, fill.market))
  }

  /** Zero or too large a request means the whole position. */
  function CloseSize(requested: u64, whole: u64): u64 {
    if requested == 0 || requested > whole then whole else requested
  }

  function ClosePosition(cfg: Config, u: User, m: Market, size: u64, limit: u64): Result<(User, Market)> {
    match FindPosition(u.positions, m.index)
    case None => Err(PositionNotFound)
    case Some(i) =>
      var whole: u64 := Abs(u.positions[i].base);
      var fill :- ExecuteAmmClose(u, m, cfg.takerFeeBps, i, CloseSize(size, whole), limit);
      Ok((fill.user, fill.market))
  }

  // ------------------------------------------------------------ orders

  datatype OrderParams = OrderParams(
    orderType: OrderType,
    direction: Direction,
    amount: u64,
    price: u64,
    triggerPrice: u64,
    triggerCondition: TriggerCondition,
    reduceOnly: bool,
    postOnly: bool)

  function CheckOrderPrices(p: OrderParams): Result<()> {
    match p.orderType
    case MarketOrder => Err(UnsupportedOrderType)
    case Limit => Need(p.price > 0, InvalidAmount)
    case TriggerMarket => Need(p.triggerPrice > 0, InvalidAmount)
    case TriggerLimit => Need(p.price > 0 && p.triggerPrice > 0, InvalidAmount)
  }

  function RestingOrder(id: u32, k: u16, p: OrderParams, now: i64): Order {
    Order(id, k, p.orderType, Open, p.direction, p.amount, 0, p.price, p.triggerPrice,
          p.triggerCondition, p.reduceOnly, p.postOnly, now)
  }

  /** `wrapping_add(1)` on a 32-bit counter. */
  function NextId(id: u32): u32 { (id + 1) % U32_SPAN }

  function PlaceOrder(cfg: Config, u: User, m: Market, p: OrderParams, now: i64): Result<User> {
    var _ :- Need(!cfg.paused, ProtocolPaused);
    var _ :- m.RequireCanPlaceOrder(p.reduceOnly);
    var _ :- Need(p.amount >= m.minOrderBase && p.amount > 0, OrderTooSmall);
    var _ :- CheckOrderPrices(p);
    match Position(u.orders, NotOpen())
    case None => Err(OrdersFull)
    case Some(slot) =>
      Ok(u.(nextOrderId := NextId(u.nextOrderId),
            orders := u.orders[slot := RestingOrder(u.nextOrderId, m.index, p, now)]))
  }

  function CancelOrder(u: User, id: u32): Result<User> {
    var slot :- FindOrder(u.orders, id);
    Ok(u.(orders := u.orders[slot := EMPTY_ORDER]))
  }

  function FillReduceOnly(cfg: Config, u: User, m: Market, slot: nat): Result<(User, Market)>
    requires slot < |u.orders|
  {
    var order := u.orders[slot];
    match FindPosition(u.positions, m.index)
    case None => Err(PositionNotFound)
    case Some(i) =>
      var _ :- Need((order.direction == Long) != (u.positions[i].base > 0), ReduceOnlyViolation);
      var whole: u64 := Abs(u.positions[i].base);
      var size: u64 := Min(order.Remaining(), whole);
      var _ :- Need(size > 0, InvalidAmount);
      var fill :- ExecuteAmmClose(u, m, cfg.takerFeeBps, i, size, order.price);
      var filled := order.Fill(size);
      var after := if filled.Remaining() == 0 || size == whole then EMPTY_ORDER else filled;
      Ok((fill.user.(orders := u.orders[slot := after]), fill.market))
  }

  function FillOpening(cfg: Config, u: User, m: Market, slot: nat, price: u64): Result<(User, Market)>
    requires slot < |u.orders|
  {
    var order := u.orders[slot];
    var fill :- ExecuteAmmOpen(u, m, cfg.takerFeeBps, order.direction, order.Remaining(), order.price, price);
    Ok((fill.user.(orders := u.orders[slot := EMPTY_ORDER]), fill.market))
  }

  function FillOrder(cfg: Config, u: User, m: Market, id: u32, price: u64): Result<(User, Market)> {
    var _ :- Need(!cfg.paused, ProtocolPaused);
    var slot :- FindOrder(u.orders, id);
    var order := u.orders[slot];
    var _ :- Need(order.orderType == Limit, UnsupportedOrderType);
    var _ :- Need(order.marketIndex == m.index, InvalidMarketIndex);
    var _ :- Need(order.Remaining() > 0, InvalidAmount);
    var _ :- if order.reduceOnly then m.RequireCanReduce() else m.RequireCanOpen();
    if order.reduceOnly then FillReduceOnly(cfg, u, m, slot) else FillOpening(cfg, u, m, slot, price)
  }

  function FindOpenLimit(u: User, id: u32, k: u16): (r: Result<nat>)
    ensures r.Ok? ==> r.value < |u.orders| && u.orders[r.value].IsOpen() && u.orders[r.value].id == id
    ensures r.Ok? ==> u.orders[r.value].orderType == Limit && !u.orders[r.value].reduceOnly
    ensures r.Ok? ==> u.orders[r.value].marketIndex == k
  {
    var slot :- FindOrder(u.orders, id);
    var _ :- Need(u.orders[slot].orderType == Limit, UnsupportedOrderType);
    var _ :- Need(!u.orders[slot].reduceOnly, UnsupportedOrderType);
    var _ :- Need(u.orders[slot].marketIndex == k, InvalidMarketIndex);
    Ok(slot)
  }

  predicate Crosses(taker: Order, maker: Order) {
    if taker.direction == Long then taker.price >= maker.price else taker.price <= maker.price
  }

  function FillAndMaybeClear(o: Order, size: u64): Order {
    var filled := o.Fill(size);
    if filled.Remaining() == 0 then EMPTY_ORDER else filled
  }

  /** A crossing pair: the slots of both orders and the size they trade. */
  datatype Pair = Pair(takerSlot: nat, makerSlot: nat, size: u64)

  /** The checks of a peer match, up to the execution itself. */
  function CheckMatch(cfg: Config, taker: User, maker: User, sameAccount: bool, m: Market, takerId: u32, makerId: u32)
    : (r: Result<Pair>)
    ensures r.Ok? ==> r.value.takerSlot < |taker.orders| && r.value.makerSlot < |maker.orders|
  {
    var _ :- Need(!cfg.paused, ProtocolPaused);
    var _ :- Need(!sameAccount, SelfMatch);
    var _ :- m.RequireCanOpen();
    var t :- FindOpenLimit(taker, takerId, m.index);
    var k :- FindOpenLimit(maker, makerId, m.index);
    var bid := taker.orders[t];
    var ask := maker.orders[k];
    var _ :- Need(bid.direction != ask.direction, OrdersDoNotCross);
    var _ :- Need(Crosses(bid, ask), OrdersDoNotCross);
    var size: u64 := Min(bid.Remaining(), ask.Remaining());
    var _ :- Need(size > 0, InvalidAmount);
    Ok(Pair(t, k, size))
  }

  function FillMatch(cfg: Config, taker: User, maker: User, sameAccount: bool, m: Market,
                     takerId: u32, makerId: u32, price: u64): Result<MatchFill> {
    var pair :- CheckMatch(cfg, taker, maker, sameAccount, m, takerId, makerId);
    var bid := taker.orders[pair.takerSlot];
    var ask := maker.orders[pair.makerSlot];
    var fill :- ExecuteMakerMatch(taker, maker, m, cfg.takerFeeBps, cfg.makerRebateBps,
                                  bid.direction, pair.size, ask.price, price);
    Ok(MatchFill(
      fill.taker.(orders := taker.orders[pair.takerSlot := FillAndMaybeClear(bid, pair.size)]),
      fill.maker.(orders := maker.orders[pair.makerSlot := FillAndMaybeClear(ask, pair.size)]),
      fill.market))
  }

  predicate Fired(o: Order, price: u64) {
    match o.triggerCondition
    case Above => price >= o.triggerPrice
    case Below => price <= o.triggerPrice
  }

  function TriggerOrder(cfg: Config, u: User, m: Market, id: u32, price: u64): Result<(User, Market)> {
    var _ :- Need(!cfg.paused, ProtocolPaused);
    var _ :- m.RequireCanReduce();
    var slot :- FindOrder(u.orders, id);
    var order := u.orders[slot];
    var _ :- Need(order.orderType == TriggerMarket || order.orderType == TriggerLimit, UnsupportedOrderType);
    var _ :- Need(order.reduceOnly, UnsupportedOrderType);
    var _ :- Need(order.marketIndex == m.index, InvalidMarketIndex);
    var _ :- Need(Fired(order, price), TriggerConditionNotMet);
    match FindPosition(u.positions, m.index)
    case None => Err(PositionNotFound)
    case Some(i) =>
      var whole: u64 := Abs(u.positions[i].base);
      var size: u64 := Min(order.Remaining(), whole);
      var _ :- Need(size > 0, InvalidAmount);
      var limit := if order.orderType == TriggerLimit then order.price else 0;
      var fill :- ExecuteAmmClose(u, m, cfg.takerFeeBps, i, size, limit);
      Ok((fill.user.(orders := u.orders[slot := order.Fill(size).(status := Init)]), fill.market))
  }

  // ------------------------------------------------------------ funding

  function UpdateFundingRate(m: Market, price: u64, now: i64): Result<Market> {
    var mark :- ReservePrice(m.amm.base, m.amm.quote, m.amm.peg);
    var window: i64 := Max(m.fundingPeriod, 1);
    var elapsedTwap :- FitI64(now - m.amm.lastTwapTs);
    var markTwap :- UpdateTwap(m.amm.markTwap, mark, elapsedTwap, window);
    var oracleTwap :- UpdateTwap(m.amm.oracleTwap, price, elapsedTwap, window);
    var elapsed :- FitI64(now - m.amm.lastFundingTs);
    var amm := m.amm.(markTwap := markTwap, oracleTwap := oracleTwap, lastTwapTs := now);
    if elapsed <= 0 then Ok(m.(amm := amm))
    else
      var rate :- CalculateFundingRate(markTwap, oracleTwap, Min(elapsed, m.fundingPeriod), MAX_FUNDING_RATE);
      var delta :- FundingDeltaPerBase(rate, oracleTwap);
      var cum :- FitI128(m.amm.cumFundingLong + delta);
      var next :- FitI64(now + m.fundingPeriod);
      Ok(m.(amm := amm.(cumFundingLong := cum, cumFundingShort := cum, lastFundingRate := rate, lastFundingTs := now),
            nextFundingTs := next))
  }

  /** Charge or credit `payment`; what collateral cannot cover becomes bad debt. */
  function PayFunding(u: User, at: nat, payment: i128, cum: i128): Result<User>
    requires at < |u.positions|
  {
    var after :- FitI128(u.collateral - payment);
    var positions := u.positions[at := u.positions[at].(lastCumFunding := cum)];
    if after < 0 then
      var shortfall :- FitU64(0 - after);
      var debt :- FitU64(u.badDebt + shortfall);
      Ok(u.(badDebt := debt, collateral := 0, positions := positions))
    else
      var collateral :- FitU64(after);
      Ok(u.(collateral := collateral, positions := positions))
  }

  function SettleFunding(u: User, m: Market): Result<User> {
    match FindPosition(u.positions, m.index)
    case None => Err(PositionNotFound)
    case Some(i) =>
      var payment :- FundingPayment(u.positions[i].base, m.amm.cumFundingLong, u.positions[i].lastCumFunding);
      var paid :- PayFunding(u, i, payment, m.amm.cumFundingLong);
      var owed :- FitI64(payment);
      var settled :- FitI64(u.settledPnl - owed);
      Ok(paid.(settledPnl := settled))
  }

  // ------------------------------------------------------------ liquidation

  datatype Liquidation = Liquidation(user: User, market: Market, insurance: u64)

  /** Collateral, bad debt and the bankruptcy flag once `final` is what is left. */
  function Absorb(u: User, final: i128): Result<User> {
    if final < 0 then
      var shortfall :- FitU64(0 - final);
      var debt :- FitU64(u.badDebt + shortfall);
      Ok(u.(badDebt := debt, collateral := 0, bankrupt := true))
    else
      var collateral :- FitU64(final);
      Ok(u.(collateral := collateral))
  }

  /** The health gate of a liquidation, on an account whose funding is settled. */
  function RequireLiquidatable(u: User, at: nat, m: Market, price: u64): Result<()>
    requires at < |u.positions|
  {
    var h :- HealthOf(u.collateral, u.positions[at], price, m);
    var _ :- Need(IsLiquidatable(h.total, h.maintenance), NotLiquidatable);
    Ok(())
  }

  /** The liquidation fee: a share of the closed notional, never more than is there. */
  function ChargeLiquidation(m: Market, size: u64, price: u64, afterPnl: i128): Result<i128> {
    var notional :- PositionNotional(AsI64(size), price);
    var target :- LiquidationFee(notional, m.liquidationFeeBps);
    Ok(Min(AsI128(target), Max(afterPnl, 0)))
  }

  /** Close `size` of the position and settle profit, the fee and any shortfall. */
  function LiquidateClose(u: User, m: Market, insurance: u64, at: nat, size: u64, price: u64): Result<Liquidation>
    requires at < |u.positions|
  {
    var p := u.positions[at];
    var swap :- SwapMarket(m, size, if p.base > 0 then Add else Remove);
    var reduction :- Reduce(p, size, swap.quote);
    var afterPnl :- FitI128(u.collateral + reduction.realized);
    var fee :- ChargeLiquidation(m, size, price, afterPnl);
    var final :- FitI128(afterPnl - fee);
    var fund :- DepositInsurance(insurance, fee);
    var absorbed :- Absorb(u, final);
    var settled :- AddSettledPnl(u.settledPnl, reduction.realized);
    var market :- RemoveOpenInterest(WithReserves(m, swap), p.base > 0, size);
    Ok(Liquidation(
      absorbed.(settledPnl := settled, beingLiquidated := false, positions := u.positions[at := reduction.position]),
      market, fund))
  }

  function DepositInsurance(insurance: u64, fee: i128): Result<u64> {
    if fee > 0 then
      var paid :- FitU64(fee);
      FitU64(insurance + paid)
    else Ok(insurance)
  }

  function LiquidatePerp(u: User, m: Market, insurance: u64, maxBase: u64, price: u64): Result<Liquidation> {
    match FindPosition(u.positions, m.index)
    case None => Err(PositionNotFound)
    case Some(i) =>
      var payment :- FundingPayment(u.positions[i].base, m.amm.cumFundingLong, u.positions[i].lastCumFunding);
      var paid :- PayFunding(u, i, payment, m.amm.cumFundingLong);
      var _ :- RequireLiquidatable(paid, i, m, price);
      LiquidateClose(paid, m, insurance, i, CloseSize(maxBase, Abs(u.positions[i].base)), price)
  }

  function ResolveBankruptcy(u: User, insurance: u64): Result<(User, u64)> {
    var _ :- Need(u.bankrupt && u.badDebt > 0, NotLiquidatable);
    var draw: u64 := Min(u.badDebt, insurance);
    var fund :- FitU64(insurance - draw);
    var debt :- FitU64(u.badDebt - draw);
    Ok((u.(badDebt := debt, bankrupt := debt != 0), fund))
  }

  // ------------------------------------------------------------ administration

  datatype MarketParams = MarketParams(
    index: u16,
    peg: u128,
    reserve: u128,
    marginInitial: u32,
    marginMaintenance: u32,
    maxLeverage: u32,
    minOrderBase: u64,
    maxOi: u128,
    liquidationFeeBps: u16,
    fundingPeriod: i64)

  function InitialReserves(reserve: u128, peg: u128): Result<Amm> {
    var _ :- Need(reserve > 0 && peg > 0, InvalidAmount);
    Ok(Amm(reserve, reserve, reserve, peg, 0, 0, 0, 0, 0, 0, 0, 0, 0, 0))
  }

  function InitializeMarket(numMarkets: nat, p: MarketParams, now: i64): Result<Market> {
    var _ :- Need(p.index == numMarkets, InvalidMarketIndex);
    var _ :- Need(p.marginInitial > p.marginMaintenance > 0, InvalidAmount);
    var amm :- InitialReserves(p.reserve, p.peg);
    var price :- FitU64(p.peg);
    var next :- FitI64(now + p.fundingPeriod);
    var _ :- Need(numMarkets < 0xFFFF, MathOverflow);
    Ok(Market(p.index, Active,
              amm.(markTwap := price, oracleTwap := price, lastTwapTs := now, lastFundingTs := now),
              p.marginInitial, p.marginMaintenance, p.maxLeverage, p.minOrderBase, 0, 0, p.maxOi,
              next, p.fundingPeriod, p.liquidationFeeBps))
  }

  datatype MarketArgs = MarketArgs(
    status: MarketStatus,
    marginInitial: u32,
    marginMaintenance: u32,
    maxLeverage: u32,
    minOrderBase: u64,
    maxOi: u128,
    liquidationFeeBps: u16,
    fundingPeriod: i64)

  function UpdateMarketParams(m: Market, a: MarketArgs): Result<Market> {
    var _ :- Need(a.marginInitial > a.marginMaintenance > 0, InvalidAmount);
    var _ :- Need(a.fundingPeriod > 0, InvalidAmount);
    Ok(m.(status := a.status, marginInitial := a.marginInitial, marginMaintenance := a.marginMaintenance,
          maxLeverage := a.maxLeverage, minOrderBase := a.minOrderBase, maxOi := a.maxOi,
          liquidationFeeBps := a.liquidationFeeBps, fundingPeriod := a.fundingPeriod))
  }
}
