/** The terms of single trades: price limits, exact fees, the open-interest cap, and steps
    that can be taken only once. */
module TradeTerms {
  import opened Numbers
  import opened Sequences
  import opened State
  import opened Curve
  import opened Margin
  import opened Funding
  import opened Controller
  import opened Instructions
  import opened Protocol
  import opened Bookkeeping
  import opened Ledger
  import opened Liquidations
  import opened Steps
  import opened OrderLife
  import opened OrderRuns

  /** The quote a trade moved through the AMM, whichever way. */
  function QuoteMoved(a: Amm, a': Amm): nat { Abs(QuoteIn(a, a')) }

  /** A fee in basis points of a quote amount, rounded up. */
  function FeeOn(quote: nat, bps: nat): nat { CeilDiv(quote * bps, BPS_DENOMINATOR) }

  /** A buyer's price per base stays at or below the limit, a seller's at or above. */
  predicate WithinLimit(quote: nat, size: nat, limit: nat, buys: bool)
    requires size > 0
  {
    limit > 0 ==> if buys then quote * BASE_PRECISION / size <= limit else quote * BASE_PRECISION / size >= limit
  }

  predicate WithinCap(m: Market) { m.maxOi > 0 ==> m.oiLong + m.oiShort <= m.maxOi }

  lemma PricedTerms(m: Market, feeBps: u16, size: u64, limit: u64, buys: bool)
    requires CurveOk(m.amm) && PriceTrade(m, feeBps, size, limit, buys).Ok?
    ensures size > 0
    ensures var priced := PriceTrade(m, feeBps, size, limit, buys).value;
      && WithinLimit(priced.swap.quote, size, limit, buys)
      && priced.fee == FeeOn(priced.swap.quote, feeBps) && AsI128(priced.fee) == priced.fee
      && priced.swap.quote == Abs(TruncDiv((priced.swap.newQuote - m.amm.quote) * m.amm.peg, BASE_PRECISION))
  {
    PriceFacts(m, feeBps, size, limit, buys);
    FeeExact(SwapMarket(m, size, if buys then Remove else Add).value.quote, feeBps);
  }

  /** An open trade respects its limit, pays exactly its fee on the quote the AMM took or
      gave, keeps under the open-interest cap, and moves the base reserve by its size. */
  lemma OpenTerms(u: User, m: Market, feeBps: u16, dir: Direction, size: u64, limit: u64, price: u64)
    requires CurveOk(m.amm) && ExecuteAmmOpen(u, m, feeBps, dir, size, limit, price).Ok?
    ensures size > 0
    ensures var r := ExecuteAmmOpen(u, m, feeBps, dir, size, limit, price).value;
      var quote := QuoteMoved(m.amm, r.market.amm);
      && r.quote == quote && WithinLimit(quote, size, limit, dir == Long)
      && u.collateral - r.user.collateral == r.market.amm.totalFee - m.amm.totalFee == FeeOn(quote, feeBps)
      && WithinCap(r.market)
      && m.amm.base - r.market.amm.base == (if dir == Long then size else 0 - size)
  {
    hide ExecuteAmmOpen, PriceTrade, AddToPosition, RequireInitial, FeeOn, WithinLimit, WithinCap;
    var priced, added := OpenShape(u, m, feeBps, dir, size, limit, price);
    PricedTerms(m, feeBps, size, limit, dir == Long);
    PriceFacts(m, feeBps, size, limit, dir == Long);
    OpenMarketFacts(m, priced, dir == Long, size);
    OpenWithinCap(m, priced, dir == Long, size);
    assert QuoteMoved(m.amm, OpenMarket(m, priced, dir == Long, size).value.amm) == priced.swap.quote;
    hide *;
  }

  lemma OpenWithinCap(m: Market, priced: Priced, isLong: bool, size: u64)
    requires OpenMarket(m, priced, isLong, size).Ok?
    ensures WithinCap(OpenMarket(m, priced, isLong, size).value)
  {
  }

  /** A close respects its limit, pays exactly its fee, and never leaves a debt. */
  lemma CloseTerms(u: User, m: Market, feeBps: u16, at: nat, size: u64, limit: u64)
    requires CurveOk(m.amm) && at < |u.positions| && ExecuteAmmClose(u, m, feeBps, at, size, limit).Ok?
    ensures 0 < size <= Abs(u.positions[at].base)
    ensures var r := ExecuteAmmClose(u, m, feeBps, at, size, limit).value;
      var quote := QuoteMoved(m.amm, r.market.amm);
      && WithinLimit(quote, size, limit, u.positions[at].base < 0)
      && r.market.amm.totalFee - m.amm.totalFee == FeeOn(quote, feeBps)
      && r.user.collateral == u.collateral + r.realized - FeeOn(quote, feeBps) && r.user.badDebt == u.badDebt
      && r.user.settledPnl == u.settledPnl + r.realized
      && at < |r.user.positions| && Abs(r.user.positions[at].base) == Abs(u.positions[at].base) - size
  {
    var priced, reduction := CloseShape(u, m, feeBps, at, size, limit);
    PricedTerms(m, feeBps, size, limit, u.positions[at].base < 0);
    hide PriceTrade, FeeOn, CostBasisClosed;
  }

  /** Both legs of a match, given its price, fee and rebate. */
  lemma MatchLegs(taker: User, maker: User, m: Market, feeBps: u16, rebateBps: u16, dir: Direction, size: u64,
                  fillPrice: u64, price: u64)
    returns (priced: MatchPrice)
    requires ExecuteMakerMatch(taker, maker, m, feeBps, rebateBps, dir, size, fillPrice, price).Ok?
    ensures size > 0 && PriceMatch(size, fillPrice, feeBps, rebateBps) == Ok(priced)
    ensures var f := ExecuteMakerMatch(taker, maker, m, feeBps, rebateBps, dir, size, fillPrice, price).value;
      && f.taker.collateral == taker.collateral - priced.fee
      && f.maker.collateral == maker.collateral + priced.rebate
      && f.market.amm.totalFee == m.amm.totalFee + priced.fee - priced.rebate
      && f.market.amm.base == m.amm.base && f.market.amm.quote == m.amm.quote
      && f.market.oiLong == m.oiLong + size && f.market.oiShort == m.oiShort + size
  {
    hide ExecuteMakerMatch, ApplyMatchLeg, CollectNetFee, PriceMatch;
    var first, second;
    priced, first, second := MatchShape(taker, maker, m, feeBps, rebateBps, dir, size, fillPrice, price);
    PriceMatchExact(size, fillPrice, feeBps, rebateBps);
    LegTerms(taker, m, dir, size, priced.quote, 0 - priced.fee, price);
    LegTerms(maker, first.1, Opposite(dir), size, priced.quote, priced.rebate, price);
    CollectNetFeeExact(second.1, priced.fee, priced.rebate);
  }

  /** A peer match trades at the maker's price; the taker pays exactly its fee, the maker
      receives exactly its rebate, the market keeps the difference, and no reserve moves. */
  lemma MatchTerms(taker: User, maker: User, m: Market, feeBps: u16, rebateBps: u16, dir: Direction, size: u64,
                   fillPrice: u64, price: u64)
    requires ExecuteMakerMatch(taker, maker, m, feeBps, rebateBps, dir, size, fillPrice, price).Ok?
    ensures var f := ExecuteMakerMatch(taker, maker, m, feeBps, rebateBps, dir, size, fillPrice, price).value;
      var quote := size * fillPrice / BASE_PRECISION;
      && size > 0
      && f.taker.collateral == taker.collateral - FeeOn(quote, feeBps)
      && f.maker.collateral == maker.collateral + FeeOn(quote, rebateBps)
      && f.market.amm.totalFee == m.amm.totalFee + FeeOn(quote, feeBps) - FeeOn(quote, rebateBps)
      && f.market.amm.base == m.amm.base && f.market.amm.quote == m.amm.quote
      && f.market.oiLong == m.oiLong + size && f.market.oiShort == m.oiShort + size
      && WithinCap(f.market)
  {
    hide *;
    MatchWithinCap(taker, maker, m, feeBps, rebateBps, dir, size, fillPrice, price);
    var priced := MatchLegs(taker, maker, m, feeBps, rebateBps, dir, size, fillPrice, price);
    MatchFees(size, fillPrice, feeBps, rebateBps);
  }

  /** One leg moves the collateral by its fee or rebate and one side's open interest. */
  lemma LegTerms(u: User, m: Market, dir: Direction, size: u64, quote: u128, delta: i64, price: u64)
    requires quote <= I128_MAX && ApplyMatchLeg(u, m, dir, size, quote, delta, price).Ok?
    ensures var (u', m') := ApplyMatchLeg(u, m, dir, size, quote, delta, price).value;
      && u'.collateral == u.collateral + delta
      && m'.oiLong == m.oiLong + (if dir == Long then size else 0)
      && m'.oiShort == m.oiShort + (if dir == Long then 0 else size)
      && m'.amm == m.amm.(long := m'.amm.long, short := m'.amm.short)
  {
    var added := MatchLegShape(u, m, dir, size, quote, delta, price);
    hide ApplyMatchLeg;
  }

  lemma MatchFees(size: u64, fillPrice: u64, feeBps: u16, rebateBps: u16)
    requires PriceMatch(size, fillPrice, feeBps, rebateBps).Ok?
    ensures var priced := PriceMatch(size, fillPrice, feeBps, rebateBps).value;
      && priced.quote == size * fillPrice / BASE_PRECISION
      && priced.fee == FeeOn(priced.quote, feeBps) && AsI128(priced.fee) == priced.fee
      && priced.rebate == FeeOn(priced.quote, rebateBps) && AsI128(priced.rebate) == priced.rebate
  {
    var quote := size * fillPrice / BASE_PRECISION;
    PriceMatchExact(size, fillPrice, feeBps, rebateBps);
    FeeExact(quote, feeBps);
    FeeExact(quote, rebateBps);
  }

  lemma MatchWithinCap(taker: User, maker: User, m: Market, feeBps: u16, rebateBps: u16, dir: Direction, size: u64,
                       fillPrice: u64, price: u64)
    requires ExecuteMakerMatch(taker, maker, m, feeBps, rebateBps, dir, size, fillPrice, price).Ok?
    ensures WithinCap(ExecuteMakerMatch(taker, maker, m, feeBps, rebateBps, dir, size, fillPrice, price).value.market)
  {
    hide ApplyMatchLeg, PriceMatch, Debit, Credit, TradeRecord;
  }

  // ------------------------------------------------------------ sizes and limits of orders

  /** Base a trade moved through the market's totals. */
  function BaseMoved(a: Amm, a': Amm): nat { Abs(a'.long + a'.short - a.long - a.short) }

  /** What a fill against the AMM trades: all that remains, or, when it may only reduce, at most
      the position. */
  function FillSize(u: User, m: Market, order: Order): int {
    if !order.reduceOnly then order.Remaining()
    else
      match FindPosition(u.positions, m.index)
      case Some(at) => Min(order.Remaining(), Abs(u.positions[at].base))
      case None => 0
  }

  /** A resting limit order filled against the AMM keeps to its own price, trades exactly what
      remains of it or, when it may only reduce, at most the position, and pays exactly the fee. */
  lemma FillTerms(cfg: Config, u: User, m: Market, id: u32, price: u64)
    requires CurveOk(m.amm) && FillOrder(cfg, u, m, id, price).Ok?
    ensures var order := u.orders[FindOrder(u.orders, id).value];
      var m' := FillOrder(cfg, u, m, id, price).value.1;
      var size, quote := BaseMoved(m.amm, m'.amm), QuoteMoved(m.amm, m'.amm);
      && size == FillSize(u, m, order) > 0
      && WithinLimit(quote, size, order.price, order.direction == Long)
      && m'.amm.totalFee - m.amm.totalFee == FeeOn(quote, cfg.takerFeeBps)
  {
    hide ExecuteAmmOpen, ExecuteAmmClose;
    var order := u.orders[FindOrder(u.orders, id).value];
    if order.reduceOnly {
      var i := FindPosition(u.positions, m.index).value;
      var size: u64 := Min(order.Remaining(), Abs(u.positions[i].base));
      CloseTerms(u, m, cfg.takerFeeBps, i, size, order.price);
      CloseVolume(u, m, cfg.takerFeeBps, i, size, order.price);
    } else {
      OpenTerms(u, m, cfg.takerFeeBps, order.direction, order.Remaining(), order.price, price);
      OpenVolume(u, m, cfg.takerFeeBps, order.direction, order.Remaining(), order.price, price);
    }
    hide WithinLimit, FeeOn;
  }

  /** The slot of a filled order is freed exactly when nothing remains of the order or the position
      it reduces is closed; otherwise the order stays with the fill counted.  No other slot changes. */
  lemma FillLeaves(cfg: Config, u: User, m: Market, id: u32, price: u64)
    requires FillOrder(cfg, u, m, id, price).Ok?
    ensures var slot := FindOrder(u.orders, id).value;
      var order, u' := u.orders[slot], FillOrder(cfg, u, m, id, price).value.0;
      var size := FillSize(u, m, order);
      && |u'.orders| == |u.orders| && u'.orders == u.orders[slot := u'.orders[slot]]
      && (u'.orders[slot].status == Open
          <==> order.reduceOnly && order.filled + size < order.amount
               && size < Abs(u.positions[FindPosition(u.positions, m.index).value].base))
      && var left := u'.orders[slot];
      if left.status != Open then left == EMPTY_ORDER
      else left == order.(filled := left.filled) && left.filled == order.filled + size
  {
    hide ExecuteAmmOpen, ExecuteAmmClose, FindPosition;
  }

  /** A trigger closes what remains of its order, at most the whole position; a limit trigger
      keeps to its price. */
  lemma TriggerTerms(cfg: Config, u: User, m: Market, id: u32, price: u64)
    requires CurveOk(m.amm) && TriggerOrder(cfg, u, m, id, price).Ok?
    ensures FindPosition(u.positions, m.index).Some?
    ensures var order := u.orders[FindOrder(u.orders, id).value];
      var base := u.positions[FindPosition(u.positions, m.index).value].base;
      var m' := TriggerOrder(cfg, u, m, id, price).value.1;
      var size, quote := BaseMoved(m.amm, m'.amm), QuoteMoved(m.amm, m'.amm);
      && size == Min(order.Remaining(), Abs(base)) > 0
      && (order.orderType == TriggerLimit ==> WithinLimit(quote, size, order.price, base < 0))
      && m'.amm.totalFee - m.amm.totalFee == FeeOn(quote, cfg.takerFeeBps)
  {
    hide ExecuteAmmClose;
    var order := u.orders[FindOrder(u.orders, id).value];
    var i := FindPosition(u.positions, m.index).value;
    var size: u64 := Min(order.Remaining(), Abs(u.positions[i].base));
    var limit: u64 := if order.orderType == TriggerLimit then order.price else 0;
    CloseTerms(u, m, cfg.takerFeeBps, i, size, limit);
    CloseVolume(u, m, cfg.takerFeeBps, i, size, limit);
    hide WithinLimit, FeeOn;
  }

  /** A close takes what was asked for, or everything when asked for nothing or too much. */
  lemma CloseTakes(cfg: Config, u: User, m: Market, size: u64, limit: u64)
    requires CurveOk(m.amm) && ClosePosition(cfg, u, m, size, limit).Ok?
    ensures FindPosition(u.positions, m.index).Some?
    ensures var at := FindPosition(u.positions, m.index).value;
      var (u', m') := ClosePosition(cfg, u, m, size, limit).value;
      && at < |u'.positions|
      && Abs(u'.positions[at].base) == (if size == 0 then 0 else Max(Abs(u.positions[at].base) - size, 0))
      && WithinLimit(QuoteMoved(m.amm, m'.amm), Abs(u.positions[at].base) - Abs(u'.positions[at].base), limit,
                     u.positions[at].base < 0)
  {
    hide ExecuteAmmClose;
    var at := FindPosition(u.positions, m.index).value;
    CloseTerms(u, m, cfg.takerFeeBps, at, CloseSize(size, Abs(u.positions[at].base)), limit);
    CloseSlots(u, m, cfg.takerFeeBps, at, CloseSize(size, Abs(u.positions[at].base)), limit);
    hide WithinLimit, FeeOn;
  }

  lemma CloseSlots(u: User, m: Market, feeBps: u16, at: nat, size: u64, limit: u64)
    requires at < |u.positions| && ExecuteAmmClose(u, m, feeBps, at, size, limit).Ok?
    ensures |ExecuteAmmClose(u, m, feeBps, at, size, limit).value.user.positions| == |u.positions|
  {
    var _, _ := CloseShape(u, m, feeBps, at, size, limit);
    hide ExecuteAmmClose;
  }

  // ------------------------------------------------------------ once only

  /** A trigger fires only beyond its price, and only once: sent again, at any price, in the
      resulting world, it finds no order. */
  lemma TriggerFiresOnce(w: World, ix: Instruction, w': World, again: u64)
    requires WorldOk(w) && ix.Trigger? && Step(w, ix) == Ok(w') && OrdersOk(w.users[ix.user])
    ensures var o := w.users[ix.user].orders[FindOrder(w.users[ix.user].orders, ix.id).value];
      if o.triggerCondition == Above then ix.price >= o.triggerPrice else ix.price <= o.triggerPrice
    ensures Step(w', Trigger(ix.user, ix.market, ix.id, again)).Err?
  {
    var u, m := w.users[ix.user], w.markets[ix.market];
    var size := TriggerFillsOrder(w.config, u, m, ix.id, ix.price);
    TriggerConsumes(w.config, u, m, ix.id, ix.price);
    var u' := w'.users[ix.user];
    var slot := FindOrder(u.orders, ix.id).value;
    forall a | 0 <= a < |u'.orders|
      ensures !(u'.orders[a].IsOpen() && u'.orders[a].id == ix.id)
    {
      if a != slot { assert u'.orders[a] == u.orders[a]; }
    }
    assert FindOrder(u'.orders, ix.id).Err?;
    hide ExecuteAmmClose, FindOrder;
  }

  lemma TriggerConsumes(cfg: Config, u: User, m: Market, id: u32, price: u64)
    requires TriggerOrder(cfg, u, m, id, price).Ok?
    ensures var slot := FindOrder(u.orders, id).value;
      && Fired(u.orders[slot], price)
      && !TriggerOrder(cfg, u, m, id, price).value.0.orders[slot].IsOpen()
  {
    hide ExecuteAmmClose;
  }

  /** Once settled, a position owes nothing until funding moves again. */
  lemma SettledOwesNothing(u: User, m: Market)
    requires UserOk(u) && SettleFunding(u, m).Ok?
    ensures PaymentDue(SettleFunding(u, m).value, m) == 0
  {
    var at, payment, paid := SettleShape(u, m);
    PayFundingFacts(u, at, payment, m.amm.cumFundingLong);
    PaidSlotFound(u, m.index, m.amm.cumFundingLong);
    hide PayFunding;
    assert paid.positions[at].base * (m.amm.cumFundingLong - paid.positions[at].lastCumFunding) == 0;
  }

  // ------------------------------------------------------------ funding already accrued

  /** Base an account holds in the market, and the funding it has accrued there and not settled. */
  function BaseIn(u: User, m: Market): int {
    match FindPosition(u.positions, m.index)
    case Some(at) => u.positions[at].base
    case None => 0
  }

  function AccruedIn(u: User, m: Market): int {
    match FindPosition(u.positions, m.index)
    case Some(at) => m.amm.cumFundingLong - u.positions[at].lastCumFunding
    case None => 0
  }

  /** Funding owed on a base after an accrual. */
  function Owed(base: int, accrued: int): int { TruncDiv(base * accrued, BASE_PRECISION) }

  lemma NothingOwed(base: int, accrued: int)
    requires base == 0 || accrued == 0
    ensures Owed(base, accrued) == 0
  {
  }

  lemma DueIsOwed(u: User, m: Market)
    ensures PaymentDue(u, m) == Owed(BaseIn(u, m), AccruedIn(u, m))
  {
  }

  /** More base of the same sign owes the same exactly while the added share fits the remainder
      that truncation drops. */
  lemma MoreOwed(base: int, more: int, accrued: int)
    requires (base >= 0 && more >= 0) || (base <= 0 && more <= 0)
    ensures Owed(base + more, accrued) == Owed(base, accrued)
      <==> Abs(base * accrued) % BASE_PRECISION + Abs(more * accrued) < BASE_PRECISION
  {
    var x, y := Abs(base * accrued), Abs(more * accrued);
    assert (base + more) * accrued == base * accrued + more * accrued;
    SameSigns(base, more, accrued);
    assert Abs((base + more) * accrued) == x + y;
    FloorWith(x, y, BASE_PRECISION);
    TruncAbs(base * accrued, BASE_PRECISION);
    TruncAbs((base + more) * accrued, BASE_PRECISION);
  }

  lemma SameSigns(b: int, c: int, a: int)
    requires (b >= 0 && c >= 0) || (b <= 0 && c <= 0)
    ensures (b * a >= 0 && c * a >= 0) || (b * a <= 0 && c * a <= 0)
  {
    if b >= 0 && c >= 0 && a >= 0 { MulMono(0, b, a); MulMono(0, c, a); }
    else if b >= 0 && c >= 0 { MulMono(0, b, 0 - a); MulMono(0, c, 0 - a); }
    else if a >= 0 { MulMono(b, 0, a); MulMono(c, 0, a); }
    else { MulMono(b, 0, 0 - a); MulMono(c, 0, 0 - a); }
  }

  /** Less base owes the same exactly while the removed share fits that remainder. */
  lemma LessOwed(base: int, less: int, accrued: int)
    requires if base >= 0 then 0 <= less <= base else base <= less <= 0
    ensures Owed(base - less, accrued) == Owed(base, accrued)
      <==> Abs(less * accrued) <= Abs(base * accrued) % BASE_PRECISION
  {
    var x, y := Abs(base * accrued), Abs(less * accrued);
    assert base * accrued == (base - less) * accrued + less * accrued;
    SameSigns(base - less, less, accrued);
    assert Abs((base - less) * accrued) == x - y;
    FloorWithout(x, y, BASE_PRECISION);
    TruncAbs(base * accrued, BASE_PRECISION);
    TruncAbs((base - less) * accrued, BASE_PRECISION);
  }

  /** Adding to a position before it settles: the added base owes for the old accrual too. */
  lemma AddedOwes(u: User, m: Market, isLong: bool, size: u64, quote: i64, u': User, m': Market)
    requires SlotsOk(u.positions) && 0 < size <= I64_MAX && quote >= 0
    requires var signed := if isLong then size else 0 - size;
      var added := AddToPosition(u.positions, m.index, isLong, signed, quote, m.amm.cumFundingLong);
      added.Ok? && u'.positions == added.value.0
    requires m'.index == m.index && m'.amm.cumFundingLong == m.amm.cumFundingLong
    ensures OwesFor(u, m, u', m', if isLong then size else 0 - size)
  {
    var k, ps, signed := m.index, u.positions, if isLong then size else 0 - size;
    var at := AddToPositionFacts(ps, k, isLong, signed, quote, m.amm.cumFundingLong);
    hide AddToPosition, Owed;
    WrittenSlotFound(ps, at, u'.positions[at], k);
    if ps[at].base != 0 { WrittenSlotFound(ps, at, ps[at], k); assert ps[at := ps[at]] == ps; }
    assert BaseIn(u, m) == ps[at].base && BaseIn(u', m') == ps[at].base + signed;
    DueIsOwed(u, m);
    DueIsOwed(u', m');
    MoreOwed(BaseIn(u, m), signed, AccruedIn(u, m));
    if ps[at].base == 0 { NothingOwed(signed, 0); NothingOwed(0, 0); }
  }

  /** The account owes for its new base what it had accrued, and owes the same as before exactly
      while the added share fits the remainder that truncation drops. */
  predicate OwesFor(u: User, m: Market, u': User, m': Market, more: int) {
    var base, accrued := BaseIn(u, m), AccruedIn(u, m);
    && PaymentDue(u', m') == Owed(base + more, accrued)
    && (PaymentDue(u', m') == PaymentDue(u, m)
        <==> Abs(base * accrued) % BASE_PRECISION + Abs(more * accrued) < BASE_PRECISION)
  }

  /** An open trade, or a fill that opens, changes what is owed for funding already accrued. */
  lemma OpenOwes(u: User, m: Market, feeBps: u16, dir: Direction, size: u64, limit: u64, price: u64)
    requires SlotsOk(u.positions) && CurveOk(m.amm) && size <= I64_MAX
    requires ExecuteAmmOpen(u, m, feeBps, dir, size, limit, price).Ok?
    ensures var r := ExecuteAmmOpen(u, m, feeBps, dir, size, limit, price).value;
      OwesFor(u, m, r.user, r.market, if dir == Long then size else 0 - size)
  {
    hide ExecuteAmmOpen, AddToPosition, PriceTrade, OwesFor, RequireInitial, SlotsOk;
    var priced, added := OpenShape(u, m, feeBps, dir, size, limit, price);
    var r := ExecuteAmmOpen(u, m, feeBps, dir, size, limit, price).value;
    PriceFacts(m, feeBps, size, limit, dir == Long);
    OpenMarketFacts(m, priced, dir == Long, size);
    hide OpenMarket;
    AddedOwes(u, m, dir == Long, size, priced.swap.quote, r.user, r.market);
  }

  /** So does either leg of a peer match. */
  lemma MatchOwes(u: User, m: Market, dir: Direction, size: u64, quote: u128, delta: i64, price: u64)
    requires SlotsOk(u.positions) && 0 < size <= I64_MAX && quote <= I128_MAX
    requires ApplyMatchLeg(u, m, dir, size, quote, delta, price).Ok?
    ensures var (u', m') := ApplyMatchLeg(u, m, dir, size, quote, delta, price).value;
      OwesFor(u, m, u', m', if dir == Long then size else 0 - size)
  {
    hide ApplyMatchLeg, AddToPosition, OwesFor, RequireInitial, SlotsOk;
    var added := MatchLegShape(u, m, dir, size, quote, delta, price);
    var (u', m') := ApplyMatchLeg(u, m, dir, size, quote, delta, price).value;
    AddedOwes(u, m, dir == Long, size, quote, u', m');
  }

  /** A close before settling forgives the accrual on what it removes: what is owed stays the
      same exactly while that share fits the remainder. */
  lemma CloseOwes(u: User, m: Market, feeBps: u16, at: nat, size: u64, limit: u64)
    requires SlotsOk(u.positions) && CurveOk(m.amm) && FindPosition(u.positions, m.index) == Some(at)
    requires ExecuteAmmClose(u, m, feeBps, at, size, limit).Ok?
    ensures var r := ExecuteAmmClose(u, m, feeBps, at, size, limit).value;
      var base, accrued := BaseIn(u, m), AccruedIn(u, m);
      var less := if base > 0 then size else 0 - size;
      && PaymentDue(r.user, r.market) == Owed(base - less, accrued)
      && (PaymentDue(r.user, r.market) == PaymentDue(u, m)
          <==> Abs(less * accrued) <= Abs(base * accrued) % BASE_PRECISION)
  {
    hide ExecuteAmmClose, PriceTrade, Reduce, Owed;
    var priced, reduction := CloseShape(u, m, feeBps, at, size, limit);
    var r := ExecuteAmmClose(u, m, feeBps, at, size, limit).value;
    var p := u.positions[at];
    PriceFacts(m, feeBps, size, limit, p.base < 0);
    ReduceFacts(p, size, priced.swap.quote);
    FoundIsOnly(u.positions, m.index);
    ReducedFound(u.positions, at, reduction.position, m.index);
    var less := if p.base > 0 then size else 0 - size;
    assert r.market.index == m.index && r.market.amm.cumFundingLong == m.amm.cumFundingLong;
    DueIsOwed(u, m);
    DueIsOwed(r.user, r.market);
    LessOwed(p.base, less, AccruedIn(u, m));
    NothingOwed(0, AccruedIn(u, m));
    NothingOwed(0, 0);
  }

  lemma ReducedFound(ps: seq<PerpPosition>, at: nat, p: PerpPosition, k: u16)
    requires OnlySlot(ps, at, k) && p.marketIndex == k && SlotOk(p)
    ensures FindPosition(ps[at := p], k) == if p.base == 0 then None else Some(at)
  {
    if p.base != 0 { WrittenSlotFound(ps, at, p, k); }
  }

  // ------------------------------------------------------------ the start

  /** A market opens with its mark price equal to its peg, and both averages there; only a
      depth whose product with the peg does not fit 128 bits leaves it without a mark. */
  lemma OpensAtPeg(numMarkets: nat, p: MarketParams, now: i64)
    requires InitializeMarket(numMarkets, p, now).Ok?
    ensures var a := InitializeMarket(numMarkets, p, now).value.amm;
      && a.markTwap == p.peg && a.oracleTwap == p.peg
      && ReservePrice(a.base, a.quote, a.peg) == if p.reserve * p.peg <= U128_MAX then Ok(p.peg) else Err(MathOverflow)
  {
    FloorGalois(p.peg, p.reserve * p.peg, p.reserve);
    FloorGalois(p.peg + 1, p.reserve * p.peg, p.reserve);
    Commute(p.peg, p.reserve);
    Distribute(p.peg, 1, p.reserve);
  }
}
