/** The life of a resting order: its id, how much of it is filled, and at what price. */
module OrderLife {
  import opened Numbers
  import opened Sequences
  import opened State
  import opened Margin
  import opened Controller
  import opened Instructions
  import opened Protocol
  import opened Bookkeeping
  import opened Ledger
  import opened Steps
  import opened Runs
  import opened Frames
  import opened Debt

  // ------------------------------------------------------------ sound order books

  /** Open orders have distinct ids below the counter and something left to fill. */
  predicate OrdersOk(u: User) {
    && (forall a :: 0 <= a < |u.orders| && u.orders[a].IsOpen() ==>
          u.orders[a].id < u.nextOrderId && u.orders[a].filled < u.orders[a].amount)
    && (forall a, b :: 0 <= a < b < |u.orders| && u.orders[a].IsOpen() && u.orders[b].IsOpen() ==>
          u.orders[a].id != u.orders[b].id)
  }

  /** What filling `size` of the order `id` does to an account's orders: the order keeps
      its terms and counts the fill, or is gone. */
  predicate FillsOrder(u: User, u': User, id: u32, size: int) {
    && FindOrder(u.orders, id).Ok? && |u'.orders| == |u.orders| && u'.nextOrderId == u.nextOrderId
    && var slot := FindOrder(u.orders, id).value;
    var o, o' := u.orders[slot], u'.orders[slot];
    && u'.orders == u.orders[slot := o']
    && 0 < size <= o.amount - o.filled
    && (o'.IsOpen() ==> o.filled + size < o.amount && o' == o.(filled := o.filled + size))
  }

  lemma FillKeepsOrdersOk(u: User, u': User, id: u32, size: int)
    requires OrdersOk(u) && FillsOrder(u, u', id, size)
    ensures OrdersOk(u')
  {
    var slot := FindOrder(u.orders, id).value;
    forall a | 0 <= a < |u'.orders| && u'.orders[a].IsOpen()
      ensures u.orders[a].IsOpen() && u'.orders[a].id == u.orders[a].id
    {
      if a == slot { assert u.orders[slot].IsOpen(); }
    }
  }

  /** A partial fill keeps the order exactly when something remains. */
  lemma PartlyFilled(o: Order, size: u64)
    requires 0 < size <= o.Remaining()
    ensures o.Fill(size) == o.(filled := o.filled + size)
    ensures o.Fill(size).Remaining() == 0 <==> o.filled + size == o.amount
  {
  }

  // ------------------------------------------------------------ fills against the AMM

  /** Signed base of a user in a market. */
  ghost function Exposure(k: int): User -> int { (u: User) => UserLong(k)(u) + UserShort(k)(u) }

  lemma CloseVolume(u: User, m: Market, feeBps: u16, at: nat, size: u64, limit: u64)
    requires at < |u.positions| && ExecuteAmmClose(u, m, feeBps, at, size, limit).Ok?
    ensures var m' := ExecuteAmmClose(u, m, feeBps, at, size, limit).value.market;
      size > 0 && Abs(m'.amm.long + m'.amm.short - m.amm.long - m.amm.short) == size
  {
    var _, _ := CloseShape(u, m, feeBps, at, size, limit);
    hide ExecuteAmmClose;
  }

  lemma OpenVolume(u: User, m: Market, feeBps: u16, dir: Direction, size: u64, limit: u64, price: u64)
    requires ExecuteAmmOpen(u, m, feeBps, dir, size, limit, price).Ok?
    ensures var m' := ExecuteAmmOpen(u, m, feeBps, dir, size, limit, price).value.market;
      size > 0 && Abs(m'.amm.long + m'.amm.short - m.amm.long - m.amm.short) == size
  {
    var _, _ := OpenShape(u, m, feeBps, dir, size, limit, price);
    hide ExecuteAmmOpen;
  }

  /** The trader's base moves by as much as the market's totals. */
  lemma LegExposure(u: User, m: Market, u': User, m': Market, paid: int, realized: int, charge: int)
    requires Leg(u, m, u', m', paid, realized, charge)
    ensures Exposure(m.index)(u') - Exposure(m.index)(u) == m'.amm.long + m'.amm.short - m.amm.long - m.amm.short
    ensures UserEntry(m.index)(u') - UserEntry(m.index)(u) == 0 - paid - realized
  {
    var k := m.index as int;
    assert UserLong(k)(u') == UserLong(k)(u) + m'.amm.long - m.amm.long;
    assert UserShort(k)(u') == UserShort(k)(u) + m'.amm.short - m.amm.short;
    assert UserEntry(k)(u') == UserEntry(k)(u) - paid - realized;
  }

  lemma FillFillsOrder(cfg: Config, u: User, m: Market, id: u32, price: u64) returns (size: int)
    requires FillOrder(cfg, u, m, id, price).Ok?
    ensures var (u', m') := FillOrder(cfg, u, m, id, price).value;
      && FillsOrder(u, u', id, size)
      && Abs(m'.amm.long + m'.amm.short - m.amm.long - m.amm.short) == size
  {
    hide ExecuteAmmOpen, ExecuteAmmClose;
    var order := u.orders[FindOrder(u.orders, id).value];
    if order.reduceOnly {
      var i := FindPosition(u.positions, m.index).value;
      var whole: u64 := Abs(u.positions[i].base);
      size := Min(order.Remaining(), whole);
      CloseVolume(u, m, cfg.takerFeeBps, i, size, order.price);
      CloseWrites(u, m, cfg.takerFeeBps, i, size, order.price);
      PartlyFilled(order, size);
    } else {
      size := order.Remaining();
      OpenVolume(u, m, cfg.takerFeeBps, order.direction, size, order.price, price);
      OpenWrites(u, m, cfg.takerFeeBps, order.direction, size, order.price, price);
    }
  }

  lemma TriggerFillsOrder(cfg: Config, u: User, m: Market, id: u32, price: u64) returns (size: int)
    requires TriggerOrder(cfg, u, m, id, price).Ok?
    ensures var (u', m') := TriggerOrder(cfg, u, m, id, price).value;
      && FillsOrder(u, u', id, size)
      && Abs(m'.amm.long + m'.amm.short - m.amm.long - m.amm.short) == size
  {
    hide ExecuteAmmClose;
    var order := u.orders[FindOrder(u.orders, id).value];
    var i := FindPosition(u.positions, m.index).value;
    size := Min(order.Remaining(), Abs(u.positions[i].base));
    var limit := if order.orderType == TriggerLimit then order.price else 0;
    CloseVolume(u, m, cfg.takerFeeBps, i, size, limit);
    CloseWrites(u, m, cfg.takerFeeBps, i, size, limit);
    PartlyFilled(order, size);
  }

  // ------------------------------------------------------------ peer fills

  /** A peer fill as it shows in one account: base and cost basis move by size and quote. */
  ghost predicate PeerFill(u: User, u': User, k: int, id: u32, size: int, quote: int) {
    && FillsOrder(u, u', id, size)
    && Abs(Exposure(k)(u') - Exposure(k)(u)) == size
    && Abs(UserEntry(k)(u') - UserEntry(k)(u)) == quote
  }

  /** The resting order of a match gives up exactly the matched size. */
  predicate RestsLess(u: User, u': User, k: u16, id: u32, size: int) {
    && FindOrder(u.orders, id).Ok?
    && var slot := FindOrder(u.orders, id).value;
    var o := u.orders[slot];
    && o.orderType == Limit && !o.reduceOnly && o.marketIndex == k
    && 0 < size <= o.Remaining()
    && u'.orders == u.orders[slot := FillAndMaybeClear(o, size)]
  }

  /** The two orders of a match. */
  predicate Paired(bid: Order, ask: Order, quote: int, size: int) {
    && bid.direction != ask.direction && Crosses(bid, ask)
    && quote == size * ask.price / BASE_PRECISION
  }

  lemma MatchFills(cfg: Config, taker: User, maker: User, m: Market, takerId: u32, makerId: u32, price: u64)
    returns (size: int, quote: int)
    requires UserOk(taker) && UserOk(maker)
    requires FillMatch(cfg, taker, maker, false, m, takerId, makerId, price).Ok?
    ensures var f := FillMatch(cfg, taker, maker, false, m, takerId, makerId, price).value;
      && PeerFill(taker, f.taker, m.index, takerId, size, quote)
      && PeerFill(maker, f.maker, m.index, makerId, size, quote)
      && Paired(taker.orders[FindOrder(taker.orders, takerId).value],
                maker.orders[FindOrder(maker.orders, makerId).value], quote, size)
      && RestsLess(taker, f.taker, m.index, takerId, size)
      && RestsLess(maker, f.maker, m.index, makerId, size)
  {
    hide ExecuteMakerMatch;
    var pair := CheckMatch(cfg, taker, maker, false, m, takerId, makerId).value;
    var bid, ask := taker.orders[pair.takerSlot], maker.orders[pair.makerSlot];
    size := pair.size;
    assert FindOrder(taker.orders, takerId) == Ok(pair.takerSlot);
    assert FindOrder(maker.orders, makerId) == Ok(pair.makerSlot);
    var fill := ExecuteMakerMatch(taker, maker, m, cfg.takerFeeBps, cfg.makerRebateBps, bid.direction, size, ask.price,
                                  price).value;
    var f := FillMatch(cfg, taker, maker, false, m, takerId, makerId, price).value;
    assert f.taker == fill.taker.(orders := taker.orders[pair.takerSlot := FillAndMaybeClear(bid, size)]);
    assert f.maker == fill.maker.(orders := maker.orders[pair.makerSlot := FillAndMaybeClear(ask, size)]);
    assert bid.direction != ask.direction && Crosses(bid, ask) && 0 < size == Min(bid.Remaining(), ask.Remaining());
    hide CheckMatch, FillMatch, FindOrder, Exposure, UserEntry, Order.Remaining, FillAndMaybeClear;
    quote := LegVolumes(taker, maker, m, cfg.takerFeeBps, cfg.makerRebateBps, bid.direction, size, ask.price, price);
    AsPeerFill(taker, fill.taker, f.taker, m.index, takerId, size, quote);
    AsPeerFill(maker, fill.maker, f.maker, m.index, makerId, size, quote);
  }

  lemma AsPeerFill(u: User, v: User, u': User, k: int, id: u32, size: u64, quote: int)
    requires FindOrder(u.orders, id).Ok? && v.nextOrderId == u.nextOrderId
    requires var slot := FindOrder(u.orders, id).value;
      && 0 < size <= u.orders[slot].Remaining()
      && u' == v.(orders := u.orders[slot := FillAndMaybeClear(u.orders[slot], size)])
    requires Abs(Exposure(k)(v) - Exposure(k)(u)) == size && Abs(UserEntry(k)(v) - UserEntry(k)(u)) == quote
    ensures PeerFill(u, u', k, id, size, quote)
  {
    PartlyFilled(u.orders[FindOrder(u.orders, id).value], size);
    SamePositions(v, u', k);
  }

  lemma SamePositions(u: User, u': User, k: int)
    requires u.positions == u'.positions
    ensures Exposure(k)(u') == Exposure(k)(u) && UserEntry(k)(u') == UserEntry(k)(u)
  {
    assert UserLong(k)(u') == UserLong(k)(u) && UserShort(k)(u') == UserShort(k)(u);
  }

  lemma LegVolumes(taker: User, maker: User, m: Market, feeBps: u16, rebateBps: u16, dir: Direction, size: u64,
                   fillPrice: u64, price: u64)
    returns (quote: int)
    requires UserOk(taker) && UserOk(maker) && size <= I64_MAX
    requires ExecuteMakerMatch(taker, maker, m, feeBps, rebateBps, dir, size, fillPrice, price).Ok?
    ensures quote == size * fillPrice / BASE_PRECISION
    ensures var f := ExecuteMakerMatch(taker, maker, m, feeBps, rebateBps, dir, size, fillPrice, price).value;
      && Abs(Exposure(m.index)(f.taker) - Exposure(m.index)(taker)) == size
      && Abs(Exposure(m.index)(f.maker) - Exposure(m.index)(maker)) == size
      && Abs(UserEntry(m.index)(f.taker) - UserEntry(m.index)(taker)) == quote
      && Abs(UserEntry(m.index)(f.maker) - UserEntry(m.index)(maker)) == quote
      && f.taker.nextOrderId == taker.nextOrderId && f.maker.nextOrderId == maker.nextOrderId
  {
    hide ExecuteMakerMatch, ApplyMatchLeg, CollectNetFee, PriceMatch, Leg;
    var priced, first, second := MatchShape(taker, maker, m, feeBps, rebateBps, dir, size, fillPrice, price);
    quote := priced.quote;
    MatchLegFacts(taker, m, dir, size, priced.quote, 0 - priced.fee, price);
    MatchLegFacts(maker, first.1, Opposite(dir), size, priced.quote, priced.rebate, price);
    LegExposure(taker, m, first.0, first.1, if dir == Long then quote else 0 - quote, 0, priced.fee);
    LegExposure(maker, first.1, second.0, second.1, if Opposite(dir) == Long then quote else 0 - quote, 0,
                0 - priced.rebate);
  }
}
