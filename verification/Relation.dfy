/** What every instruction does, as a relation between the world before and the world after.

    It is written in plain arithmetic: a rounding is an inequality, a width is a range, a search
    is "the first that", a scale is a number.  It shares the records of the other modules and
    calls none of their functions, so that agreeing with it says something about all of them. */
module Relation {
  import opened Numbers
  import opened State
  import opened Curve
  import opened Controller
  import opened Instructions
  import opened Protocol

  // ------------------------------------------------------------ widths and roundings

  predicate InU64(x: int) { 0 <= x < 0x1_0000_0000_0000_0000 }
  predicate InU128(x: int) { 0 <= x < 0x1_0000_0000_0000_0000_0000_0000_0000_0000 }
  predicate InI64(x: int) { -0x8000_0000_0000_0000 <= x < 0x8000_0000_0000_0000 }
  predicate InI128(x: int) {
    -0x8000_0000_0000_0000_0000_0000_0000_0000 <= x < 0x8000_0000_0000_0000_0000_0000_0000_0000
  }

  predicate RoundsDown(r: int, a: int, d: int) { r * d <= a < r * d + d }
  predicate RoundsUp(r: int, a: int, d: int) { r * d - d < a <= r * d }
  predicate RoundsToZero(r: int, a: int, d: int) { if a >= 0 then RoundsDown(r, a, d) else RoundsUp(r, a, d) }

  function Magnitude(x: int): nat { if x >= 0 then x else 0 - x }
  function Lesser(x: int, y: int): int { if x <= y then x else y }
  function Positive(x: int): nat { if x >= 0 then x else 0 }

  // ------------------------------------------------------------ trades with the AMM

  /** The product of the reserves is kept, the quote reserve rounded up, the quote moved rounded down. */
  predicate Swaps(a: Amm, size: int, buys: bool, s: SwapResult) {
    && size > 0 && InU128(a.base * a.quote)
    && s.newBase == (if buys then a.base - size else a.base + size) && s.newBase > 0
    && RoundsUp(s.newQuote, a.base * a.quote, s.newBase)
    && var moved := if buys then s.newQuote - a.quote else a.quote - s.newQuote;
    InU128(moved * a.peg) && RoundsDown(s.quote, moved * a.peg, 1_000_000_000)
  }

  /** The swap, its average price within the limit, and its fee in basis points. */
  predicate Quotes(m: Market, feeBps: int, size: int, limit: int, buys: bool, t: Priced) {
    && Swaps(m.amm, size, buys, t.swap)
    && InU128(t.swap.quote * 1_000_000_000) && RoundsDown(t.avg, t.swap.quote * 1_000_000_000, size)
    && (limit == 0 || if buys then t.avg <= limit else t.avg >= limit)
    && InU128(t.swap.quote * feeBps) && RoundsUp(t.fee, t.swap.quote * feeBps, 10_000)
  }

  /** What the trade event can record. */
  predicate Records(t: Priced) { InU64(t.swap.quote) && InU64(t.avg) && InU64(t.fee) }

  // ------------------------------------------------------------ slots

  predicate Holds(p: PerpPosition, k: int) { p.base != 0 && p.marketIndex == k }
  predicate Keeps(p: PerpPosition, k: int) { p.marketIndex == k && (p.base != 0 || p.openOrders != 0) }
  predicate Idle(p: PerpPosition) { p.base == 0 && p.openOrders == 0 }

  /** The first slot with an open position of market `k`. */
  predicate Held(ps: seq<PerpPosition>, k: int, at: nat) {
    at < |ps| && Holds(ps[at], k) && forall i :: 0 <= i < at ==> !Holds(ps[i], k)
  }

  /** The slot an opening trade writes: the open position, else the slot kept for the market,
      else the first idle one. */
  predicate OpensIn(ps: seq<PerpPosition>, k: int, at: nat) {
    && at < |ps|
    && if exists i :: 0 <= i < |ps| && Holds(ps[i], k) then Held(ps, k, at)
       else if exists i :: 0 <= i < |ps| && Keeps(ps[i], k)
       then Keeps(ps[at], k) && forall i :: 0 <= i < at ==> !Keeps(ps[i], k)
       else Idle(ps[at]) && forall i :: 0 <= i < at ==> !Idle(ps[i])
  }

  /** `size as i64`. */
  function Wrapped(size: int): int {
    if size < 0x8000_0000_0000_0000 then size else size - 0x1_0000_0000_0000_0000
  }

  function Signed(isLong: bool, size: int): int { if isLong then Wrapped(size) else 0 - Wrapped(size) }

  /** `size` base enters at a cost of `quote`, on the side of the position that is there. */
  predicate Joins(ps: seq<PerpPosition>, m: Market, isLong: bool, size: int, quote: int, at: nat,
                  ps': seq<PerpPosition>) {
    && OpensIn(ps, m.index, at) && |ps'| == |ps|
    && var p := if Idle(ps[at]) then PerpPosition(m.index, 0, 0, 0, 0) else ps[at];
    && (p.base != 0 ==> (p.base > 0) == isLong) && InI64(Signed(isLong, size)) && InI64(quote)
    && ps' == ps[at := p.(base := ps'[at].base, entry := ps'[at].entry, lastCumFunding := ps'[at].lastCumFunding)]
    && ps'[at].base == p.base + Signed(isLong, size)
    && ps'[at].entry == (if isLong then p.entry - quote else p.entry + quote)
    && ps'[at].lastCumFunding == (if p.base == 0 then m.amm.cumFundingLong else p.lastCumFunding)
  }

  // ------------------------------------------------------------ margin

  datatype Worth = Worth(value: int, notional: int, initial: int, maintenance: int)

  /** A position at an oracle price: its value, and the two requirements in basis points of its notional. */
  predicate Values(p: PerpPosition, price: int, m: Market, v: Worth) {
    && RoundsToZero(v.value, p.base * price, 1_000_000_000)
    && RoundsDown(v.notional, Magnitude(p.base) * price, 1_000_000_000)
    && InU128(v.notional * m.marginInitial) && RoundsDown(v.initial, v.notional * m.marginInitial, 10_000)
    && InU128(v.notional * m.marginMaintenance)
    && RoundsDown(v.maintenance, v.notional * m.marginMaintenance, 10_000)
  }

  predicate Margined(collateral: int, p: PerpPosition, price: int, m: Market, v: Worth) {
    Values(p, price, m, v) && collateral + v.value + p.entry >= v.initial
  }

  // ------------------------------------------------------------ opening

  datatype Opening = Opening(priced: Priced, at: nat, worth: Worth)

  predicate Capped(m: Market) {
    InU128(m.oiLong + m.oiShort) && (m.maxOi == 0 || m.oiLong + m.oiShort <= m.maxOi)
  }

  /** What an open does to its market: reserves, one side's open interest and total, fees, under the cap. */
  predicate Grows(m: Market, isLong: bool, size: int, t: Priced, m': Market) {
    && m' == m.(oiLong := m'.oiLong, oiShort := m'.oiShort,
                amm := m.amm.(base := t.swap.newBase, quote := t.swap.newQuote, long := m'.amm.long,
                              short := m'.amm.short, totalFee := m'.amm.totalFee))
    && m'.oiLong == (if isLong then m.oiLong + size else m.oiLong)
    && m'.oiShort == (if isLong then m.oiShort else m.oiShort + size)
    && m'.amm.long == (if isLong then m.amm.long + size else m.amm.long)
    && m'.amm.short == (if isLong then m.amm.short else m.amm.short - size)
    && m'.amm.totalFee == m.amm.totalFee + t.fee && Capped(m')
  }

  predicate Opens(u: User, m: Market, feeBps: int, isLong: bool, size: int, limit: int, price: int,
                  u': User, m': Market, o: Opening)
  {
    var t := o.priced;
    && Quotes(m, feeBps, size, limit, isLong, t) && Records(t)
    && Joins(u.positions, m, isLong, size, t.swap.quote, o.at, u'.positions)
    && u' == u.(collateral := u'.collateral, positions := u'.positions) && u'.collateral == u.collateral - t.fee
    && Grows(m, isLong, size, t, m')
    && o.at < |u'.positions| && Margined(u'.collateral, u'.positions[o.at], price, m, o.worth)
  }

  ghost predicate OpensSomehow(u: User, m: Market, feeBps: int, isLong: bool, size: int, limit: int, price: int,
                               u': User, m': Market)
  {
    exists o :: Opens(u, m, feeBps, isLong, size, limit, price, u', m', o)
  }

  // ------------------------------------------------------------ closing

  /** `size` base leaves with its share of the cost basis. */
  predicate Reduces(p: PerpPosition, size: int, removed: int, p': PerpPosition) {
    && 0 < size <= Magnitude(p.base) && InI64(size)
    && RoundsToZero(removed, p.entry * size, Magnitude(p.base))
    && p' == p.(base := p'.base, entry := p'.entry)
    && p'.base == (if p.base > 0 then p.base - size else p.base + size)
    && p'.entry == (if p'.base == 0 then 0 else p.entry - removed)
  }

  function Profit(p: PerpPosition, quote: int, removed: int): int {
    (if p.base > 0 then quote else 0 - quote) + removed
  }

  /** What a close does to its market: reserves, one side's open interest and total, and fees. */
  predicate Shrinks(m: Market, wasLong: bool, size: int, s: SwapResult, fee: int, m': Market) {
    && m' == m.(oiLong := m'.oiLong, oiShort := m'.oiShort,
                amm := m.amm.(base := s.newBase, quote := s.newQuote, long := m'.amm.long,
                              short := m'.amm.short, totalFee := m'.amm.totalFee))
    && m'.oiLong == (if wasLong then Positive(m.oiLong - size) else m.oiLong)
    && m'.oiShort == (if wasLong then m.oiShort else Positive(m.oiShort - size))
    && m'.amm.long == (if wasLong then m.amm.long - size else m.amm.long)
    && m'.amm.short == (if wasLong then m.amm.short else m.amm.short + size)
    && m'.amm.totalFee == m.amm.totalFee + fee
  }

  datatype Closing = Closing(priced: Priced, removed: int)

  predicate Closes(u: User, m: Market, feeBps: int, at: nat, size: int, limit: int, u': User, m': Market, c: Closing) {
    && at < |u.positions| && |u'.positions| == |u.positions|
    && var p, t := u.positions[at], c.priced;
    var profit := Profit(p, t.swap.quote, c.removed);
    && p.base != 0 && Quotes(m, feeBps, size, limit, p.base < 0, t) && Records(t)
    && Reduces(p, size, c.removed, u'.positions[at])
    && u' == u.(collateral := u'.collateral, settledPnl := u'.settledPnl,
                positions := u.positions[at := u'.positions[at]])
    && u'.collateral == u.collateral + profit - t.fee
    && InI64(profit) && u'.settledPnl == u.settledPnl + profit
    && Shrinks(m, p.base > 0, size, t.swap, t.fee, m')
  }

  /** The size of a close: what is asked for, or everything for nothing or too much. */
  function Asked(size: int, base: int): int { if size == 0 || size > Magnitude(base) then Magnitude(base) else size }

  // ------------------------------------------------------------ orders

  predicate Answers(o: Order, id: int) { o.status == Open && o.id == id }

  predicate Finds(os: seq<Order>, id: int, slot: nat) {
    slot < |os| && Answers(os[slot], id) && forall i :: 0 <= i < slot ==> !Answers(os[i], id)
  }

  function Left(o: Order): nat { Positive(o.amount - o.filled) }

  function Filled(o: Order, size: int): int {
    if o.filled + size < 0x1_0000_0000_0000_0000 then o.filled + size else 0xFFFF_FFFF_FFFF_FFFF
  }

  predicate Blank(o: Order) { o == Order(0, 0, MarketOrder, Init, Long, 0, 0, 0, 0, Above, false, false, 0) }

  /** The order with the fill counted; freed when nothing is left of it or of what it closes. */
  predicate Counts(o: Order, size: int, done: bool, o': Order) {
    if done || o.amount <= Filled(o, size) then Blank(o')
    else o' == o.(filled := o'.filled) && o'.filled == Filled(o, size)
  }

  predicate Beyond(o: Order, price: int) {
    match o.triggerCondition
    case Above => price >= o.triggerPrice
    case Below => price <= o.triggerPrice
  }

  predicate Rests(o: Order, id: int, k: int, p: OrderParams, now: int) {
    && o.id == id && o.marketIndex == k && o.status == Open && o.filled == 0 && o.ts == now
    && o.orderType == p.orderType && o.direction == p.direction && o.amount == p.amount && o.price == p.price
    && o.triggerPrice == p.triggerPrice && o.triggerCondition == p.triggerCondition
    && o.reduceOnly == p.reduceOnly && o.postOnly == p.postOnly
  }

  predicate WellPriced(p: OrderParams) {
    match p.orderType
    case MarketOrder => false
    case Limit => p.price > 0
    case TriggerMarket => p.triggerPrice > 0
    case TriggerLimit => p.price > 0 && p.triggerPrice > 0
  }

  // ------------------------------------------------------------ peer matches

  datatype Matching = Matching(bid: nat, ask: nat, size: int, quote: int, fee: int, rebate: int,
                               takerAt: nat, makerAt: nat, takerWorth: Worth, makerWorth: Worth)

  /** An open limit order of the market that may add. */
  predicate Matches(os: seq<Order>, id: int, k: int, slot: nat) {
    && Finds(os, id, slot)
    && os[slot].orderType == Limit && !os[slot].reduceOnly && os[slot].marketIndex == k
  }

  /** One side of a match: `delta` joins the collateral, the order counts its fill. */
  predicate Trades(u: User, m: Market, slot: nat, isLong: bool, size: int, quote: int, delta: int, price: int,
                   u': User, at: nat, v: Worth)
  {
    && slot < |u.orders| && |u'.orders| == |u.orders|
    && u' == u.(collateral := u'.collateral, positions := u'.positions, orders := u.orders[slot := u'.orders[slot]])
    && u'.collateral == u.collateral + delta
    && Joins(u.positions, m, isLong, size, quote, at, u'.positions)
    && Counts(u.orders[slot], size, false, u'.orders[slot])
    && at < |u'.positions| && Margined(u'.collateral, u'.positions[at], price, m, v)
  }

  predicate Crosses(taker: Order, maker: Order) {
    && taker.direction != maker.direction
    && if taker.direction == Long then maker.price <= taker.price else taker.price <= maker.price
  }

  /** What a match does to its market: both sides grow, the net fee stays, under the cap. */
  predicate Pairs(m: Market, size: int, fee: int, rebate: int, m': Market) {
    && m' == m.(oiLong := m'.oiLong, oiShort := m'.oiShort,
                amm := m.amm.(long := m'.amm.long, short := m'.amm.short, totalFee := m'.amm.totalFee))
    && m'.oiLong == m.oiLong + size && m'.amm.long == m.amm.long + size
    && m'.oiShort == m.oiShort + size && m'.amm.short == m.amm.short - size
    && InI128(m.amm.totalFee + fee) && m'.amm.totalFee == m.amm.totalFee + fee - rebate
    && Capped(m')
  }

  predicate MatchesPeers(cfg: Config, taker: User, maker: User, m: Market, takerId: int, makerId: int, price: int,
                         taker': User, maker': User, m': Market, x: Matching)
  {
    && m.status == Active && Matches(taker.orders, takerId, m.index, x.bid)
    && Matches(maker.orders, makerId, m.index, x.ask)
    && var bid, ask := taker.orders[x.bid], maker.orders[x.ask];
    var long := bid.direction == Long;
    && Crosses(bid, ask) && x.size == Lesser(Left(bid), Left(ask)) > 0
    && RoundsDown(x.quote, x.size * ask.price, 1_000_000_000)
    && RoundsUp(x.fee, x.quote * cfg.takerFeeBps, 10_000) && RoundsUp(x.rebate, x.quote * cfg.makerRebateBps, 10_000)
    && InI64(x.fee) && InI64(x.rebate)
    && Trades(taker, m, x.bid, long, x.size, x.quote, 0 - x.fee, price, taker', x.takerAt, x.takerWorth)
    && Trades(maker, m, x.ask, !long, x.size, x.quote, x.rebate, price, maker', x.makerAt, x.makerWorth)
    && Pairs(m, x.size, x.fee, x.rebate, m')
  }

  // ------------------------------------------------------------ fills and triggers

  /** A fill of a resting order against the AMM that may add. */
  predicate FillsOpening(cfg: Config, u: User, m: Market, slot: nat, price: int, u': User, m': Market, o: Opening) {
    && slot < |u.orders| && m.status == Active
    && var order := u.orders[slot];
    && Left(order) > 0 && |u'.orders| == |u.orders| && Blank(u'.orders[slot])
    && u'.orders == u.orders[slot := u'.orders[slot]]
    && Opens(u, m, cfg.takerFeeBps, order.direction == Long, Left(order), order.price, price, u'.(orders := u.orders),
             m', o)
  }

  /** A fill that only reduces: the smaller of what is left of the order and the position. */
  predicate FillsReducing(cfg: Config, u: User, m: Market, slot: nat, u': User, m': Market, at: nat, c: Closing) {
    && slot < |u.orders| && (m.status == Active || m.status == ReduceOnly) && Held(u.positions, m.index, at)
    && var order, base := u.orders[slot], u.positions[at].base;
    var size := Lesser(Left(order), Magnitude(base));
    && Left(order) > 0 && (order.direction == Long) != (base > 0)
    && |u'.orders| == |u.orders| && u'.orders == u.orders[slot := u'.orders[slot]]
    && Counts(order, size, size == Magnitude(base), u'.orders[slot])
    && Closes(u, m, cfg.takerFeeBps, at, size, order.price, u'.(orders := u.orders), m', c)
  }

  predicate Triggers(cfg: Config, u: User, m: Market, slot: nat, price: int, u': User, m': Market, at: nat,
                     c: Closing) {
    && slot < |u.orders| && (m.status == Active || m.status == ReduceOnly) && Held(u.positions, m.index, at)
    && var order := u.orders[slot];
    var size := Lesser(Left(order), Magnitude(u.positions[at].base));
    && (order.orderType == TriggerMarket || order.orderType == TriggerLimit) && order.reduceOnly
    && order.marketIndex == m.index && Beyond(order, price) && size > 0
    && |u'.orders| == |u.orders| && u'.orders == u.orders[slot := u'.orders[slot]]
    && u'.orders[slot] == order.(filled := u'.orders[slot].filled, status := Init)
    && u'.orders[slot].filled == Filled(order, size)
    && Closes(u, m, cfg.takerFeeBps, at, size, if order.orderType == TriggerLimit then order.price else 0,
              u'.(orders := u.orders), m', c)
  }

  // ------------------------------------------------------------ funding

  /** What is owed on a base for what accrued since it last settled. */
  predicate Owes(p: PerpPosition, cum: int, payment: int) {
    && InI128(cum - p.lastCumFunding) && InI128(p.base * (cum - p.lastCumFunding))
    && RoundsToZero(payment, p.base * (cum - p.lastCumFunding), 1_000_000_000)
  }

  predicate Settles(u: User, m: Market, u': User, at: nat, payment: int) {
    && Held(u.positions, m.index, at) && |u'.positions| == |u.positions|
    && Owes(u.positions[at], m.amm.cumFundingLong, payment)
    && u' == u.(collateral := u'.collateral, badDebt := u'.badDebt, settledPnl := u'.settledPnl,
                positions := u.positions[at := u.positions[at].(lastCumFunding := m.amm.cumFundingLong)])
    && u'.collateral == Positive(u.collateral - payment) && u'.badDebt == u.badDebt + Positive(payment - u.collateral)
    && InI64(payment) && u'.settledPnl == u.settledPnl - payment
  }

  /** A price average over a window: the new price weighs as much of it as has passed. */
  predicate Averages(previous: int, current: int, elapsed: int, window: int, r: int) {
    if elapsed <= 0 || previous == 0 then r == current
    else
      var weight := Lesser(elapsed, window);
      RoundsDown(r, previous * (window - weight) + current * weight, window)
  }

  datatype Accrual = Accrual(mark: int, premium: int, rate: int, delta: int)

  /** The clamp at half a percent. */
  function Clamped(x: int): int { if x < -5_000_000 then -5_000_000 else if x > 5_000_000 then 5_000_000 else x }

  /** The premium of the mark average over the index average, for a part of a day, clamped. */
  predicate Accrues(mark: int, index: int, period: int, c: Accrual) {
    && index > 0 && RoundsToZero(c.premium, (mark - index) * 1_000_000_000, index)
    && InI128(c.premium * period) && RoundsToZero(c.rate, c.premium * period, 86_400)
    && RoundsToZero(c.delta, Clamped(c.rate) * index, 1_000_000_000)
  }

  predicate Cranks(m: Market, price: int, now: int, m': Market, c: Accrual) {
    var a, a' := m.amm, m'.amm;
    var window := if m.fundingPeriod > 1 then m.fundingPeriod else 1;
    var elapsed := now - a.lastFundingTs;
    && a.base > 0 && InU128(a.quote * a.peg) && RoundsDown(c.mark, a.quote * a.peg, a.base) && InU64(c.mark)
    && InI64(now - a.lastTwapTs) && InI64(elapsed)
    && Averages(a.markTwap, c.mark, now - a.lastTwapTs, window, a'.markTwap)
    && Averages(a.oracleTwap, price, now - a.lastTwapTs, window, a'.oracleTwap)
    && a'.lastTwapTs == now
    && if elapsed <= 0
       then m' == m.(amm := a.(markTwap := a'.markTwap, oracleTwap := a'.oracleTwap, lastTwapTs := a'.lastTwapTs))
       else
         && Accrues(a'.markTwap, a'.oracleTwap, Lesser(elapsed, m.fundingPeriod), c)
         && m' == m.(amm := a.(markTwap := a'.markTwap, oracleTwap := a'.oracleTwap, lastTwapTs := a'.lastTwapTs,
                               cumFundingLong := a'.cumFundingLong, cumFundingShort := a'.cumFundingLong,
                               lastFundingRate := a'.lastFundingRate, lastFundingTs := a'.lastFundingTs),
                     nextFundingTs := m'.nextFundingTs)
         && a'.cumFundingLong == a.cumFundingLong + c.delta && a'.lastFundingRate == Clamped(c.rate)
         && a'.lastFundingTs == now && m'.nextFundingTs == now + m.fundingPeriod
  }

  // ------------------------------------------------------------ liquidation

  datatype Seizure = Seizure(at: nat, payment: int, worth: Worth, swap: SwapResult, removed: int, fee: int)

  /** Funding is settled, the account must then be below maintenance, and up to `maxBase` closes;
      the fee is a share of the notional closed and at most what is left. */
  predicate Liquidates(u: User, m: Market, insurance: int, maxBase: int, price: int,
                       u': User, m': Market, insurance': int, x: Seizure)
  {
    && Held(u.positions, m.index, x.at) && |u'.positions| == |u.positions|
    && var p, p' := u.positions[x.at], u'.positions[x.at];
    var size := Asked(maxBase, p.base);
    && Owes(p, m.amm.cumFundingLong, x.payment)
    && var settled := Positive(u.collateral - x.payment);
    && InU64(settled) && Values(p, price, m, x.worth) && settled + x.worth.value + p.entry < x.worth.maintenance
    && Swaps(m.amm, size, p.base < 0, x.swap)
    && Reduces(p, size, x.removed, p'.(lastCumFunding := p.lastCumFunding)) && p'.lastCumFunding == m.amm.cumFundingLong
    && var profit := Profit(p, x.swap.quote, x.removed);
    var left := settled + profit;
    && x.fee == Lesser(size * price / 1_000_000_000 * m.liquidationFeeBps / 10_000, Positive(left))
    && InU64(insurance + x.fee) && insurance' == insurance + x.fee
    && u' == u.(collateral := u'.collateral, badDebt := u'.badDebt, bankrupt := u.bankrupt || left - x.fee < 0,
                settledPnl := u'.settledPnl, beingLiquidated := false, positions := u.positions[x.at := p'])
    && u'.collateral == Positive(left - x.fee)
    && u'.badDebt == u.badDebt + Positive(x.payment - u.collateral) + Positive(x.fee - left)
    && InI64(profit) && u'.settledPnl == u.settledPnl + profit
    && Shrinks(m, p.base > 0, size, x.swap, 0, m')
  }

  predicate Resolves(u: User, insurance: int, u': User, insurance': int) {
    var draw := Lesser(u.badDebt, insurance);
    && u.bankrupt && u.badDebt > 0
    && u' == u.(badDebt := u'.badDebt, bankrupt := u.badDebt > draw) && u'.badDebt == u.badDebt - draw
    && insurance' == insurance - draw
  }

  // ------------------------------------------------------------ collateral and administration

  predicate Deposits(u: User, amount: int, u': User) {
    && amount > 0 && u' == u.(collateral := u'.collateral, cumDeposits := u'.cumDeposits)
    && u'.collateral == u.collateral + amount && u'.cumDeposits == u.cumDeposits + Wrapped(amount)
  }

  ghost predicate Withdraws(u: User, m: Market, amount: int, price: int, u': User) {
    && 0 < amount <= u.collateral
    && u' == u.(collateral := u'.collateral) && u'.collateral == u.collateral - amount
    && forall at: nat :: Held(u.positions, m.index, at) ==>
         exists v :: Margined(u'.collateral, u.positions[at], price, m, v)
  }

  predicate Places(u: User, m: Market, p: OrderParams, now: int, u': User, slot: nat) {
    && (m.status == Active || (p.reduceOnly && m.status == ReduceOnly))
    && p.amount > 0 && p.amount >= m.minOrderBase && WellPriced(p)
    && slot < |u.orders| && u.orders[slot].status != Open && (forall i :: 0 <= i < slot ==> u.orders[i].status == Open)
    && |u'.orders| == |u.orders|
    && u' == u.(nextOrderId := u'.nextOrderId, orders := u.orders[slot := u'.orders[slot]])
    && u'.nextOrderId == (if u.nextOrderId == 0xFFFF_FFFF then 0 else u.nextOrderId + 1)
    && Rests(u'.orders[slot], u.nextOrderId, m.index, p, now)
  }

  predicate Creates(n: nat, p: MarketParams, now: int, m: Market) {
    && p.index == n < 0xFFFF && p.marginInitial > p.marginMaintenance > 0 && p.reserve > 0 && p.peg > 0
    && m.index == n && m.status == Active && m.maxLeverage == p.maxLeverage && m.minOrderBase == p.minOrderBase
    && m.marginInitial == p.marginInitial && m.marginMaintenance == p.marginMaintenance
    && m.oiLong == m.oiShort == 0 && m.maxOi == p.maxOi && m.liquidationFeeBps == p.liquidationFeeBps
    && m.fundingPeriod == p.fundingPeriod && m.nextFundingTs == now + p.fundingPeriod
    && m.amm.base == m.amm.quote == m.amm.sqrtK == p.reserve && m.amm.peg == p.peg
    && m.amm.long == m.amm.short == m.amm.totalFee == 0
    && m.amm.cumFundingLong == m.amm.cumFundingShort == m.amm.lastFundingRate == 0
    && m.amm.markTwap == m.amm.oracleTwap == p.peg && m.amm.lastTwapTs == m.amm.lastFundingTs == now
  }

  predicate Retunes(m: Market, a: MarketArgs, m': Market) {
    && a.marginInitial > a.marginMaintenance > 0 && a.fundingPeriod > 0
    && m' == Market(m.index, a.status, m.amm, a.marginInitial, a.marginMaintenance, a.maxLeverage, a.minOrderBase,
                    m.oiLong, m.oiShort, a.maxOi, m.nextFundingTs, a.fundingPeriod, a.liquidationFeeBps)
  }

  predicate New(u: User) {
    && u.collateral == u.cumDeposits == u.settledPnl == u.nextOrderId == u.badDebt == 0
    && !u.beingLiquidated && !u.bankrupt && |u.positions| == 8 && |u.orders| == 32
    && (forall i :: 0 <= i < 8 ==> u.positions[i] == PerpPosition(0, 0, 0, 0, 0))
    && (forall i :: 0 <= i < 32 ==> Blank(u.orders[i]))
  }

  // ------------------------------------------------------------ the relation

  /** Nothing changes but account `i`, market `k` and the insurance fund. */
  predicate Touches(w: World, w': World, i: nat, k: nat) {
    && i < |w.users| == |w'.users| && k < |w.markets| == |w'.markets|
    && w' == w.(users := w.users[i := w'.users[i]], markets := w.markets[k := w'.markets[k]], insurance := w'.insurance)
  }

  predicate TouchesUser(w: World, w': World, i: nat) {
    i < |w.users| == |w'.users| && w' == w.(users := w.users[i := w'.users[i]], insurance := w'.insurance)
  }

  ghost predicate Does(w: World, ix: Instruction, w': World) {
    match ix
    case InitUser =>
      && |w.users| < 0xFFFF_FFFF && |w'.users| == |w.users| + 1 && New(w'.users[|w.users|])
      && w' == w.(users := w.users + [w'.users[|w.users|]])
    case InitMarket(p, now) =>
      && |w'.markets| == |w.markets| + 1 && Creates(|w.markets|, p, now, w'.markets[|w.markets|])
      && w' == w.(markets := w.markets + [w'.markets[|w.markets|]])
    case SetParams(k, args) =>
      && k < |w.markets| == |w'.markets| && Retunes(w.markets[k], args, w'.markets[k])
      && w' == w.(markets := w.markets[k := w'.markets[k]])
    case SetPaused(paused) => w' == w.(config := w.config.(paused := paused))
    case Deposit(i, amount) =>
      !w.config.paused && TouchesUser(w, w', i) && w'.insurance == w.insurance
      && Deposits(w.users[i], amount, w'.users[i])
    case Withdraw(i, k, amount, price) =>
      && !w.config.paused && TouchesUser(w, w', i) && w'.insurance == w.insurance && k < |w.markets|
      && Withdraws(w.users[i], w.markets[k], amount, price, w'.users[i])
    case OpenTrade(i, k, dir, size, limit, price) =>
      && !w.config.paused && Touches(w, w', i, k) && w'.insurance == w.insurance
      && w.markets[k].status == Active && size >= w.markets[k].minOrderBase && !w.users[i].beingLiquidated
      && OpensSomehow(w.users[i], w.markets[k], w.config.takerFeeBps, dir == Long, size, limit, price,
                      w'.users[i], w'.markets[k])
    case Close(i, k, size, limit) =>
      && Touches(w, w', i, k) && w'.insurance == w.insurance
      && exists at: nat, c :: Held(w.users[i].positions, w.markets[k].index, at)
           && Closes(w.users[i], w.markets[k], w.config.takerFeeBps, at, Asked(size, w.users[i].positions[at].base),
                     limit,
                     w'.users[i], w'.markets[k], c)
    case Place(i, k, p, now) =>
      && !w.config.paused && TouchesUser(w, w', i) && w'.insurance == w.insurance && k < |w.markets|
      && exists slot: nat :: Places(w.users[i], w.markets[k], p, now, w'.users[i], slot)
    case Cancel(i, id) =>
      && TouchesUser(w, w', i) && w'.insurance == w.insurance
      && exists slot: nat :: Finds(w.users[i].orders, id, slot) && Cancels(w.users[i], slot, w'.users[i])
    case Fill(i, k, id, price) =>
      && !w.config.paused && Touches(w, w', i, k) && w'.insurance == w.insurance
      && exists slot: nat :: Finds(w.users[i].orders, id, slot)
           && Fills(w.config, w.users[i], w.markets[k], slot, price, w'.users[i], w'.markets[k])
    case Match(t, i, k, takerId, makerId, price) =>
      && !w.config.paused && t != i && t < |w.users| && i < |w.users| == |w'.users| && k < |w.markets| == |w'.markets|
      && w' == w.(users := w.users[t := w'.users[t]][i := w'.users[i]], markets := w.markets[k := w'.markets[k]])
      && exists x :: MatchesPeers(w.config, w.users[t], w.users[i], w.markets[k], takerId, makerId, price,
                                  w'.users[t], w'.users[i], w'.markets[k], x)
    case Trigger(i, k, id, price) =>
      && !w.config.paused && Touches(w, w', i, k) && w'.insurance == w.insurance
      && exists slot: nat, at: nat, c :: Finds(w.users[i].orders, id, slot)
           && Triggers(w.config, w.users[i], w.markets[k], slot, price, w'.users[i], w'.markets[k], at, c)
    case CrankFunding(k, price, now) =>
      && k < |w.markets| == |w'.markets| && w' == w.(markets := w.markets[k := w'.markets[k]])
      && exists c :: Cranks(w.markets[k], price, now, w'.markets[k], c)
    case Settle(i, k) =>
      && TouchesUser(w, w', i) && w'.insurance == w.insurance && k < |w.markets|
      && exists at: nat, payment :: Settles(w.users[i], w.markets[k], w'.users[i], at, payment)
    case Liquidate(i, k, maxBase, price) =>
      && Touches(w, w', i, k)
      && exists x :: Liquidates(w.users[i], w.markets[k], w.insurance, maxBase, price,
                                w'.users[i], w'.markets[k], w'.insurance, x)
    case Resolve(i) => TouchesUser(w, w', i) && Resolves(w.users[i], w.insurance, w'.users[i], w'.insurance)
  }

  predicate Cancels(u: User, slot: nat, u': User) {
    && slot < |u.orders| == |u'.orders| && Blank(u'.orders[slot])
    && u' == u.(orders := u.orders[slot := u'.orders[slot]])
  }

  ghost predicate Fills(cfg: Config, u: User, m: Market, slot: nat, price: int, u': User, m': Market) {
    && slot < |u.orders| && u.orders[slot].orderType == Limit && u.orders[slot].marketIndex == m.index
    && if u.orders[slot].reduceOnly then exists at: nat, c :: FillsReducing(cfg, u, m, slot, u', m', at, c)
       else exists o :: FillsOpening(cfg, u, m, slot, price, u', m', o)
  }
}
