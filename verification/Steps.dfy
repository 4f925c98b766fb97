/** Every instruction keeps the world sound and moves the ledgers by what it books. */
module Steps {
  import opened Numbers
  import opened Sequences
  import opened State
  import opened Margin
  import opened Funding
  import opened Controller
  import opened Instructions
  import opened Protocol
  import opened Bookkeeping
  import opened Ledger
  import opened Liquidations

  /** Sizes that survive the cast `u64 as i64` unchanged; a caller can check this. */
  predicate WellSized(ix: Instruction) {
    && (ix.OpenTrade? ==> ix.size <= I64_MAX)
    && (ix.Place? ==> ix.order.amount <= I64_MAX)
  }

  /** A step is accounted for when the world stays sound and every total moves by what
      the ledgers record for it. */
  ghost predicate Accounted(w: World, ix: Instruction, w': World) {
    && WorldOk(w')
    && |w.markets| <= |w'.markets|
    && (forall k: nat :: EntriesIn(w', k) == EntriesIn(w, k) - QuoteAt(k)(w, ix, w') - RealizedAt(k)(w, ix, w'))
    && Wealth(w') == Wealth(w) - AmmQuote()(w, ix, w') - FundingPaid()(w, ix, w')
                     + Deposited()(w, ix, w') - Withdrawn()(w, ix, w')
    && (forall k: nat :: k < |w.markets| ==> CurveMoved(w.markets[k].amm, w'.markets[k].amm))
  }

  // ------------------------------------------------------------ trades on accounts

  /** What open, close, fill and trigger have in common. */
  ghost predicate Traded(u: User, m: Market, u': User, m': Market) {
    && Leg(u, m, u', m', QuoteIn(m.amm, m'.amm), u'.settledPnl - u.settledPnl, m'.amm.totalFee - m.amm.totalFee)
    && OnlyTraded(m, m')
    && Kept(m.amm, m'.amm)
    && UserOk(u')
  }

  ghost predicate Listed(u: User, m: Market) {
    forall at :: 0 <= at < |u.positions| && u.positions[at].marketIndex == m.index ==>
      Abs(u.positions[at].base) <= if u.positions[at].base > 0 then m.oiLong else m.oiShort
  }

  lemma OpenTraded(u: User, m: Market, feeBps: u16, dir: Direction, size: u64, limit: u64, price: u64)
    requires UserOk(u) && MarketOk(m) && size <= I64_MAX
    requires ExecuteAmmOpen(u, m, feeBps, dir, size, limit, price).Ok?
    ensures var r := ExecuteAmmOpen(u, m, feeBps, dir, size, limit, price).value;
      Traded(u, m, r.user, r.market) && r.user.settledPnl == u.settledPnl && r.user.orders == u.orders
  {
    OpenFacts(u, m, feeBps, dir, size, limit, price);
  }

  lemma CloseTraded(u: User, m: Market, feeBps: u16, at: nat, size: u64, limit: u64)
    requires UserOk(u) && MarketOk(m) && Listed(u, m)
    requires FindPosition(u.positions, m.index) == Some(at)
    requires ExecuteAmmClose(u, m, feeBps, at, size, limit).Ok?
    ensures var r := ExecuteAmmClose(u, m, feeBps, at, size, limit).value;
      Traded(u, m, r.user, r.market) && r.user.orders == u.orders
  {
    FoundIsOnly(u.positions, m.index);
    CloseFacts(u, m, feeBps, at, size, limit);
  }

  lemma OpenPositionTraded(cfg: Config, u: User, m: Market, dir: Direction, size: u64, limit: u64, price: u64)
    requires UserOk(u) && MarketOk(m) && size <= I64_MAX
    requires OpenPosition(cfg, u, m, dir, size, limit, price).Ok?
    ensures var r := OpenPosition(cfg, u, m, dir, size, limit, price).value;
      Traded(u, m, r.0, r.1) && r.0.settledPnl == u.settledPnl
  {
    hide ExecuteAmmOpen;
    OpenTraded(u, m, cfg.takerFeeBps, dir, size, limit, price);
  }

  lemma ClosePositionTraded(cfg: Config, u: User, m: Market, size: u64, limit: u64)
    requires UserOk(u) && MarketOk(m) && Listed(u, m)
    requires ClosePosition(cfg, u, m, size, limit).Ok?
    ensures var r := ClosePosition(cfg, u, m, size, limit).value;
      Traded(u, m, r.0, r.1)
  {
    hide ExecuteAmmClose;
    var i := FindPosition(u.positions, m.index).value;
    CloseTraded(u, m, cfg.takerFeeBps, i, CloseSize(size, Abs(u.positions[i].base)), limit);
  }

  lemma FillReduceOnlyTraded(cfg: Config, u: User, m: Market, slot: nat)
    requires UserOk(u) && MarketOk(m) && Listed(u, m) && slot < |u.orders|
    requires FillReduceOnly(cfg, u, m, slot).Ok?
    ensures var r := FillReduceOnly(cfg, u, m, slot).value;
      Traded(u, m, r.0, r.1)
  {
    hide ExecuteAmmClose;
    var order := u.orders[slot];
    var i := FindPosition(u.positions, m.index).value;
    CloseTraded(u, m, cfg.takerFeeBps, i, Min(order.Remaining(), Abs(u.positions[i].base)), order.price);
  }

  lemma FillOpeningTraded(cfg: Config, u: User, m: Market, slot: nat, price: u64)
    requires UserOk(u) && MarketOk(m) && slot < |u.orders|
    requires FillOpening(cfg, u, m, slot, price).Ok?
    ensures var r := FillOpening(cfg, u, m, slot, price).value;
      Traded(u, m, r.0, r.1)
  {
    hide ExecuteAmmOpen;
    var order := u.orders[slot];
    OpenTraded(u, m, cfg.takerFeeBps, order.direction, order.Remaining(), order.price, price);
  }

  lemma FillOrderTraded(cfg: Config, u: User, m: Market, id: u32, price: u64)
    requires UserOk(u) && MarketOk(m) && Listed(u, m)
    requires FillOrder(cfg, u, m, id, price).Ok?
    ensures var r := FillOrder(cfg, u, m, id, price).value;
      Traded(u, m, r.0, r.1)
  {
    var slot := FindOrder(u.orders, id).value;
    var order := u.orders[slot];
    if order.reduceOnly {
      FillReduceOnlyTraded(cfg, u, m, slot);
    } else {
      FillOpeningTraded(cfg, u, m, slot, price);
    }
  }

  lemma TriggerOrderTraded(cfg: Config, u: User, m: Market, id: u32, price: u64)
    requires UserOk(u) && MarketOk(m) && Listed(u, m)
    requires TriggerOrder(cfg, u, m, id, price).Ok?
    ensures var r := TriggerOrder(cfg, u, m, id, price).value;
      Traded(u, m, r.0, r.1)
  {
    hide ExecuteAmmClose;
    var order := u.orders[FindOrder(u.orders, id).value];
    var i := FindPosition(u.positions, m.index).value;
    CloseTraded(u, m, cfg.takerFeeBps, i, Min(order.Remaining(), Abs(u.positions[i].base)),
                if order.orderType == TriggerLimit then order.price else 0);
  }

  // ------------------------------------------------------------ trades in the world

  lemma ListedAll(w: World, i: nat, k: nat)
    requires WorldOk(w) && i < |w.users| && k < |w.markets|
    ensures Listed(w.users[i], w.markets[k])
  {
    var u := w.users[i];
    forall at | 0 <= at < |u.positions| && u.positions[at].marketIndex == k
      ensures Abs(u.positions[at].base)
        <= if u.positions[at].base > 0 then w.markets[k].oiLong else w.markets[k].oiShort
    {
      PositionWithinOpenInterest(w, i, k, at);
    }
  }

  /** The world after a trade, once its leg, its curve and its user are known to be sound. */
  lemma TradeKeepsWorld(w: World, i: nat, k: nat, u: User, m: Market, paid: int, realized: int, charge: int)
    requires WorldOk(w) && i < |w.users| && k < |w.markets|
    requires Leg(w.users[i], w.markets[k], u, m, paid, realized, charge)
    requires OnlyTraded(w.markets[k], m) && Kept(w.markets[k].amm, m.amm) && UserOk(u)
    ensures var w' := WithTrade(w, i, k, (u, m));
      && WorldOk(w')
      && (forall j :: EntriesIn(w', j) == EntriesIn(w, j) - (if j == k then paid + realized else 0))
      && Wealth(w') == Wealth(w) - paid - charge + m.amm.totalFee - w.markets[k].amm.totalFee
  {
    LegTotals(w, i, k, u, m, paid, realized, charge);
    assert MarketOk(m);
  }

  /** What the ledgers record for a trade in market `k` by user `i`. */
  lemma TradeLedgers(w: World, ix: Instruction, i: nat, k: nat, t: (User, Market))
    requires i < |w.users| && k < |w.markets|
    requires ClosesIn(ix) || (ix.OpenTrade? && t.0.settledPnl == w.users[i].settledPnl)
    requires ix.user == i && ix.market == k
    ensures var w' := WithTrade(w, i, k, t);
      var quote := QuoteIn(w.markets[k].amm, t.1.amm);
      var realized := t.0.settledPnl - w.users[i].settledPnl;
      && AmmQuote()(w, ix, w') == quote
      && (forall j: nat :: QuoteAt(j)(w, ix, w') == if j == k then quote else 0)
      && (forall j: nat :: RealizedAt(j)(w, ix, w') == if j == k then realized else 0)
      && Deposited()(w, ix, w') == 0 && Withdrawn()(w, ix, w') == 0
      && (forall j: nat :: j < |w.markets| && j != k ==> CurveMoved(w.markets[j].amm, w'.markets[j].amm))
  {
    assert MarketOf(ix) == Some(k);
    var w' := WithTrade(w, i, k, t);
    OtherMarketsStill(w, ix, w', k);
    var quote := QuoteIn(w.markets[k].amm, t.1.amm);
    assert QuoteAt(k)(w, ix, w') == quote;
    assert AmmQuote()(w, ix, w') == quote;
    assert (forall j: nat :: QuoteAt(j)(w, ix, w') == if j == k then quote else 0);
    assert (forall j: nat :: RealizedAt(j)(w, ix, w') == if j == k then t.0.settledPnl - w.users[i].settledPnl else 0);
    assert Deposited()(w, ix, w') == 0 && Withdrawn()(w, ix, w') == 0;
  }

  lemma TradeAccounted(w: World, ix: Instruction, i: nat, k: nat, t: (User, Market))
    requires WorldOk(w) && i < |w.users| && k < |w.markets|
    requires ClosesIn(ix) || (ix.OpenTrade? && t.0.settledPnl == w.users[i].settledPnl)
    requires !ix.Liquidate? && ix.user == i && ix.market == k
    requires Traded(w.users[i], w.markets[k], t.0, t.1)
    ensures Accounted(w, ix, WithTrade(w, i, k, t))
  {
    var m := w.markets[k];
    TradeLedgers(w, ix, i, k, t);
    TradeKeepsWorld(w, i, k, t.0, t.1, QuoteIn(m.amm, t.1.amm), t.0.settledPnl - w.users[i].settledPnl,
                    t.1.amm.totalFee - m.amm.totalFee);
    assert FundingPaid()(w, ix, WithTrade(w, i, k, t)) == 0;
  }

  /** Markets a step does not write take in no quote. */
  lemma OtherMarketsStill(w: World, ix: Instruction, w': World, k: nat)
    requires |w.markets| <= |w'.markets|
    requires forall j :: 0 <= j < |w.markets| && j != k ==> w'.markets[j] == w.markets[j]
    ensures forall j: nat :: j != k ==> QuoteAt(j)(w, ix, w') == 0
    ensures forall j: nat :: j < |w.markets| && j != k ==> CurveMoved(w.markets[j].amm, w'.markets[j].amm)
  {
    forall j: nat | j != k
      ensures QuoteAt(j)(w, ix, w') == 0
    {
      if j < |w.markets| { SameQuote(w.markets[j].amm, w'.markets[j].amm); }
    }
  }

  lemma SameQuote(a: Amm, a': Amm)
    requires a'.quote == a.quote
    ensures QuoteIn(a, a') == 0
  {
    assert (a'.quote - a.quote) * a.peg == 0;
  }

  // ------------------------------------------------------------ steps without a trade

  /** No ledger but cash moves. */
  lemma QuietLedgers(w: World, ix: Instruction, w': World)
    requires |w.markets| <= |w'.markets| && !ClosesIn(ix) && !ix.Settle?
    requires forall j :: 0 <= j < |w.markets| ==>
      w'.markets[j].amm.base == w.markets[j].amm.base && w'.markets[j].amm.quote == w.markets[j].amm.quote
    ensures AmmQuote()(w, ix, w') == 0 && FundingPaid()(w, ix, w') == 0
    ensures forall j: nat :: QuoteAt(j)(w, ix, w') == 0 && RealizedAt(j)(w, ix, w') == 0
  {
    forall j: nat
      ensures QuoteAt(j)(w, ix, w') == 0
    {
      if j < |w.markets| { SameQuote(w.markets[j].amm, w'.markets[j].amm); }
    }
    if MarketOf(ix).Some? { assert QuoteAt(MarketOf(ix).value)(w, ix, w') == 0; }
  }

  lemma UserAccounted(w: World, ix: Instruction, i: nat, u: User)
    requires WorldOk(w) && i < |w.users| && UserOk(u) && SameExposure(w.users[i].positions, u.positions)
    requires !ClosesIn(ix) && !ix.Settle?
    requires UserCash()(u) - UserCash()(w.users[i])
      == Deposited()(w, ix, WithUser(w, i, u)) - Withdrawn()(w, ix, WithUser(w, i, u))
    ensures Accounted(w, ix, WithUser(w, i, u))
  {
    UserTotals(w, i, u);
    QuietLedgers(w, ix, WithUser(w, i, u));
  }

  lemma MarketAccounted(w: World, ix: Instruction, k: nat, m: Market)
    requires WorldOk(w) && k < |w.markets| && MarketOk(m) && m.index == k
    requires ix.SetParams? || ix.CrankFunding?
    requires m.amm.long == w.markets[k].amm.long && m.amm.short == w.markets[k].amm.short
    requires m.amm.totalFee == w.markets[k].amm.totalFee
    requires m.amm.base == w.markets[k].amm.base && m.amm.quote == w.markets[k].amm.quote
    requires m.amm.sqrtK == w.markets[k].amm.sqrtK && m.amm.peg == w.markets[k].amm.peg
    ensures Accounted(w, ix, w.(markets := w.markets[k := m]))
  {
    MarketTotals(w, k, m);
    QuietLedgers(w, ix, w.(markets := w.markets[k := m]));
  }

  lemma InitMarketAccounted(w: World, ix: Instruction, w': World)
    requires WorldOk(w) && ix.InitMarket? && Loadable(w, ix) && Execute(w, ix) == Ok(w')
    ensures Accounted(w, ix, w')
  {
    NewMarketTotals(w, w'.markets[|w.markets|]);
    QuietLedgers(w, ix, w');
  }

  lemma InitUserAccounted(w: World, ix: Instruction, w': World)
    requires WorldOk(w) && ix.InitUser? && Loadable(w, ix) && Execute(w, ix) == Ok(w')
    ensures Accounted(w, ix, w')
  {
    NewUserTotals(w);
    QuietLedgers(w, ix, w');
  }

  lemma SetPausedAccounted(w: World, ix: Instruction, w': World)
    requires WorldOk(w) && ix.SetPaused? && Loadable(w, ix) && Execute(w, ix) == Ok(w')
    ensures Accounted(w, ix, w')
  {
    forall j
      ensures TotalLong(w', j) == MarketLong(w', j) && TotalShort(w', j) == MarketShort(w', j)
      ensures EntriesIn(w', j) == EntriesIn(w, j)
    {
      assert TotalLong(w, j) == MarketLong(w, j) && TotalShort(w, j) == MarketShort(w, j);
    }
    QuietLedgers(w, ix, w');
  }

  lemma FundingRateKeeps(m: Market, price: u64, now: i64)
    requires UpdateFundingRate(m, price, now).Ok?
    ensures var m' := UpdateFundingRate(m, price, now).value;
      && m'.amm == m.amm.(cumFundingLong := m'.amm.cumFundingLong, cumFundingShort := m'.amm.cumFundingShort,
                          lastFundingRate := m'.amm.lastFundingRate, lastFundingTs := m'.amm.lastFundingTs,
                          markTwap := m'.amm.markTwap, oracleTwap := m'.amm.oracleTwap, lastTwapTs := m'.amm.lastTwapTs)
      && m' == m.(amm := m'.amm, nextFundingTs := m'.nextFundingTs)
      && (m.amm.cumFundingLong == m.amm.cumFundingShort ==> m'.amm.cumFundingLong == m'.amm.cumFundingShort)
  {
  }

  lemma ResolveAccounted(w: World, ix: Instruction, w': World)
    requires WorldOk(w) && ix.Resolve? && Loadable(w, ix) && Execute(w, ix) == Ok(w')
    ensures Accounted(w, ix, w')
  {
    var r := ResolveBankruptcy(w.users[ix.user], w.insurance).value;
    var w1 := WithUser(w, ix.user, r.0);
    UserTotals(w, ix.user, r.0);
    forall j
      ensures TotalLong(w', j) == MarketLong(w', j) && TotalShort(w', j) == MarketShort(w', j)
      ensures EntriesIn(w', j) == EntriesIn(w, j)
    {
      assert TotalLong(w1, j) == MarketLong(w1, j) && TotalShort(w1, j) == MarketShort(w1, j);
      assert EntriesIn(w1, j) == EntriesIn(w, j);
    }
    hide TotalLong, TotalShort, MarketLong, MarketShort, EntriesIn, SlotsOk;
    QuietLedgers(w, ix, w');
  }

  // ------------------------------------------------------------ funding, liquidation, matches

  lemma SettleShape(u: User, m: Market) returns (at: nat, payment: i128, paid: User)
    requires UserOk(u) && SettleFunding(u, m).Ok?
    ensures FindPosition(u.positions, m.index) == Some(at) && payment == PaymentDue(u, m)
    ensures UserOk(paid) && SameExposure(u.positions, paid.positions) && UserCash()(paid) == UserCash()(u) - payment
    ensures I64_MIN <= u.settledPnl - payment <= I64_MAX
    ensures SettleFunding(u, m) == Ok(paid.(settledPnl := u.settledPnl - payment))
    ensures PayFunding(u, at, payment, m.amm.cumFundingLong) == Ok(paid)
  {
    at := FindPosition(u.positions, m.index).value;
    var p := u.positions[at];
    FundingPaymentExact(p.base, m.amm.cumFundingLong, p.lastCumFunding);
    payment := FundingPayment(p.base, m.amm.cumFundingLong, p.lastCumFunding).value;
    PayFundingFacts(u, at, payment, m.amm.cumFundingLong);
    paid := PayFunding(u, at, payment, m.amm.cumFundingLong).value;
  }

  lemma SettleAccounted(w: World, ix: Instruction, w': World)
    requires WorldOk(w) && ix.Settle? && Loadable(w, ix) && Execute(w, ix) == Ok(w')
    ensures Accounted(w, ix, w')
  {
    hide SettleFunding, PayFunding;
    var at, payment, paid := SettleShape(w.users[ix.user], w.markets[ix.market]);
    UserTotals(w, ix.user, w'.users[ix.user]);
    assert FundingPaid()(w, ix, w') == payment;
    OtherMarketsStill(w, ix, w', ix.market);
    SameQuote(w.markets[ix.market].amm, w'.markets[ix.market].amm);
  }

  /** A liquidation is a funding settlement followed by a close. */
  lemma LiquidatePerpShape(u: User, m: Market, insurance: u64, maxBase: u64, price: u64)
    returns (at: nat, payment: i128, paid: User)
    requires UserOk(u) && LiquidatePerp(u, m, insurance, maxBase, price).Ok?
    ensures FindPosition(u.positions, m.index) == Some(at)
    ensures payment == PaymentDue(u, m)
    ensures PayFunding(u, at, payment, m.amm.cumFundingLong) == Ok(paid)
    ensures UserOk(paid) && SameExposure(u.positions, paid.positions) && UserCash()(paid) == UserCash()(u) - payment
    ensures paid.settledPnl == u.settledPnl && OnlySlot(paid.positions, at, m.index)
    ensures RequireLiquidatable(paid, at, m, price).Ok?
    ensures LiquidateClose(paid, m, insurance, at, CloseSize(maxBase, Abs(paid.positions[at].base)), price)
      == LiquidatePerp(u, m, insurance, maxBase, price)
  {
    at := FindPosition(u.positions, m.index).value;
    var p := u.positions[at];
    FundingPaymentExact(p.base, m.amm.cumFundingLong, p.lastCumFunding);
    payment := FundingPayment(p.base, m.amm.cumFundingLong, p.lastCumFunding).value;
    PayFundingFacts(u, at, payment, m.amm.cumFundingLong);
    PaidSlotFound(u, m.index, m.amm.cumFundingLong);
    paid := PayFunding(u, at, payment, m.amm.cumFundingLong).value;
  }

  lemma LiquidateAccounted(w: World, ix: Instruction, w': World)
    requires WorldOk(w) && ix.Liquidate? && Loadable(w, ix) && Execute(w, ix) == Ok(w')
    ensures Accounted(w, ix, w')
  {
    var i, k := ix.user, ix.market;
    var u, m := w.users[i], w.markets[k];
    var l := LiquidatePerp(u, m, w.insurance, ix.maxBase, ix.price).value;
    var at, payment, paid := LiquidatePerpShape(u, m, w.insurance, ix.maxBase, ix.price);
    UserTotals(w, i, paid);
    LiquidateAfterFunding(w, ix, WithUser(w, i, paid), at, payment, l);
  }

  lemma LiquidateAfterFunding(w: World, ix: Instruction, w1: World, at: nat, payment: int, l: Liquidation)
    requires ix.Liquidate? && Loadable(w, ix) && WorldOk(w1) && |w1.users| == |w.users|
    requires w1 == WithUser(w, ix.user, w1.users[ix.user])
    requires w1.users[ix.user].settledPnl == w.users[ix.user].settledPnl
    requires OnlySlot(w1.users[ix.user].positions, at, ix.market)
    requires var p := w1.users[ix.user].positions[at];
      && p.IsOpen() && p.marketIndex == ix.market
      && LiquidateClose(w1.users[ix.user], w.markets[ix.market], w.insurance, at, CloseSize(ix.maxBase, Abs(p.base)),
                        ix.price) == Ok(l)
    requires forall j: nat :: EntriesIn(w1, j) == EntriesIn(w, j)
    requires Wealth(w1) == Wealth(w) - payment && PaymentDue(w.users[ix.user], w.markets[ix.market]) == payment
    ensures Accounted(w, ix, WithInsurance(WithTrade(w, ix.user, ix.market, (l.user, l.market)), l.insurance))
  {
    hide LiquidateClose;
    var i, k := ix.user, ix.market;
    var u1, m := w1.users[i], w.markets[k];
    var size := CloseSize(ix.maxBase, Abs(u1.positions[at].base));
    PositionWithinOpenInterest(w1, i, k, at);
    LiquidateFacts(u1, m, w.insurance, at, size, ix.price);
    TradeKeepsWorld(w1, i, k, l.user, l.market, QuoteIn(m.amm, l.market.amm), l.user.settledPnl - u1.settledPnl,
                    l.insurance - w.insurance);
    var traded := WithTrade(w1, i, k, (l.user, l.market));
    assert traded == WithTrade(w, i, k, (l.user, l.market));
    TradeLedgers(w, ix, i, k, (l.user, l.market));
    InsuredAccounted(w, ix, traded, l.insurance, payment);
  }

  lemma InsuredAccounted(w: World, ix: Instruction, traded: World, insurance: u64, payment: int)
    requires ix.Liquidate? && Loadable(w, ix) && WorldOk(traded) && |w.markets| == |traded.markets|
    requires PaymentDue(w.users[ix.user], w.markets[ix.market]) == payment
    requires traded.insurance == w.insurance
    requires forall j: nat ::
      EntriesIn(traded, j) == EntriesIn(w, j) - QuoteAt(j)(w, ix, traded) - RealizedAt(j)(w, ix, traded)
    requires Wealth(traded) + insurance - w.insurance == Wealth(w) - AmmQuote()(w, ix, traded) - payment
    requires forall j: nat :: j < |w.markets| ==> CurveMoved(w.markets[j].amm, traded.markets[j].amm)
    ensures Accounted(w, ix, WithInsurance(traded, insurance))
  {
    var w' := WithInsurance(traded, insurance);
    forall j
      ensures TotalLong(w', j) == MarketLong(w', j) && TotalShort(w', j) == MarketShort(w', j)
    {
      assert TotalLong(traded, j) == MarketLong(traded, j) && TotalShort(traded, j) == MarketShort(traded, j);
    }
    forall j: nat
      ensures EntriesIn(w', j) == EntriesIn(w, j) - QuoteAt(j)(w, ix, w') - RealizedAt(j)(w, ix, w')
    {
      assert EntriesIn(traded, j) == EntriesIn(w, j) - QuoteAt(j)(w, ix, traded) - RealizedAt(j)(w, ix, traded);
    }
    assert FundingPaid()(w, ix, w') == payment;
    assert AmmQuote()(w, ix, w') == AmmQuote()(w, ix, traded);
    assert Wealth(w') == Wealth(traded) + insurance - w.insurance;
  }

  lemma PriceMatchExact(size: u64, fillPrice: u64, feeBps: u16, rebateBps: u16)
    requires PriceMatch(size, fillPrice, feeBps, rebateBps).Ok?
    ensures var priced := PriceMatch(size, fillPrice, feeBps, rebateBps).value;
      && priced.quote == size * fillPrice / BASE_PRECISION && priced.quote <= I128_MAX
      && AsI128(priced.fee) == priced.fee && AsI128(priced.rebate) == priced.rebate
  {
    var quote := size * fillPrice / BASE_PRECISION;
    FloorMono(size * fillPrice, U128_MAX, BASE_PRECISION);
    assert U128_MAX / BASE_PRECISION <= I128_MAX;
    FeeExact(quote, feeBps);
    FeeExact(quote, rebateBps);
  }

  /** A peer match, as two legs and a net fee. */
  lemma MatchShape(taker: User, maker: User, m: Market, feeBps: u16, rebateBps: u16, dir: Direction, size: u64,
                   fillPrice: u64, price: u64)
    returns (priced: MatchPrice, first: (User, Market), second: (User, Market))
    requires ExecuteMakerMatch(taker, maker, m, feeBps, rebateBps, dir, size, fillPrice, price).Ok?
    ensures size > 0 && PriceMatch(size, fillPrice, feeBps, rebateBps) == Ok(priced)
    ensures priced.quote == size * fillPrice / BASE_PRECISION && priced.quote <= I128_MAX
    ensures priced.fee <= I64_MAX && priced.rebate <= I64_MAX
    ensures ApplyMatchLeg(taker, m, dir, size, priced.quote, 0 - priced.fee, price) == Ok(first)
    ensures ApplyMatchLeg(maker, first.1, Opposite(dir), size, priced.quote, priced.rebate, price) == Ok(second)
    ensures var r := ExecuteMakerMatch(taker, maker, m, feeBps, rebateBps, dir, size, fillPrice, price).value;
      && r.taker == first.0 && r.maker == second.0 && CheckOpenInterestCap(second.1).Ok?
      && CollectNetFee(second.1, priced.fee, priced.rebate) == Ok(r.market)
  {
    hide ApplyMatchLeg, CollectNetFee, CheckOpenInterestCap, TradeRecord, PriceMatch, FeeAmount;
    priced := PriceMatch(size, fillPrice, feeBps, rebateBps).value;
    PriceMatchExact(size, fillPrice, feeBps, rebateBps);
    first := ApplyMatchLeg(taker, m, dir, size, priced.quote, Debit(priced.fee).value, price).value;
    second := ApplyMatchLeg(maker, first.1, Opposite(dir), size, priced.quote, Credit(priced.rebate).value,
                            price).value;
  }

  lemma CollectNetFeeExact(m: Market, fee: u128, rebate: u128)
    requires CollectNetFee(m, fee, rebate).Ok? && AsI128(fee) == fee && AsI128(rebate) == rebate
    ensures var m' := CollectNetFee(m, fee, rebate).value;
      m' == m.(amm := m.amm.(totalFee := m'.amm.totalFee)) && m'.amm.totalFee == m.amm.totalFee + fee - rebate
  {
  }

  /** What a peer match on accounts amounts to. */
  ghost predicate Matched(taker: User, maker: User, m: Market, taker': User, m1: Market, maker': User, m': Market,
                          quote: int, fee: int, rebate: int)
  {
    && Leg(taker, m, taker', m1, quote, 0, fee) && UserOk(taker')
    && Leg(maker, m1, maker', m', 0 - quote, 0, 0 - rebate) && UserOk(maker')
    && m1.amm.totalFee == m.amm.totalFee && m'.amm.totalFee == m1.amm.totalFee + fee - rebate
    && m1.index == m.index && OnlyTraded(m, m')
    && m'.amm.base == m.amm.base && m'.amm.quote == m.amm.quote
    && m'.amm.long + m'.amm.short == m.amm.long + m.amm.short
  }

  lemma MatchedReserves(taker: User, maker: User, m: Market, taker': User, m1: Market, maker': User, m': Market,
                        quote: int, fee: int, rebate: int)
    requires Matched(taker, maker, m, taker', m1, maker', m', quote, fee, rebate)
    ensures m'.amm.base == m.amm.base && m'.amm.quote == m.amm.quote && CurveMoved(m.amm, m'.amm)
  {
  }

  lemma MatchMatched(cfg: Config, taker: User, maker: User, m: Market, takerId: u32, makerId: u32, price: u64)
    returns (m1: Market, quote: int, fee: int, rebate: int)
    requires UserOk(taker) && UserOk(maker)
    requires FillMatch(cfg, taker, maker, false, m, takerId, makerId, price).Ok?
    ensures var f := FillMatch(cfg, taker, maker, false, m, takerId, makerId, price).value;
      Matched(taker, maker, m, f.taker, m1, f.maker, f.market, quote, fee, rebate)
  {
    hide ExecuteMakerMatch, CheckMatch;
    var pair := CheckMatch(cfg, taker, maker, false, m, takerId, makerId).value;
    var bid := taker.orders[pair.takerSlot];
    var ask := maker.orders[pair.makerSlot];
    var fill := ExecuteMakerMatch(taker, maker, m, cfg.takerFeeBps, cfg.makerRebateBps, bid.direction, pair.size,
                                  ask.price, price).value;
    CheckMatchSize(cfg, taker, maker, false, m, takerId, makerId);
    m1, quote, fee, rebate := LegsMatched(taker, maker, m, cfg.takerFeeBps, cfg.makerRebateBps, bid.direction,
                                          pair.size, ask.price, price);
    var f := FillMatch(cfg, taker, maker, false, m, takerId, makerId, price).value;
    MatchedOrders(taker, maker, m, fill.taker, m1, fill.maker, fill.market, quote, fee, rebate, f.taker.orders,
                  f.maker.orders);
  }

  lemma CheckMatchSize(cfg: Config, taker: User, maker: User, same: bool, m: Market, takerId: u32, makerId: u32)
    requires CheckMatch(cfg, taker, maker, same, m, takerId, makerId).Ok?
    ensures var pair := CheckMatch(cfg, taker, maker, same, m, takerId, makerId).value;
      0 < pair.size == Min(taker.orders[pair.takerSlot].Remaining(), maker.orders[pair.makerSlot].Remaining())
  {
  }

  /** A match does not depend on the orders it leaves behind. */
  lemma MatchedOrders(taker: User, maker: User, m: Market, taker': User, m1: Market, maker': User, m': Market,
                      quote: int, fee: int, rebate: int, os: seq<Order>, qs: seq<Order>)
    requires Matched(taker, maker, m, taker', m1, maker', m', quote, fee, rebate)
    requires UserOk(taker'.(orders := os)) && UserOk(maker'.(orders := qs))
    ensures Matched(taker, maker, m, taker'.(orders := os), m1, maker'.(orders := qs), m', quote, fee, rebate)
  {
  }

  lemma LegsMatched(taker: User, maker: User, m: Market, feeBps: u16, rebateBps: u16, dir: Direction, size: u64,
                    fillPrice: u64, price: u64)
    returns (m1: Market, quote: int, fee: int, rebate: int)
    requires UserOk(taker) && UserOk(maker) && size <= I64_MAX
    requires ExecuteMakerMatch(taker, maker, m, feeBps, rebateBps, dir, size, fillPrice, price).Ok?
    ensures var f := ExecuteMakerMatch(taker, maker, m, feeBps, rebateBps, dir, size, fillPrice, price).value;
      && Matched(taker, maker, m, f.taker, m1, f.maker, f.market, quote, fee, rebate)
      && f.taker.orders == taker.orders && f.maker.orders == maker.orders
  {
    hide ExecuteMakerMatch, ApplyMatchLeg, CollectNetFee, PriceMatch;
    var priced, first, second := MatchShape(taker, maker, m, feeBps, rebateBps, dir, size, fillPrice, price);
    PriceMatchExact(size, fillPrice, feeBps, rebateBps);
    MatchLegFacts(taker, m, dir, size, priced.quote, 0 - priced.fee, price);
    MatchLegFacts(maker, first.1, Opposite(dir), size, priced.quote, priced.rebate, price);
    CollectNetFeeExact(second.1, priced.fee, priced.rebate);
    quote := if dir == Long then priced.quote else 0 - priced.quote;
    m1, fee, rebate := first.1, priced.fee, priced.rebate;
  }

  /** Both legs of a match keep the books; the quote that changes hands cancels. */
  lemma MatchKeepsBooks(w: World, t: nat, i: nat, k: nat, taker: User, m1: Market, maker: User, m2: Market,
                        quote: int, fee: int, rebate: int)
    requires WorldOk(w) && t < |w.users| && i < |w.users| && t != i && k < |w.markets|
    requires Matched(w.users[t], w.users[i], w.markets[k], taker, m1, maker, m2, quote, fee, rebate)
    ensures var w' := WithTrade(WithUser(w, t, taker), i, k, (maker, m2));
      && WorldOk(w')
      && (forall j :: EntriesIn(w', j) == EntriesIn(w, j))
      && Wealth(w') == Wealth(w)
  {
    assert MarketOk(m2);
    LegTotals(w, t, k, taker, m1, quote, 0, fee);
    var w1 := WithTrade(w, t, k, (taker, m1));
    assert BooksOk(w1);
    hide MarketOk, Leg;
    LegTotals(w1, i, k, maker, m2, 0 - quote, 0, 0 - rebate);
    var w2 := WithTrade(w1, i, k, (maker, m2));
    assert w2 == WithTrade(WithUser(w, t, taker), i, k, (maker, m2));
    forall j
      ensures EntriesIn(w2, j) == EntriesIn(w, j)
    {
      assert EntriesIn(w1, j) == EntriesIn(w, j) - (if j == k then quote else 0);
    }
  }

  lemma MatchBooked(w: World, ix: Instruction, taker: User, m1: Market, maker: User, m2: Market, quote: int, fee: int,
                    rebate: int)
    requires WorldOk(w) && ix.Match? && Loadable(w, ix) && ix.taker != ix.maker
    requires Matched(w.users[ix.taker], w.users[ix.maker], w.markets[ix.market], taker, m1, maker, m2, quote, fee,
                     rebate)
    ensures Accounted(w, ix, WithTrade(WithUser(w, ix.taker, taker), ix.maker, ix.market, (maker, m2)))
  {
    var t, i, k := ix.taker, ix.maker, ix.market;
    MatchKeepsBooks(w, t, i, k, taker, m1, maker, m2, quote, fee, rebate);
    MatchedReserves(w.users[t], w.users[i], w.markets[k], taker, m1, maker, m2, quote, fee, rebate);
    hide Matched, WorldOk, Leg;
    QuietLedgers(w, ix, WithTrade(WithUser(w, t, taker), i, k, (maker, m2)));
  }

  lemma MatchAccounted(w: World, ix: Instruction, w': World)
    requires WorldOk(w) && ix.Match? && Loadable(w, ix) && Execute(w, ix) == Ok(w')
    ensures Accounted(w, ix, w')
  {
    var t, i, k := ix.taker, ix.maker, ix.market;
    var f := FillMatch(w.config, w.users[t], w.users[i], t == i, w.markets[k], ix.takerId, ix.makerId, ix.price).value;
    assert t != i;
    hide FillMatch, Accounted, Matched, Leg;
    var m1, quote, fee, rebate := MatchMatched(w.config, w.users[t], w.users[i], w.markets[k], ix.takerId, ix.makerId,
                                               ix.price);
    MatchBooked(w, ix, f.taker, m1, f.maker, f.market, quote, fee, rebate);
  }

  // ------------------------------------------------------------ any step

  lemma DepositAccounted(w: World, ix: Instruction, w': World)
    requires WorldOk(w) && ix.Deposit? && Loadable(w, ix) && Execute(w, ix) == Ok(w')
    ensures Accounted(w, ix, w')
  {
    assert UserOk(w.users[ix.user]);
    hide WorldOk, Accounted, RequireInitial, FindPosition;
    var u := DepositCollateral(w.config, w.users[ix.user], ix.amount).value;
    UserAccounted(w, ix, ix.user, u);
  }

  lemma WithdrawAccounted(w: World, ix: Instruction, w': World)
    requires WorldOk(w) && ix.Withdraw? && Loadable(w, ix) && Execute(w, ix) == Ok(w')
    ensures Accounted(w, ix, w')
  {
    assert UserOk(w.users[ix.user]);
    hide WorldOk, Accounted, RequireInitial, FindPosition;
    var u := WithdrawCollateral(w.config, w.users[ix.user], w.markets[ix.market], ix.amount, ix.price).value;
    UserAccounted(w, ix, ix.user, u);
  }

  lemma PlaceAccounted(w: World, ix: Instruction, w': World)
    requires WorldOk(w) && ix.Place? && WellSized(ix) && Loadable(w, ix) && Execute(w, ix) == Ok(w')
    ensures Accounted(w, ix, w')
  {
    assert UserOk(w.users[ix.user]);
    hide WorldOk, Accounted, RequireInitial, FindPosition;
    var u := PlaceOrder(w.config, w.users[ix.user], w.markets[ix.market], ix.order, ix.now).value;
    UserAccounted(w, ix, ix.user, u);
  }

  lemma CancelAccounted(w: World, ix: Instruction, w': World)
    requires WorldOk(w) && ix.Cancel? && Loadable(w, ix) && Execute(w, ix) == Ok(w')
    ensures Accounted(w, ix, w')
  {
    assert UserOk(w.users[ix.user]);
    hide WorldOk, Accounted, RequireInitial, FindPosition;
    var u := CancelOrder(w.users[ix.user], ix.id).value;
    UserAccounted(w, ix, ix.user, u);
  }

  /** Instructions that trade with the AMM. */
  lemma AmmTradeAccounted(w: World, ix: Instruction, w': World)
    requires WorldOk(w) && WellSized(ix) && Loadable(w, ix) && Execute(w, ix) == Ok(w')
    requires ix.OpenTrade? || ix.Close? || ix.Fill? || ix.Trigger?
    ensures Accounted(w, ix, w')
  {
    hide OpenPosition, ClosePosition, FillOrder, TriggerOrder, Traded;
    var i, k := ix.user, ix.market;
    var u, m := w.users[i], w.markets[k];
    ListedAll(w, i, k);
    if ix.OpenTrade? {
      OpenPositionTraded(w.config, u, m, ix.direction, ix.size, ix.limit, ix.price);
      TradeAccounted(w, ix, i, k, OpenPosition(w.config, u, m, ix.direction, ix.size, ix.limit, ix.price).value);
    } else if ix.Close? {
      ClosePositionTraded(w.config, u, m, ix.size, ix.limit);
      TradeAccounted(w, ix, i, k, ClosePosition(w.config, u, m, ix.size, ix.limit).value);
    } else if ix.Fill? {
      FillOrderTraded(w.config, u, m, ix.id, ix.price);
      TradeAccounted(w, ix, i, k, FillOrder(w.config, u, m, ix.id, ix.price).value);
    } else {
      TriggerOrderTraded(w.config, u, m, ix.id, ix.price);
      TradeAccounted(w, ix, i, k, TriggerOrder(w.config, u, m, ix.id, ix.price).value);
    }
  }

  /** Instructions that change a market without trading. */
  lemma MarketStepAccounted(w: World, ix: Instruction, w': World)
    requires WorldOk(w) && Loadable(w, ix) && Execute(w, ix) == Ok(w')
    requires ix.SetParams? || ix.CrankFunding?
    ensures Accounted(w, ix, w')
  {
    if ix.SetParams? {
      MarketAccounted(w, ix, ix.market, UpdateMarketParams(w.markets[ix.market], ix.args).value);
    } else {
      FundingRateKeeps(w.markets[ix.market], ix.price, ix.now);
      MarketAccounted(w, ix, ix.market, UpdateFundingRate(w.markets[ix.market], ix.price, ix.now).value);
    }
  }

  /** Every instruction that succeeds is accounted for. */
  lemma StepAccounted(w: World, ix: Instruction, w': World)
    requires WorldOk(w) && WellSized(ix) && Step(w, ix) == Ok(w')
    ensures Accounted(w, ix, w')
  {
    match ix
    case InitUser => InitUserAccounted(w, ix, w');
    case InitMarket(_, _) => InitMarketAccounted(w, ix, w');
    case SetParams(_, _) | CrankFunding(_, _, _) => MarketStepAccounted(w, ix, w');
    case SetPaused(_) => SetPausedAccounted(w, ix, w');
    case Deposit(_, _) => DepositAccounted(w, ix, w');
    case Withdraw(_, _, _, _) => WithdrawAccounted(w, ix, w');
    case Place(_, _, _, _) => PlaceAccounted(w, ix, w');
    case Cancel(_, _) => CancelAccounted(w, ix, w');
    case OpenTrade(_, _, _, _, _, _) | Close(_, _, _, _) | Fill(_, _, _, _) | Trigger(_, _, _, _) =>
      AmmTradeAccounted(w, ix, w');
    case Match(_, _, _, _, _, _) => MatchAccounted(w, ix, w');
    case Settle(_, _) => SettleAccounted(w, ix, w');
    case Liquidate(_, _, _, _) => LiquidateAccounted(w, ix, w');
    case Resolve(_) => ResolveAccounted(w, ix, w');
  }
}
