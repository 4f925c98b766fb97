/** The cast `base_amount as i64` wraps from 2^63 on.  An open trade, a fill or a match that
    large is accepted when the accounts can carry it, and it breaks the books; below 2^63 none
    does. */
module Oversized {
  import opened Numbers
  import opened Sequences
  import opened State
  import opened Curve
  import opened Margin
  import opened Controller
  import opened Instructions
  import opened Protocol
  import opened Bookkeeping
  import opened Ledger
  import opened Steps
  import opened Runs
  import opened Scenario

  /** The stored change of base has the wrong sign exactly for sizes of 2^63 and more. */
  lemma SignedBaseFaithful(size: u64, isLong: bool)
    requires size > 0 && SignedBase(size, isLong).Ok?
    ensures SignedBase(size, isLong).value == (if isLong then size else 0 - size) <==> size <= I64_MAX
    ensures size > I64_MAX ==> (isLong <==> SignedBase(size, isLong).value < 0)
  {
  }

  // ------------------------------------------------------------ an oversized leg

  /** A long stored as a negative change lowers the long side; a short stored as a positive
      one raises it by less than the size. */
  lemma {:induction false} OversizedSlot(ps: seq<PerpPosition>, k: u16, isLong: bool, size: u64, quote: i64, cum: i128)
    requires SlotsOk(ps) && size > I64_MAX && SignedBase(size, isLong).Ok?
    requires AddToPosition(ps, k, isLong, SignedBase(size, isLong).value, quote, cum).Ok?
    ensures var after := AddToPosition(ps, k, isLong, SignedBase(size, isLong).value, quote, cum).value.0;
      if isLong then Sum(after, LongIn(k)) <= Sum(ps, LongIn(k))
      else Sum(after, ShortIn(k)) >= Sum(ps, ShortIn(k)) && Sum(after, LongIn(k)) < Sum(ps, LongIn(k)) + size
  {
    var (after, p) := AddToPosition(ps, k, isLong, SignedBase(size, isLong).value, quote, cum).value;
    var at := TargetPosition(ps, k, isLong).value.1;
    TargetIsOnly(ps, k, isLong, p);
    SumUpdate(ps, at, p, LongIn(k));
    SumUpdate(ps, at, p, ShortIn(k));
  }

  /** An oversized open moves the user's exposure against the market's total. */
  lemma OversizedExposure(u: User, m: Market, feeBps: u16, dir: Direction, size: u64, limit: u64, price: u64)
    requires SlotsOk(u.positions) && size > I64_MAX && ExecuteAmmOpen(u, m, feeBps, dir, size, limit, price).Ok?
    ensures var r := ExecuteAmmOpen(u, m, feeBps, dir, size, limit, price).value;
      if dir == Long then UserLong(m.index)(r.user) <= UserLong(m.index)(u) && r.market.amm.long == m.amm.long + size
      else UserShort(m.index)(r.user) >= UserShort(m.index)(u) && r.market.amm.short == m.amm.short - size
  {
    hide ExecuteAmmOpen, PriceTrade, AddToPosition;
    var isLong := dir == Long;
    var priced, added := OpenShape(u, m, feeBps, dir, size, limit, price);
    OversizedSlot(u.positions, m.index, isLong, size, AsI128(priced.swap.quote), m.amm.cumFundingLong);
    OpenMarketTotals(m, priced, isLong, size);
    hide OpenMarket;
  }

  lemma OpenMarketTotals(m: Market, priced: Priced, isLong: bool, size: u64)
    requires OpenMarket(m, priced, isLong, size).Ok?
    ensures var m' := OpenMarket(m, priced, isLong, size).value;
      if isLong then m'.amm.long == m.amm.long + size else m'.amm.short == m.amm.short - size
  {
  }

  lemma OversizedBreaks(w: World, i: nat, k: nat, feeBps: u16, dir: Direction, size: u64, limit: u64, price: u64,
                        t: (User, Market))
    requires TotalsOk(w) && i < |w.users| && k < |w.markets| && w.markets[k].index == k
    requires SlotsOk(w.users[i].positions) && size > I64_MAX
    requires ExecuteAmmOpen(w.users[i], w.markets[k], feeBps, dir, size, limit, price).Ok?
    requires var r := ExecuteAmmOpen(w.users[i], w.markets[k], feeBps, dir, size, limit, price).value;
      t.0.positions == r.user.positions && t.1 == r.market
    ensures !TotalsOk(WithTrade(w, i, k, t))
  {
    var w' := WithTrade(w, i, k, t);
    OversizedExposure(w.users[i], w.markets[k], feeBps, dir, size, limit, price);
    hide ExecuteAmmOpen;
    SumUpdate(w.users, i, t.0, UserLong(k));
    SumUpdate(w.users, i, t.0, UserShort(k));
    assert TotalLong(w, k) == MarketLong(w, k) && TotalShort(w, k) == MarketShort(w, k);
    assert TotalLong(w', k) != MarketLong(w', k) || TotalShort(w', k) != MarketShort(w', k);
  }

  /** One leg of an oversized match: what it does to the long side. */
  lemma OversizedLeg(u: User, m: Market, dir: Direction, size: u64, quote: u128, delta: i64, price: u64)
    requires SlotsOk(u.positions) && size > I64_MAX && quote <= I128_MAX
    requires ApplyMatchLeg(u, m, dir, size, quote, delta, price).Ok?
    ensures var (u', m') := ApplyMatchLeg(u, m, dir, size, quote, delta, price).value;
      && m'.amm.long == m.amm.long + (if dir == Long then size else 0)
      && m'.index == m.index && m'.amm.cumFundingLong == m.amm.cumFundingLong
      && (if dir == Long then UserLong(m.index)(u') <= UserLong(m.index)(u)
          else UserLong(m.index)(u') < UserLong(m.index)(u) + size)
  {
    var _ := MatchLegShape(u, m, dir, size, quote, delta, price);
    OversizedSlot(u.positions, m.index, dir == Long, size, quote, m.amm.cumFundingLong);
    hide AddToPosition, RequireInitial, SlotsOk;
  }

  // ------------------------------------------------------------ which trades are sound

  /** The books and the curves hold, whatever the sizes of resting orders. */
  ghost predicate TradesOk(w: World) {
    && (forall i :: 0 <= i < |w.users| ==> SlotsOk(w.users[i].positions))
    && (forall k :: 0 <= k < |w.markets| ==> w.markets[k].index == k && MarketOk(w.markets[k]))
    && TotalsOk(w)
  }

  lemma TradeKeepsTrades(w: World, i: nat, k: nat, t: (User, Market), paid: int, realized: int, charge: int)
    requires TradesOk(w) && i < |w.users| && k < |w.markets|
    requires Leg(w.users[i], w.markets[k], t.0, t.1, paid, realized, charge)
    requires OnlyTraded(w.markets[k], t.1) && Kept(w.markets[k].amm, t.1.amm)
    ensures TradesOk(WithTrade(w, i, k, t))
  {
    LegTotals(w, i, k, t.0, t.1, paid, realized, charge);
    assert MarketOk(t.1);
  }

  /** A leg does not depend on the orders it leaves. */
  lemma LegAnyOrders(u: User, m: Market, u': User, m': Market, paid: int, realized: int, charge: int, os: seq<Order>)
    requires Leg(u, m, u', m', paid, realized, charge)
    ensures Leg(u, m, u'.(orders := os), m', paid, realized, charge)
  {
  }

  lemma ReducingKeeps(w: World, i: nat, k: nat, slot: nat, t: (User, Market))
    requires TradesOk(w) && i < |w.users| && k < |w.markets| && slot < |w.users[i].orders|
    requires FillReduceOnly(w.config, w.users[i], w.markets[k], slot) == Ok(t)
    ensures TradesOk(WithTrade(w, i, k, t))
  {
    var u, m := w.users[i], w.markets[k];
    var at := FindPosition(u.positions, m.index).value;
    var size: u64 := Min(u.orders[slot].Remaining(), Abs(u.positions[at].base));
    FoundIsOnly(u.positions, m.index);
    PositionWithinOpenInterest(w, i, k, at);
    CloseFacts(u, m, w.config.takerFeeBps, at, size, u.orders[slot].price);
    var r := ExecuteAmmClose(u, m, w.config.takerFeeBps, at, size, u.orders[slot].price).value;
    hide ExecuteAmmClose, TradesOk, Leg;
    var fee := r.market.amm.totalFee - m.amm.totalFee;
    LegAnyOrders(u, m, r.user, r.market, QuoteIn(m.amm, r.market.amm), r.realized, fee, t.0.orders);
    TradeKeepsTrades(w, i, k, t, QuoteIn(m.amm, r.market.amm), r.realized, fee);
  }

  lemma OpeningIff(w: World, i: nat, k: nat, slot: nat, price: u64, t: (User, Market))
    requires TradesOk(w) && i < |w.users| && k < |w.markets| && slot < |w.users[i].orders|
    requires FillOpening(w.config, w.users[i], w.markets[k], slot, price) == Ok(t)
    ensures TradesOk(WithTrade(w, i, k, t)) <==> w.users[i].orders[slot].Remaining() <= I64_MAX
  {
    var u, m := w.users[i], w.markets[k];
    var order := u.orders[slot];
    var r := ExecuteAmmOpen(u, m, w.config.takerFeeBps, order.direction, order.Remaining(), order.price, price).value;
    hide ExecuteAmmOpen, Leg;
    if order.Remaining() <= I64_MAX {
      OpenFacts(u, m, w.config.takerFeeBps, order.direction, order.Remaining(), order.price, price);
      hide TradesOk;
      var fee := r.market.amm.totalFee - m.amm.totalFee;
      LegAnyOrders(u, m, r.user, r.market, QuoteIn(m.amm, r.market.amm), 0, fee, t.0.orders);
      TradeKeepsTrades(w, i, k, t, QuoteIn(m.amm, r.market.amm), 0, fee);
    } else {
      OversizedBreaks(w, i, k, w.config.takerFeeBps, order.direction, order.Remaining(), order.price, price, t);
    }
  }

  /** An open trade keeps the world sound if and only if its size is below 2^63. */
  lemma OpenSoundIff(w: World, ix: Instruction, w': World)
    requires WorldOk(w) && ix.OpenTrade? && Step(w, ix) == Ok(w')
    ensures WorldOk(w') <==> ix.size <= I64_MAX
  {
    if ix.size <= I64_MAX {
      StepAccounted(w, ix, w');
    } else {
      var i, k := ix.user, ix.market;
      var t := OpenPosition(w.config, w.users[i], w.markets[k], ix.direction, ix.size, ix.limit, ix.price).value;
      hide Step;
      OversizedBreaks(w, i, k, w.config.takerFeeBps, ix.direction, ix.size, ix.limit, ix.price, t);
    }
  }

  /** A fill keeps the books if and only if it closes, or what remains of its order is below 2^63. */
  lemma FillSoundIff(w: World, ix: Instruction, w': World)
    requires TradesOk(w) && ix.Fill? && Step(w, ix) == Ok(w')
    ensures var orders := w.users[ix.user].orders;
      && FindOrder(orders, ix.id).Ok?
      && var order := orders[FindOrder(orders, ix.id).value];
      (TradesOk(w') <==> order.reduceOnly || order.Remaining() <= I64_MAX)
  {
    var i, k := ix.user, ix.market;
    var u, m := w.users[i], w.markets[k];
    var slot := FindOrder(u.orders, ix.id).value;
    var order := u.orders[slot];
    var t := FillOrder(w.config, u, m, ix.id, ix.price).value;
    assert w' == WithTrade(w, i, k, t);
    hide Step, FillOrder, TradesOk;
    if order.reduceOnly {
      assert FillReduceOnly(w.config, u, m, slot) == Ok(t);
      ReducingKeeps(w, i, k, slot, t);
    } else {
      assert FillOpening(w.config, u, m, slot, ix.price) == Ok(t);
      hide FillOpening;
      OpeningIff(w, i, k, slot, ix.price, t);
    }
  }

  /** A peer match keeps the books if and only if the size it trades is below 2^63. */
  lemma MatchSoundIff(w: World, ix: Instruction, w': World)
    requires TradesOk(w) && ix.Match? && Step(w, ix) == Ok(w')
    ensures var bids, asks := w.users[ix.taker].orders, w.users[ix.maker].orders;
      && FindOrder(bids, ix.takerId).Ok? && FindOrder(asks, ix.makerId).Ok?
      && var bid, ask := bids[FindOrder(bids, ix.takerId).value], asks[FindOrder(asks, ix.makerId).value];
      (TradesOk(w') <==> Min(bid.Remaining(), ask.Remaining()) <= I64_MAX)
  {
    var i, j, k := ix.taker, ix.maker, ix.market;
    var f := FillMatch(w.config, w.users[i], w.users[j], i == j, w.markets[k], ix.takerId, ix.makerId, ix.price).value;
    assert w' == WithTrade(WithUser(w, i, f.taker), j, k, (f.maker, f.market));
    hide Step, TradesOk, FillMatch;
    FillMatchIff(w, i, j, k, ix.takerId, ix.makerId, ix.price, f);
  }

  lemma FillMatchIff(w: World, i: nat, j: nat, k: nat, takerId: u32, makerId: u32, price: u64, f: MatchFill)
    requires TradesOk(w) && i < |w.users| && j < |w.users| && k < |w.markets|
    requires FillMatch(w.config, w.users[i], w.users[j], i == j, w.markets[k], takerId, makerId, price) == Ok(f)
    ensures var bids, asks := w.users[i].orders, w.users[j].orders;
      && FindOrder(bids, takerId).Ok? && FindOrder(asks, makerId).Ok?
      && var bid, ask := bids[FindOrder(bids, takerId).value], asks[FindOrder(asks, makerId).value];
      (TradesOk(WithTrade(WithUser(w, i, f.taker), j, k, (f.maker, f.market)))
       <==> Min(bid.Remaining(), ask.Remaining()) <= I64_MAX)
  {
    var u, v, m := w.users[i], w.users[j], w.markets[k];
    var pair := CheckMatch(w.config, u, v, i == j, m, takerId, makerId).value;
    CheckMatchSize(w.config, u, v, i == j, m, takerId, makerId);
    assert FindOrder(u.orders, takerId) == Ok(pair.takerSlot) && FindOrder(v.orders, makerId) == Ok(pair.makerSlot);
    assert i != j;
    hide TradesOk, ExecuteMakerMatch, CheckMatch, FindOrder, FillAndMaybeClear;
    MatchIff(w, i, j, k, u.orders[pair.takerSlot].direction, pair.size, v.orders[pair.makerSlot].price, price,
             f.taker.orders, f.maker.orders);
  }

  lemma MatchIff(w: World, i: nat, j: nat, k: nat, dir: Direction, size: u64, fillPrice: u64, price: u64,
                 os: seq<Order>, qs: seq<Order>)
    requires TradesOk(w) && i < |w.users| && j < |w.users| && i != j && k < |w.markets|
    requires ExecuteMakerMatch(w.users[i], w.users[j], w.markets[k], w.config.takerFeeBps, w.config.makerRebateBps,
                               dir, size, fillPrice, price).Ok?
    ensures var f := ExecuteMakerMatch(w.users[i], w.users[j], w.markets[k], w.config.takerFeeBps,
                                       w.config.makerRebateBps, dir, size, fillPrice, price).value;
      var w1 := WithUser(w, i, f.taker.(orders := os));
      TradesOk(WithTrade(w1, j, k, (f.maker.(orders := qs), f.market))) <==> size <= I64_MAX
  {
    hide ExecuteMakerMatch, ApplyMatchLeg, CollectNetFee, PriceMatch, Leg;
    var u, v, m := w.users[i], w.users[j], w.markets[k];
    var priced, first, second := MatchShape(u, v, m, w.config.takerFeeBps, w.config.makerRebateBps, dir, size,
                                            fillPrice, price);
    PriceMatchExact(size, fillPrice, w.config.takerFeeBps, w.config.makerRebateBps);
    CollectNetFeeExact(second.1, priced.fee, priced.rebate);
    var m' := CollectNetFee(second.1, priced.fee, priced.rebate).value;
    var u', v' := first.0.(orders := os), second.0.(orders := qs);
    if size <= I64_MAX {
      MatchLegFacts(u, m, dir, size, priced.quote, 0 - priced.fee, price);
      MatchLegFacts(v, first.1, Opposite(dir), size, priced.quote, priced.rebate, price);
      var quote := if dir == Long then priced.quote else 0 - priced.quote;
      LegAnyOrders(u, m, first.0, first.1, quote, 0, priced.fee, os);
      LegAnyOrders(v, first.1, second.0, second.1, 0 - quote, 0, 0 - priced.rebate, qs);
      LegAnyFee(v, first.1, v', second.1, m', 0 - quote, 0, 0 - priced.rebate);
      LegsKeep(w, i, j, k, u', first.1, v', m', quote, priced.fee, priced.rebate);
    } else {
      OversizedLeg(u, m, dir, size, priced.quote, 0 - priced.fee, price);
      OversizedLeg(v, first.1, Opposite(dir), size, priced.quote, priced.rebate, price);
      LongsDiverge(w, i, j, k, u', v', m', size);
    }
  }

  /** A leg does not depend on the fees the market ends with. */
  lemma LegAnyFee(u: User, m: Market, u': User, m1: Market, m': Market, paid: int, realized: int, charge: int)
    requires Leg(u, m, u', m1, paid, realized, charge) && m' == m1.(amm := m1.amm.(totalFee := m'.amm.totalFee))
    ensures Leg(u, m, u', m', paid, realized, charge)
  {
  }

  lemma LegsKeep(w: World, i: nat, j: nat, k: nat, u': User, m1: Market, v': User, m': Market,
                 quote: int, fee: int, rebate: int)
    requires TradesOk(w) && i < |w.users| && j < |w.users| && i != j && k < |w.markets|
    requires Leg(w.users[i], w.markets[k], u', m1, quote, 0, fee) && OnlyTraded(w.markets[k], m1)
    requires Leg(w.users[j], m1, v', m', 0 - quote, 0, 0 - rebate) && OnlyTraded(m1, m')
    requires m'.amm.base == w.markets[k].amm.base && m'.amm.quote == w.markets[k].amm.quote
    requires m'.amm.long + m'.amm.short == w.markets[k].amm.long + w.markets[k].amm.short
    ensures TradesOk(WithTrade(WithUser(w, i, u'), j, k, (v', m')))
  {
    assert MarketOk(m') && SlotsOk(u'.positions) && SlotsOk(v'.positions);
    var w1 := WithTrade(w, i, k, (u', m1));
    assert WithTrade(w1, j, k, (v', m')) == WithTrade(WithUser(w, i, u'), j, k, (v', m'));
    assert TotalsOk(w) && w.markets[k].index == k;
    LegTotals(w, i, k, u', m1, quote, 0, fee);
    LegTotals(w1, j, k, v', m', 0 - quote, 0, 0 - rebate);
    hide Leg, TotalsOk, MarketOk, SlotsOk;
  }

  /** The long side of the market grows by the size, the users' long side by less. */
  lemma LongsDiverge(w: World, i: nat, j: nat, k: nat, u': User, v': User, m': Market, size: u64)
    requires TradesOk(w) && i < |w.users| && j < |w.users| && i != j && k < |w.markets|
    requires m'.amm.long == w.markets[k].amm.long + size
    requires UserLong(k)(u') - UserLong(k)(w.users[i]) + UserLong(k)(v') - UserLong(k)(w.users[j]) < size
    ensures !TradesOk(WithTrade(WithUser(w, i, u'), j, k, (v', m')))
  {
    var w1 := WithUser(w, i, u');
    var w' := WithTrade(w1, j, k, (v', m'));
    SumUpdate(w.users, i, u', UserLong(k));
    SumUpdate(w1.users, j, v', UserLong(k));
    assert TotalLong(w, k) == MarketLong(w, k);
    assert TotalLong(w', k) != MarketLong(w', k);
  }


  // ------------------------------------------------------------ a world where it happens

  const HALF := 0x8000_0000_0000_0000
  const DEPTH := 12_000_000_000_000_000_000

  const DEEP := MarketParams(0, 1, DEPTH, 2, 1, 1, 1, 0, 0, 3600)
  const STAKE := 1_000_000_000_000

  function DeepMarket(): Market { Created(DEEP) }
  function RichUser(): User { Funded(STAKE) }
  function DeepWorld(): World { World(PLAIN, [RichUser()], [DeepMarket()], 0) }

  /** The world of a well-sized history: one account, one market, one deposit. */
  lemma DeepWorldReached()
    ensures Run(PLAIN, FundedOpening(DEEP, STAKE)) == DeepWorld() && WorldOk(DeepWorld())
  {
    FundingReaches(DEEP, STAKE);
    RunSound(PLAIN, FundedOpening(DEEP, STAKE));
  }

  function OversizedOpen(): Instruction { OpenTrade(0, 0, Long, HALF, 0, 1) }

  function DeepSwap(): SwapResult {
    var newQuote := CeilDiv(DEPTH * DEPTH, DEPTH - HALF);
    SwapResult(DEPTH - HALF, newQuote, (newQuote - DEPTH) / BASE_PRECISION)
  }

  lemma DeepPrice(limit: u64) returns (priced: Priced)
    requires limit == 0 || limit == U64_MAX
    ensures PriceTrade(DeepMarket(), 0, HALF, limit, true) == Ok(priced)
    ensures priced.swap == DeepSwap() && priced.fee == 0 && priced.avg <= U64_MAX
  {
    var swap := DeepSwap();
    assert SwapMarket(DeepMarket(), HALF, Remove) == Ok(swap);
    priced := Priced(swap, swap.quote * BASE_PRECISION / HALF, 0);
  }

  lemma DeepPosition() returns (ps: seq<PerpPosition>, p: PerpPosition)
    ensures AddToPosition(RichUser().positions, 0, true, -HALF, DeepSwap().quote, 0) == Ok((ps, p))
    ensures p == PerpPosition(0, -HALF, 0 - DeepSwap().quote, 0, 0) && ps == RichUser().positions[0 := p]
  {
    var qs := RichUser().positions;
    p := PerpPosition(0, -HALF, 0 - DeepSwap().quote, 0, 0);
    ps := qs[0 := p];
    assert FindPosition(qs, 0).None? && Position(qs, TakenFor(0)).None?;
    assert Vacant()(qs[0]);
    assert qs[0 := EMPTY_POSITION][0 := p] == ps;
  }

  /** A history whose last instruction, a buy of 2^63 units, is accepted and stored as a short
      of 2^63 units. */
  lemma OversizedOpenAccepted() returns (w': World)
    ensures w' == Run(PLAIN, FundedOpening(DEEP, STAKE) + [OversizedOpen()])
    ensures |w'.users| == |w'.markets| == 1 && |w'.users[0].positions| == MAX_POSITIONS
    ensures w'.users[0].positions[0].base == -HALF && w'.markets[0].oiLong == HALF
    ensures WorldOk(Run(PLAIN, FundedOpening(DEEP, STAKE))) && !WorldOk(w')
  {
    w' := DeepOpen();
    DeepWorldReached();
    RunMore(PLAIN, FundedOpening(DEEP, STAKE), OversizedOpen());
    hide Run, WorldOk, Step;
    OpenSoundIff(DeepWorld(), OversizedOpen(), w');
  }

  function DeepAfter(swap: SwapResult): Market {
    var m := DeepMarket();
    m.(oiLong := HALF, amm := m.amm.(base := swap.newBase, quote := swap.newQuote, long := HALF))
  }

  lemma DeepBooked(priced: Priced, p: PerpPosition)
    requires priced.swap == DeepSwap() && priced.fee == 0 && p == PerpPosition(0, -HALF, 0 - DeepSwap().quote, 0, 0)
    ensures OpenMarket(DeepMarket(), priced, true, HALF) == Ok(DeepAfter(priced.swap))
    ensures RequireInitial(STAKE, p, 1, DeepAfter(priced.swap)).Ok?
  {
  }

  /** The trade itself, whatever orders the account rests. */
  lemma DeepTrade(u: User, limit: u64) returns (fill: OpenFill)
    requires u.positions == RichUser().positions && u.collateral == STAKE && (limit == 0 || limit == U64_MAX)
    ensures ExecuteAmmOpen(u, DeepMarket(), 0, Long, HALF, limit, 1) == Ok(fill)
    ensures |fill.user.positions| == MAX_POSITIONS && fill.user.positions[0].base == -HALF && fill.market.oiLong == HALF
  {
    var priced := DeepPrice(limit);
    var ps, p := DeepPosition();
    DeepBooked(priced, p);
    fill := OpenFill(u.(positions := ps), DeepAfter(priced.swap), priced.swap.quote);
    assert fill.market.oiLong == HALF && DeepMarket().index == 0 && DeepMarket().amm.cumFundingLong == 0;
    assert 0 <= DeepSwap().quote <= I64_MAX;
    hide PriceTrade, AddToPosition, RequireInitial, OpenMarket, DeepAfter, DeepMarket, DeepSwap, RichUser;
  }

  lemma DeepOpen() returns (w': World)
    ensures Step(DeepWorld(), OversizedOpen()) == Ok(w')
    ensures |w'.users| == |w'.markets| == 1 && |w'.users[0].positions| == MAX_POSITIONS
    ensures w'.users[0].positions[0].base == -HALF && w'.markets[0].oiLong == HALF
  {
    var fill := DeepTrade(RichUser(), 0);
    hide ExecuteAmmOpen;
    w' := WithTrade(DeepWorld(), 0, 0, (fill.user, fill.market));
  }

  // ------------------------------------------------------------ the same through a resting order

  function OversizedOrder(): OrderParams { OrderParams(Limit, Long, HALF, U64_MAX, 0, Above, false, false) }
  function OversizedFill(): seq<Instruction> { [Place(0, 0, OversizedOrder(), 0), Fill(0, 0, 0, 1)] }

  /** The account with the order resting. */
  function Placed(): User {
    var u := RichUser();
    u.(nextOrderId := 1, orders := u.orders[0 := RestingOrder(0, 0, OversizedOrder(), 0)])
  }

  lemma OrderPlaced()
    ensures PlaceOrder(PLAIN, RichUser(), DeepMarket(), OversizedOrder(), 0) == Ok(Placed())
    ensures FindOrder(Placed().orders, 0) == Ok(0)
  {
    assert NotOpen()(RichUser().orders[0]);
    assert OpenWithId(0)(Placed().orders[0]);
  }

  function RestingWorld(): World { WithUser(DeepWorld(), 0, Placed()) }

  /** Placing an order of any size leaves the books alone. */
  lemma RestingTrades()
    requires WorldOk(DeepWorld())
    ensures TradesOk(RestingWorld())
  {
    hide RichUser, DeepMarket;
    assert DeepWorld().users[0] == RichUser() && Placed().positions == RichUser().positions;
    UserTotals(DeepWorld(), 0, Placed());
  }

  lemma OrderFilled() returns (t: (User, Market))
    ensures FillOrder(PLAIN, Placed(), DeepMarket(), 0, 1) == Ok(t)
    ensures |t.0.positions| == MAX_POSITIONS && t.0.positions[0].base == -HALF && t.1.oiLong == HALF
  {
    OrderPlaced();
    var fill := DeepTrade(Placed(), U64_MAX);
    hide ExecuteAmmOpen, FindOrder;
    t := (fill.user.(orders := Placed().orders[0 := EMPTY_ORDER]), fill.market);
    var slot := 0;
    assert FillOpening(PLAIN, Placed(), DeepMarket(), slot, 1) == Ok(t);
    hide FillOpening;
  }

  lemma FillStep() returns (w': World)
    ensures Step(RestingWorld(), OversizedFill()[1]) == Ok(w')
    ensures |w'.users| == |w'.markets| == 1 && |w'.users[0].positions| == MAX_POSITIONS
    ensures w'.users[0].positions[0].base == -HALF && w'.markets[0].oiLong == HALF
  {
    var t := OrderFilled();
    hide FillOrder;
    w' := WithTrade(RestingWorld(), 0, 0, t);
  }

  lemma PlaceStep()
    ensures Step(DeepWorld(), OversizedFill()[0]) == Ok(RestingWorld())
  {
    OrderPlaced();
    hide PlaceOrder, FindOrder;
  }

  lemma FilledUnsound(w': World)
    requires WorldOk(DeepWorld()) && Step(RestingWorld(), OversizedFill()[1]) == Ok(w')
    ensures !TradesOk(w')
  {
    RestingTrades();
    OrderPlaced();
    hide Step, FindOrder, WorldOk, TradesOk;
    FillSoundIff(RestingWorld(), OversizedFill()[1], w');
  }

  /** The same short for a buy of 2^63 units, as the fill of an order that was placed and rests. */
  lemma OversizedFillAccepted() returns (w': World)
    ensures w' == Run(PLAIN, FundedOpening(DEEP, STAKE) + OversizedFill())
    ensures |w'.users| == |w'.markets| == 1 && |w'.users[0].positions| == MAX_POSITIONS
    ensures w'.users[0].positions[0].base == -HALF && w'.markets[0].oiLong == HALF
    ensures !TradesOk(w')
  {
    var opening := FundedOpening(DEEP, STAKE);
    var place, fill := OversizedFill()[0], OversizedFill()[1];
    assert opening + OversizedFill() == opening + [place] + [fill];
    DeepWorldReached();
    RunMore(PLAIN, opening, place);
    RunMore(PLAIN, opening + [place], fill);
    hide Run, WorldOk, TradesOk, Step, DeepWorld, RestingWorld, FundedOpening;
    PlaceStep();
    w' := FillStep();
    FilledUnsound(w');
  }
}
