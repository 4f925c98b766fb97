/** Peer matches, fills and triggers compute exactly the relation. */
module OrderAgreement {
  import opened Numbers
  import opened Sequences
  import opened State
  import opened Curve
  import opened Margin
  import opened Funding
  import opened Controller
  import opened Instructions
  import opened Protocol
  import Bookkeeping
  import Steps
  import opened TradeAgreement
  import R = Relation

  // ------------------------------------------------------------ peer matches

  lemma CountsIff(o: Order, size: u64, o': Order)
    ensures FillAndMaybeClear(o, size) == o' <==> R.Counts(o, size, false, o')
  {
  }

  lemma CrossIff(taker: Order, maker: Order)
    ensures taker.direction != maker.direction && Instructions.Crosses(taker, maker) <==> R.Crosses(taker, maker)
  {
  }

  lemma FindsIff(os: seq<Order>, id: u32, slot: nat)
    ensures FindOrder(os, id) == Ok(slot) <==> R.Finds(os, id, slot)
  {
    var r := Position(os, OpenWithId(id));
    if r.Some? {
      assert OpenWithId(id)(os[r.value]);
      assert forall i :: 0 <= i < r.value ==> !OpenWithId(id)(os[i]);
    } else {
      assert forall i :: 0 <= i < |os| ==> !OpenWithId(id)(os[i]);
    }
  }

  lemma MatchesIff(u: User, id: u32, k: u16, slot: nat)
    ensures FindOpenLimit(u, id, k) == Ok(slot) <==> R.Matches(u.orders, id, k, slot)
  {
    FindsIff(u.orders, id, slot);
    hide FindOrder;
  }

  /** One leg, before the orders are written. */
  lemma LegGives(u: User, m: Market, dir: Direction, size: u64, quote: u128, delta: i64, price: u64, u1: User,
                 m1: Market)
    returns (at: nat, v: R.Worth)
    requires quote <= I128_MAX && ApplyMatchLeg(u, m, dir, size, quote, delta, price) == Ok((u1, m1))
    ensures R.Joins(u.positions, m, dir == Long, size, quote, at, u1.positions) && at < |u1.positions|
    ensures u1 == u.(collateral := u1.collateral, positions := u1.positions) && u1.collateral == u.collateral + delta
    ensures R.Margined(u1.collateral, u1.positions[at], price, m, v)
    ensures AddOpenInterest(m, dir == Long, size) == Ok(m1)
  {
    hide ApplyMatchLeg, AddToPosition, RequireInitial, R.Joins, R.Values;
    var added := Bookkeeping.MatchLegShape(u, m, dir, size, quote, delta, price);
    at := JoinGives(u.positions, m, dir == Long, size, quote, u1.positions, added.1);
    v := InitialGives(u1.collateral, added.1, price, m1);
    SameWorth(added.1, price, m, m1, v);
  }

  lemma LegTakes(u: User, m: Market, dir: Direction, size: u64, quote: u128, delta: i64, price: u64,
                 u1: User, m1: Market, at: nat, v: R.Worth)
    requires quote <= I128_MAX && R.Joins(u.positions, m, dir == Long, size, quote, at, u1.positions)
    requires at < |u1.positions|
    requires u1 == u.(collateral := u1.collateral, positions := u1.positions) && u1.collateral == u.collateral + delta
    requires R.Margined(u1.collateral, u1.positions[at], price, m, v)
    requires AddOpenInterest(m, dir == Long, size) == Ok(m1)
    ensures ApplyMatchLeg(u, m, dir, size, quote, delta, price) == Ok((u1, m1))
  {
    hide AddToPosition, RequireInitial, R.Joins, R.Values, SignedBase;
    JoinQuote(u.positions, m, dir == Long, size, quote, at, u1.positions);
    JoinTakes(u.positions, m, dir == Long, size, quote, at, u1.positions);
    SameWorth(u1.positions[at], price, m, m1, v);
    InitialTakes(u1.collateral, u1.positions[at], price, m1, v);
  }

  lemma PairIff(cfg: Config, taker: User, maker: User, same: bool, m: Market, takerId: u32, makerId: u32, pair: Pair)
    ensures CheckMatch(cfg, taker, maker, same, m, takerId, makerId) == Ok(pair) <==>
      && !cfg.paused && !same && m.status == Active
      && R.Matches(taker.orders, takerId, m.index, pair.takerSlot)
      && R.Matches(maker.orders, makerId, m.index, pair.makerSlot)
      && R.Crosses(taker.orders[pair.takerSlot], maker.orders[pair.makerSlot])
      && pair.size == R.Lesser(R.Left(taker.orders[pair.takerSlot]), R.Left(maker.orders[pair.makerSlot])) > 0
  {
    MatchesIff(taker, takerId, m.index, pair.takerSlot);
    MatchesIff(maker, makerId, m.index, pair.makerSlot);
    hide FindOpenLimit;
    if FindOpenLimit(taker, takerId, m.index) == Ok(pair.takerSlot) {
      if FindOpenLimit(maker, makerId, m.index) == Ok(pair.makerSlot) {
        CrossIff(taker.orders[pair.takerSlot], maker.orders[pair.makerSlot]);
      }
    }
    hide R.Crosses;
  }

  /** The value of a match fits 128 bits, and so does what it comes to in quote. */
  lemma ValueFits(size: u64, fillPrice: u64)
    ensures 0 <= size * fillPrice <= U64_MAX * U64_MAX
    ensures 0 <= size * fillPrice / 1_000_000_000 <= U64_MAX * U64_MAX / 1_000_000_000
  {
    MulMono(0, size, fillPrice);
    MulMono(size, U64_MAX, fillPrice);
    MulMono(fillPrice, U64_MAX, U64_MAX);
    FloorMono(size * fillPrice, U64_MAX * U64_MAX, 1_000_000_000);
    FloorGalois(0, size * fillPrice, 1_000_000_000);
  }

  /** A fee on it then never overflows. */
  lemma ValueFeeIff(quote: nat, bps: u16, fee: u128)
    requires quote <= U64_MAX * U64_MAX / 1_000_000_000
    ensures FeeAmount(quote, bps) == Ok(fee) <==> R.RoundsUp(fee, quote * bps, 10_000)
  {
    MulMono(bps, 0xFFFF, quote);
    Commute(bps, quote);
    assert quote * bps <= 0xFFFF * quote <= U128_MAX;
    hide FeeAmount, R.RoundsUp;
    FeeIff(quote, bps, fee);
  }

  lemma MatchPriceIff(size: u64, fillPrice: u64, feeBps: u16, rebateBps: u16, q: MatchPrice)
    ensures PriceMatch(size, fillPrice, feeBps, rebateBps) == Ok(q) <==>
      && R.RoundsDown(q.quote, size * fillPrice, 1_000_000_000)
      && R.RoundsUp(q.fee, q.quote * feeBps, 10_000) && R.RoundsUp(q.rebate, q.quote * rebateBps, 10_000)
  {
    ValueFits(size, fillPrice);
    DownIs(q.quote, size * fillPrice, 1_000_000_000);
    if q.quote == size * fillPrice / 1_000_000_000 {
      ValueFeeIff(q.quote, feeBps, q.fee);
      ValueFeeIff(q.quote, rebateBps, q.rebate);
    }
    hide FeeAmount, R.RoundsDown, R.RoundsUp;
  }

  /** The markets between and after the legs of a match. */
  predicate Both(m: Market, long: bool, size: u64, fee: u128, rebate: u128, m1: Market, m2: Market, m': Market) {
    && AddOpenInterest(m, long, size) == Ok(m1) && AddOpenInterest(m1, !long, size) == Ok(m2)
    && CheckOpenInterestCap(m2).Ok? && CollectNetFee(m2, fee, rebate) == Ok(m')
  }

  lemma BothGives(m: Market, long: bool, size: u64, fee: u128, rebate: u128, m1: Market, m2: Market, m': Market)
    requires AsI128(fee) == fee && AsI128(rebate) == rebate && Both(m, long, size, fee, rebate, m1, m2, m')
    ensures R.Pairs(m, size, fee, rebate, m')
    ensures m1 == m.(oiLong := m1.oiLong, oiShort := m1.oiShort,
                     amm := m.amm.(long := m1.amm.long, short := m1.amm.short))
  {
  }

  lemma BothTakes(m: Market, long: bool, size: u64, fee: u128, rebate: u128, m': Market)
    returns (m1: Market, m2: Market)
    requires AsI128(fee) == fee && AsI128(rebate) == rebate && R.Pairs(m, size, fee, rebate, m')
    ensures Both(m, long, size, fee, rebate, m1, m2, m')
    ensures m1 == m.(oiLong := m1.oiLong, oiShort := m1.oiShort,
                     amm := m.amm.(long := m1.amm.long, short := m1.amm.short))
  {
    m1 := AddOpenInterest(m, long, size).value;
    m2 := AddOpenInterest(m1, !long, size).value;
  }

  lemma MatchGives(cfg: Config, taker: User, maker: User, same: bool, m: Market, takerId: u32, makerId: u32, price: u64,
                   f: MatchFill) returns (x: R.Matching)
    requires FillMatch(cfg, taker, maker, same, m, takerId, makerId, price) == Ok(f)
    ensures !cfg.paused && !same
    ensures R.MatchesPeers(cfg, taker, maker, m, takerId, makerId, price, f.taker, f.maker, f.market, x)
  {
    hide ExecuteMakerMatch, CheckMatch, FillAndMaybeClear, PriceMatch, ApplyMatchLeg, CollectNetFee;
    hide CheckOpenInterestCap;
    hide R.Matches, R.Crosses, R.Joins, R.Values, R.Counts, R.Pairs, R.RoundsDown, R.RoundsUp;
    var pair := CheckMatch(cfg, taker, maker, same, m, takerId, makerId).value;
    PairIff(cfg, taker, maker, same, m, takerId, makerId, pair);
    var bid, ask := taker.orders[pair.takerSlot], maker.orders[pair.makerSlot];
    var long := bid.direction == Long;
    var first, second, q := MatchStages(taker, maker, m, cfg, bid.direction, pair.size, ask.price, price);
    MatchPriceIff(pair.size, ask.price, cfg.takerFeeBps, cfg.makerRebateBps, q);
    BothGives(m, long, pair.size, q.fee, q.rebate, first.1, second.1, f.market);
    var takerAt, takerWorth := LegGives(taker, m, bid.direction, pair.size, q.quote, 0 - q.fee, price, first.0,
                                        first.1);
    var makerAt, makerWorth :=
      LegGives(maker, first.1, Opposite(bid.direction), pair.size, q.quote, q.rebate, price, second.0, second.1);
    SameLeg(maker, m, first.1, !long, pair.size, q.quote, makerAt, second.0, price, makerWorth);
    CountsIff(bid, pair.size, f.taker.orders[pair.takerSlot]);
    CountsIff(ask, pair.size, f.maker.orders[pair.makerSlot]);
    x := R.Matching(pair.takerSlot, pair.makerSlot, pair.size, q.quote, q.fee, q.rebate,
                    takerAt, makerAt, takerWorth, makerWorth);
  }

  /** The stages of a match. */
  lemma MatchStages(taker: User, maker: User, m: Market, cfg: Config, dir: Direction, size: u64, fillPrice: u64,
                    price: u64)
    returns (first: (User, Market), second: (User, Market), q: MatchPrice)
    requires ExecuteMakerMatch(taker, maker, m, cfg.takerFeeBps, cfg.makerRebateBps, dir, size, fillPrice, price).Ok?
    ensures PriceMatch(size, fillPrice, cfg.takerFeeBps, cfg.makerRebateBps) == Ok(q) && q.quote <= I128_MAX
    ensures AsI128(q.fee) == q.fee <= I64_MAX && AsI128(q.rebate) == q.rebate <= I64_MAX
    ensures ApplyMatchLeg(taker, m, dir, size, q.quote, 0 - q.fee, price) == Ok(first)
    ensures ApplyMatchLeg(maker, first.1, Opposite(dir), size, q.quote, q.rebate, price) == Ok(second)
    ensures var r := ExecuteMakerMatch(taker, maker, m, cfg.takerFeeBps, cfg.makerRebateBps, dir, size, fillPrice,
                                       price).value;
      && r.taker == first.0 && r.maker == second.0
      && Both(m, dir == Long, size, q.fee, q.rebate, first.1, second.1, r.market)
  {
    hide ApplyMatchLeg, PriceMatch, CollectNetFee, CheckOpenInterestCap, ExecuteMakerMatch, AddOpenInterest;
    hide AddToPosition, RequireInitial, SignedBase;
    q, first, second :=
      Steps.MatchShape(taker, maker, m, cfg.takerFeeBps, cfg.makerRebateBps, dir, size, fillPrice, price);
    Steps.PriceMatchExact(size, fillPrice, cfg.takerFeeBps, cfg.makerRebateBps);
    var _ := Bookkeeping.MatchLegShape(taker, m, dir, size, q.quote, 0 - q.fee, price);
    var _ := Bookkeeping.MatchLegShape(maker, first.1, Opposite(dir), size, q.quote, q.rebate, price);
  }

  lemma SameLeg(u: User, m: Market, m1: Market, isLong: bool, size: u64, quote: int, at: nat, u1: User, price: u64,
                v: R.Worth)
    requires m1.index == m.index && m1.amm.cumFundingLong == m.amm.cumFundingLong
    requires m1.marginInitial == m.marginInitial && m1.marginMaintenance == m.marginMaintenance
    ensures R.Joins(u.positions, m1, isLong, size, quote, at, u1.positions)
      == R.Joins(u.positions, m, isLong, size, quote, at, u1.positions)
    ensures at < |u1.positions| ==>
      R.Values(u1.positions[at], price, m1, v) == R.Values(u1.positions[at], price, m, v)
  {
    hide R.OpensIn, R.RoundsDown, R.RoundsToZero;
  }

  lemma MatchTakes(cfg: Config, taker: User, maker: User, same: bool, m: Market, takerId: u32, makerId: u32, price: u64,
                   taker': User, maker': User, m': Market, x: R.Matching)
    requires !cfg.paused && !same
    requires R.MatchesPeers(cfg, taker, maker, m, takerId, makerId, price, taker', maker', m', x)
    ensures FillMatch(cfg, taker, maker, same, m, takerId, makerId, price) == Ok(MatchFill(taker', maker', m'))
  {
    hide ExecuteMakerMatch, CheckMatch, FillAndMaybeClear;
    hide R.Matches, R.Crosses, R.Joins, R.Values, R.Counts, R.Pairs, R.RoundsDown, R.RoundsUp, R.Lesser, R.Left;
    var bid, ask := taker.orders[x.bid], maker.orders[x.ask];
    SizeIs(bid, ask, x.size);
    var pair := Pair(x.bid, x.ask, x.size);
    PairIff(cfg, taker, maker, same, m, takerId, makerId, pair);
    CountsIff(bid, x.size, taker'.orders[x.bid]);
    CountsIff(ask, x.size, maker'.orders[x.ask]);
    MakerMatchTakes(taker, maker, m, cfg, bid.direction, x.size, ask.price, price,
                    taker'.(orders := taker.orders), maker'.(orders := maker.orders), m', x);
  }

  lemma SizeIs(bid: Order, ask: Order, size: int)
    requires size == R.Lesser(R.Left(bid), R.Left(ask)) > 0
    ensures R.InU64(size)
  {
  }

  lemma MakerMatchTakes(taker: User, maker: User, m: Market, cfg: Config, dir: Direction, size: u64, fillPrice: u64,
                        price: u64, taker': User, maker': User, m': Market, x: R.Matching)
    requires size > 0 && R.RoundsDown(x.quote, size * fillPrice, 1_000_000_000)
    requires R.RoundsUp(x.fee, x.quote * cfg.takerFeeBps, 10_000)
    requires R.RoundsUp(x.rebate, x.quote * cfg.makerRebateBps, 10_000)
    requires R.InI64(x.fee) && R.InI64(x.rebate) && R.Pairs(m, size, x.fee, x.rebate, m')
    requires x.takerAt < |taker'.positions| && x.makerAt < |maker'.positions|
    requires taker' == taker.(collateral := taker'.collateral, positions := taker'.positions)
    requires maker' == maker.(collateral := maker'.collateral, positions := maker'.positions)
    requires taker'.collateral == taker.collateral - x.fee && maker'.collateral == maker.collateral + x.rebate
    requires R.Joins(taker.positions, m, dir == Long, size, x.quote, x.takerAt, taker'.positions)
    requires R.Joins(maker.positions, m, dir != Long, size, x.quote, x.makerAt, maker'.positions)
    requires R.Margined(taker'.collateral, taker'.positions[x.takerAt], price, m, x.takerWorth)
    requires R.Margined(maker'.collateral, maker'.positions[x.makerAt], price, m, x.makerWorth)
    ensures ExecuteMakerMatch(taker, maker, m, cfg.takerFeeBps, cfg.makerRebateBps, dir, size, fillPrice, price)
      == Ok(MatchFill(taker', maker', m'))
  {
    hide ApplyMatchLeg, PriceMatch, CollectNetFee, CheckOpenInterestCap, AddOpenInterest;
    hide R.Joins, R.Values, R.Pairs, R.RoundsDown, R.RoundsUp;
    JoinQuote(taker.positions, m, dir == Long, size, x.quote, x.takerAt, taker'.positions);
    FeeSign(x.quote, size, fillPrice, cfg.takerFeeBps, x.fee);
    FeeSign(x.quote, size, fillPrice, cfg.makerRebateBps, x.rebate);
    var q := MatchPrice(x.quote, x.fee, x.rebate);
    MatchPriceIff(size, fillPrice, cfg.takerFeeBps, cfg.makerRebateBps, q);
    var m1, m2 := BothTakes(m, dir == Long, size, x.fee, x.rebate, m');
    SameLeg(maker, m, m1, dir != Long, size, x.quote, x.makerAt, maker', price, x.makerWorth);
    LegTakes(taker, m, dir, size, x.quote, 0 - x.fee, price, taker', m1, x.takerAt, x.takerWorth);
    LegTakes(maker, m1, Opposite(dir), size, x.quote, x.rebate, price, maker', m2, x.makerAt, x.makerWorth);
  }

  lemma FeeSign(quote: int, size: u64, fillPrice: u64, bps: u16, fee: int)
    requires R.RoundsDown(quote, size * fillPrice, 1_000_000_000) && R.RoundsUp(fee, quote * bps, 10_000)
    ensures quote >= 0 && fee >= 0
  {
    MulMono(0, size, fillPrice);
    if quote < 0 { assert false; }
    MulMono(0, quote, bps);
    if fee < 0 { assert false; }
  }

  // ------------------------------------------------------------ fills and triggers

  lemma ReducedIff(o: Order, size: u64, done: bool, o': Order)
    ensures (if done || o.Fill(size).Remaining() == 0 then EMPTY_ORDER else o.Fill(size)) == o'
      <==> R.Counts(o, size, done, o')
  {
  }

  lemma FillGives(cfg: Config, u: User, m: Market, id: u32, price: u64, t: (User, Market)) returns (slot: nat)
    requires FillOrder(cfg, u, m, id, price) == Ok(t)
    ensures !cfg.paused && R.Finds(u.orders, id, slot) && R.Fills(cfg, u, m, slot, price, t.0, t.1)
  {
    slot := FindOrder(u.orders, id).value;
    FindsIff(u.orders, id, slot);
    hide FindOrder, R.Finds, ExecuteAmmOpen, ExecuteAmmClose;
    var order := u.orders[slot];
    if order.reduceOnly {
      var at, c := ReducingGives(cfg, u, m, slot, t);
    } else {
      var o := OpeningGives(cfg, u, m, slot, price, t);
    }
  }

  lemma ReducingGives(cfg: Config, u: User, m: Market, slot: nat, t: (User, Market)) returns (at: nat, c: R.Closing)
    requires slot < |u.orders| && u.orders[slot].Remaining() > 0 && m.RequireCanReduce().Ok?
    requires FillReduceOnly(cfg, u, m, slot) == Ok(t)
    ensures R.FillsReducing(cfg, u, m, slot, t.0, t.1, at, c)
  {
    hide ExecuteAmmClose, R.Closes, R.Counts;
    at := FindPosition(u.positions, m.index).value;
    HeldIff(u.positions, m.index, at);
    hide FindPosition, R.Held;
    var order, whole := u.orders[slot], Abs(u.positions[at].base);
    var size: u64 := Min(order.Remaining(), whole);
    var f := ExecuteAmmClose(u, m, cfg.takerFeeBps, at, size, order.price).value;
    c := CloseGives(u, m, cfg.takerFeeBps, at, size, order.price, f);
    ReducedIff(order, size, size == whole, t.0.orders[slot]);
    CloseKeepsOrders(u, m, cfg.takerFeeBps, at, size, order.price, f, c);
    assert t.0.(orders := u.orders) == f.user;
  }

  lemma CloseKeepsOrders(u: User, m: Market, feeBps: u16, at: nat, size: u64, limit: u64, f: CloseFill, c: R.Closing)
    requires R.Closes(u, m, feeBps, at, size, limit, f.user, f.market, c)
    ensures f.user.orders == u.orders
  {
  }

  lemma OpeningGives(cfg: Config, u: User, m: Market, slot: nat, price: u64, t: (User, Market)) returns (o: R.Opening)
    requires slot < |u.orders| && u.orders[slot].Remaining() > 0 && m.RequireCanOpen().Ok?
    requires FillOpening(cfg, u, m, slot, price) == Ok(t)
    ensures R.FillsOpening(cfg, u, m, slot, price, t.0, t.1, o)
  {
    hide ExecuteAmmOpen, R.Opens;
    var order := u.orders[slot];
    var f := ExecuteAmmOpen(u, m, cfg.takerFeeBps, order.direction, order.Remaining(), order.price, price).value;
    o := OpenGives(u, m, cfg.takerFeeBps, order.direction, order.Remaining(), order.price, price, f);
    OpenKeepsOrders(u, m, cfg.takerFeeBps, order.direction == Long, order.Remaining(), order.price, price, f, o);
    assert t.0.(orders := u.orders) == f.user;
  }

  lemma OpenKeepsOrders(u: User, m: Market, feeBps: int, isLong: bool, size: int, limit: int, price: int,
                        f: OpenFill, o: R.Opening)
    requires R.Opens(u, m, feeBps, isLong, size, limit, price, f.user, f.market, o)
    ensures f.user.orders == u.orders
  {
  }

  lemma FillTakes(cfg: Config, u: User, m: Market, id: u32, price: u64, slot: nat, u': User, m': Market)
    requires !cfg.paused && R.Finds(u.orders, id, slot) && R.Fills(cfg, u, m, slot, price, u', m')
    ensures FillOrder(cfg, u, m, id, price) == Ok((u', m'))
  {
    FindsIff(u.orders, id, slot);
    hide FindOrder, R.Finds, FillReduceOnly, FillOpening, R.FillsReducing, R.FillsOpening;
    if u.orders[slot].reduceOnly {
      var at: nat, c :| R.FillsReducing(cfg, u, m, slot, u', m', at, c);
      ReducingTakes(cfg, u, m, slot, u', m', at, c);
    } else {
      var o :| R.FillsOpening(cfg, u, m, slot, price, u', m', o);
      OpeningTakes(cfg, u, m, slot, price, u', m', o);
    }
  }

  lemma ReducingTakes(cfg: Config, u: User, m: Market, slot: nat, u': User, m': Market, at: nat, c: R.Closing)
    requires R.FillsReducing(cfg, u, m, slot, u', m', at, c)
    ensures slot < |u.orders| && u.orders[slot].Remaining() > 0 && m.RequireCanReduce().Ok?
    ensures FillReduceOnly(cfg, u, m, slot) == Ok((u', m'))
  {
    hide ExecuteAmmClose, R.Closes, R.Counts;
    HeldIff(u.positions, m.index, at);
    hide FindPosition;
    var order, whole := u.orders[slot], Abs(u.positions[at].base);
    var size: u64 := Min(order.Remaining(), whole);
    CloseTakes(u, m, cfg.takerFeeBps, at, size, order.price, u'.(orders := u.orders), m', c);
    assert size > 0;
    ReducedIff(order, size, size == whole, u'.orders[slot]);
    hide R.Held;
  }

  lemma OpeningTakes(cfg: Config, u: User, m: Market, slot: nat, price: u64, u': User, m': Market, o: R.Opening)
    requires R.FillsOpening(cfg, u, m, slot, price, u', m', o)
    ensures slot < |u.orders| && u.orders[slot].Remaining() > 0 && m.RequireCanOpen().Ok?
    ensures FillOpening(cfg, u, m, slot, price) == Ok((u', m'))
  {
    hide ExecuteAmmOpen, R.Opens;
    var order := u.orders[slot];
    OpenTakes(u, m, cfg.takerFeeBps, order.direction, order.Remaining(), order.price, price, u'.(orders := u.orders),
              m', o);
    assert u'.orders[slot] == EMPTY_ORDER;
  }

  /** The checks of a trigger that fires, and the close it runs. */
  lemma TriggerShape(cfg: Config, u: User, m: Market, id: u32, price: u64, t: (User, Market))
    returns (slot: nat, at: nat, f: CloseFill)
    requires TriggerOrder(cfg, u, m, id, price) == Ok(t)
    ensures !cfg.paused && m.RequireCanReduce().Ok?
    ensures FindOrder(u.orders, id) == Ok(slot) && FindPosition(u.positions, m.index) == Some(at)
    ensures var order := u.orders[slot];
      var size: u64 := Min(order.Remaining(), Abs(u.positions[at].base));
      && (order.orderType == TriggerMarket || order.orderType == TriggerLimit) && order.reduceOnly
      && order.marketIndex == m.index && Fired(order, price) && size > 0
      && ExecuteAmmClose(u, m, cfg.takerFeeBps, at, size,
                         if order.orderType == TriggerLimit then order.price else 0) == Ok(f)
      && t == (f.user.(orders := u.orders[slot := order.Fill(size).(status := Init)]), f.market)
  {
    hide FindOrder, FindPosition, ExecuteAmmClose, Fired;
    slot := FindOrder(u.orders, id).value;
    at := FindPosition(u.positions, m.index).value;
    var order := u.orders[slot];
    f := ExecuteAmmClose(u, m, cfg.takerFeeBps, at, Min(order.Remaining(), Abs(u.positions[at].base)),
                         if order.orderType == TriggerLimit then order.price else 0).value;
  }

  lemma TriggerGives(cfg: Config, u: User, m: Market, id: u32, price: u64, t: (User, Market))
    returns (slot: nat, at: nat, c: R.Closing)
    requires TriggerOrder(cfg, u, m, id, price) == Ok(t)
    ensures !cfg.paused && R.Finds(u.orders, id, slot) && R.Triggers(cfg, u, m, slot, price, t.0, t.1, at, c)
  {
    hide TriggerOrder, FindOrder, FindPosition, R.Finds, R.Held, ExecuteAmmClose, R.Closes;
    var f;
    slot, at, f := TriggerShape(cfg, u, m, id, price, t);
    FindsIff(u.orders, id, slot);
    HeldIff(u.positions, m.index, at);
    var order := u.orders[slot];
    var size: u64 := Min(order.Remaining(), Abs(u.positions[at].base));
    var limit: u64 := if order.orderType == TriggerLimit then order.price else 0;
    c := CloseGives(u, m, cfg.takerFeeBps, at, size, limit, f);
    CloseKeepsOrders(u, m, cfg.takerFeeBps, at, size, limit, f, c);
    assert t.0.(orders := u.orders) == f.user;
  }

  lemma TriggerTakes(cfg: Config, u: User, m: Market, id: u32, price: u64, slot: nat, u': User, m': Market,
                     at: nat, c: R.Closing)
    requires !cfg.paused && R.Finds(u.orders, id, slot) && R.Triggers(cfg, u, m, slot, price, u', m', at, c)
    ensures TriggerOrder(cfg, u, m, id, price) == Ok((u', m'))
  {
    FindsIff(u.orders, id, slot);
    HeldIff(u.positions, m.index, at);
    hide FindOrder, FindPosition, R.Finds, R.Held, ExecuteAmmClose, R.Closes;
    var order := u.orders[slot];
    var size: u64 := Min(order.Remaining(), Abs(u.positions[at].base));
    var limit: u64 := if order.orderType == TriggerLimit then order.price else 0;
    CloseTakes(u, m, cfg.takerFeeBps, at, size, limit, u'.(orders := u.orders), m', c);
    assert u'.orders[slot] == order.Fill(size).(status := Init);
  }
}
