/** Liquidation: a single threshold price, and safety after a margin check. */
module Health {
  import opened Numbers
  import opened Sequences
  import opened State
  import opened Curve
  import opened Margin
  import opened Funding
  import opened Controller
  import opened Instructions
  import opened Protocol
  import opened Bookkeeping
  import opened Liquidations
  import opened Ledger
  import opened Steps
  import opened Frames
  import opened Scenario

  // ------------------------------------------------------------ the threshold price

  /** The liquidation test in exact terms. */
  predicate Underwater(collateral: int, base: int, entry: int, ratio: nat, price: nat) {
    collateral + TruncDiv(base * price, BASE_PRECISION) + entry
      < (Abs(base) * price / BASE_PRECISION) * ratio / MARGIN_PRECISION
  }

  /** The program's health gate is that test. */
  lemma GateIsUnderwater(u: User, at: nat, m: Market, price: u64)
    requires at < |u.positions| && HealthOf(u.collateral, u.positions[at], price, m).Ok?
    ensures RequireLiquidatable(u, at, m, price).Ok?
      <==> Underwater(u.collateral, u.positions[at].base, u.positions[at].entry, m.marginMaintenance, price)
  {
    HealthExact(u.collateral, u.positions[at], price, m);
  }

  /** Notional less its margin grows with notional exactly while the ratio is at most one. */
  lemma MarginSlope(n1: nat, n2: nat, ratio: nat)
    requires n1 <= n2 && ratio <= MARGIN_PRECISION
    ensures n1 - n1 * ratio / MARGIN_PRECISION <= n2 - n2 * ratio / MARGIN_PRECISION
  {
    var f1 := n1 * ratio / MARGIN_PRECISION;
    FloorBounds(n1 * ratio, MARGIN_PRECISION);
    MulMono(ratio, MARGIN_PRECISION, n2 - n1);
    assert n2 * ratio == n1 * ratio + ratio * (n2 - n1);
    FloorGalois(f1 + (n2 - n1) + 1, n2 * ratio, MARGIN_PRECISION);
  }

  /** With a maintenance ratio of at most 100%, a long that is liquidatable at a price is
      liquidatable at every lower price. */
  lemma LongLiquidatableBelow(collateral: int, base: nat, entry: int, ratio: nat, p1: nat, p2: nat)
    requires p1 <= p2 && ratio <= MARGIN_PRECISION
    requires Underwater(collateral, base, entry, ratio, p2)
    ensures Underwater(collateral, base, entry, ratio, p1)
  {
    var n1 := base * p1 / BASE_PRECISION;
    var n2 := base * p2 / BASE_PRECISION;
    assert base * p1 == p1 * base && base * p2 == p2 * base;
    MulMono(p1, p2, base);
    FloorMono(base * p1, base * p2, BASE_PRECISION);
    FloorGalois(0, base * p1, BASE_PRECISION);
    MulMono(0, p1, base);
    MarginSlope(n1, n2, ratio);
  }

  /** A short that is liquidatable at a price is liquidatable at every higher price. */
  lemma ShortLiquidatableAbove(collateral: int, base: int, entry: int, ratio: nat, p1: nat, p2: nat)
    requires base <= 0 && p1 <= p2
    requires Underwater(collateral, base, entry, ratio, p1)
    ensures Underwater(collateral, base, entry, ratio, p2)
  {
    var size := Abs(base);
    var n1 := size * p1 / BASE_PRECISION;
    var n2 := size * p2 / BASE_PRECISION;
    Commute(size, p1);
    Commute(size, p2);
    MulMono(p1, p2, size);
    FloorMono(size * p1, size * p2, BASE_PRECISION);
    ShortValue(base, p1);
    ShortValue(base, p2);
    MulMono(n1, n2, ratio);
    FloorMono(n1 * ratio, n2 * ratio, MARGIN_PRECISION);
  }

  lemma ShortValue(base: int, p: nat)
    requires base <= 0
    ensures TruncDiv(base * p, BASE_PRECISION) == 0 - (0 - base) * p / BASE_PRECISION
    ensures (0 - base) * p / BASE_PRECISION >= 0
  {
    MulMono(0, 0 - base, p);
    assert base * p == 0 - (0 - base) * p;
    TruncOdd((0 - base) * p, BASE_PRECISION);
    FloorGalois(0, (0 - base) * p, BASE_PRECISION);
  }

  /** A long of an account whose collateral exceeds what the position cost. */
  predicate FundedLong(u: User, at: nat) {
    && at < |u.positions| && u.positions[at].base > 0 && u.positions[at].entry <= 0
    && u.collateral + u.positions[at].entry > 0
  }

  /** At this ratio, a funded long the gate lets through at a price it lets through at every
      lower price whose health can be computed. */
  ghost predicate LongsHaveThreshold(ratio: u32) {
    forall u: User, at: nat, m: Market, p1: u64, p2: u64 ::
      FundedLong(u, at) && m.marginMaintenance == ratio && p1 <= p2
      && HealthOf(u.collateral, u.positions[at], p1, m).Ok? && RequireLiquidatable(u, at, m, p2).Ok? ==>
        RequireLiquidatable(u, at, m, p1).Ok?
  }

  /** The program never caps the maintenance ratio; funded longs keep a threshold price at the
      liquidation gate if and only if it is at most 100%. */
  lemma LongThresholdIff(ratio: u32)
    ensures LongsHaveThreshold(ratio) <==> ratio <= MARGIN_PRECISION
  {
    if ratio <= MARGIN_PRECISION {
      forall u: User, at: nat, m: Market, p1: u64, p2: u64 |
        FundedLong(u, at) && m.marginMaintenance == ratio && p1 <= p2
        && HealthOf(u.collateral, u.positions[at], p1, m).Ok? && RequireLiquidatable(u, at, m, p2).Ok?
        ensures RequireLiquidatable(u, at, m, p1).Ok?
      {
        GateBelow(u, at, m, p1, p2);
      }
    } else {
      var u, m := RisingVictim(ratio);
    }
  }

  lemma GateBelow(u: User, at: nat, m: Market, p1: u64, p2: u64)
    requires at < |u.positions| && u.positions[at].base > 0 && p1 <= p2 && m.marginMaintenance <= MARGIN_PRECISION
    requires HealthOf(u.collateral, u.positions[at], p1, m).Ok? && RequireLiquidatable(u, at, m, p2).Ok?
    ensures RequireLiquidatable(u, at, m, p1).Ok?
  {
    GateIsUnderwater(u, at, m, p1);
    GateIsUnderwater(u, at, m, p2);
    hide RequireLiquidatable, HealthOf, Underwater;
    LongLiquidatableBelow(u.collateral, u.positions[at].base, u.positions[at].entry, m.marginMaintenance, p1, p2);
  }

  /** Health of a long of one whole base unit that cost one quote unit. */
  lemma WholeUnitHealth(collateral: u64, m: Market, price: u64)
    requires m.marginInitial == 0
    ensures var health := HealthOf(collateral, PerpPosition(0, BASE_PRECISION, -1, 0, 0), price, m);
      && health.Ok? && health.value.total == collateral + price - 1
      && health.value.maintenance == price * m.marginMaintenance / MARGIN_PRECISION
  {
    var p := PerpPosition(0, BASE_PRECISION, -1, 0, 0);
    assert BASE_PRECISION * price / BASE_PRECISION == price;
    assert PositionNotional(BASE_PRECISION, price) == Ok(price);
    assert UnrealizedPnl(p, price) == Ok(price - 1);
    MulMono(0, price, m.marginMaintenance);
    MulMono(price, U64_MAX, m.marginMaintenance);
    MulMono(m.marginMaintenance, U32_SPAN - 1, U64_MAX);
    FloorMono(0, price * m.marginMaintenance, MARGIN_PRECISION);
    FloorMono(price * m.marginMaintenance, U64_MAX * (U32_SPAN - 1), MARGIN_PRECISION);
    assert MarginRequirement(price, m.marginMaintenance) == Ok(price * m.marginMaintenance / MARGIN_PRECISION);
    hide PositionNotional, UnrealizedPnl;
  }

  /** Above 100%, a funded long that is safe at price 1 and liquidatable at a higher price. */
  lemma RisingVictim(ratio: u32) returns (u: User, m: Market)
    requires ratio > MARGIN_PRECISION
    ensures FundedLong(u, 0) && m.marginMaintenance == ratio
    ensures HealthOf(u.collateral, u.positions[0], 1, m).Ok? && RequireLiquidatable(u, 0, m, 1) == Err(NotLiquidatable)
    ensures RequireLiquidatable(u, 0, m, (ratio + 1) * MARGIN_PRECISION).Ok?
  {
    hide HealthOf;
    u := NewUser().(collateral := ratio, positions := [PerpPosition(0, BASE_PRECISION, -1, 0, 0)]);
    m := Created(STEEP).(marginInitial := 0, marginMaintenance := ratio);
    var high: u64 := (ratio + 1) * MARGIN_PRECISION;
    WholeUnitHealth(ratio, m, 1);
    WholeUnitHealth(ratio, m, high);
    DueAtRise(ratio);
  }

  /** At ten thousand times one more than the ratio, the requirement outgrows what the position is worth. */
  lemma DueAtRise(ratio: u32)
    requires MARGIN_PRECISION < ratio
    ensures var high := (ratio + 1) * MARGIN_PRECISION;
      ratio + high - 1 < high * ratio / MARGIN_PRECISION <= I128_MAX
    ensures 0 <= ratio / MARGIN_PRECISION <= ratio
  {
    var due := (ratio + 1) * ratio;
    assert (ratio + 1) * MARGIN_PRECISION * ratio == due * MARGIN_PRECISION;
    MulMono(MARGIN_PRECISION + 1, ratio, ratio + 1);
    MulMono(ratio + 1, U32_SPAN, ratio);
    FloorGalois(ratio + 1, ratio, MARGIN_PRECISION);
  }

  /** A history that reaches such an account: the maintenance ratio is 200%, the long is safe
      at the price it was opened at, and a rise of the price gets it liquidated. */
  lemma RisingPriceLiquidates()
    ensures FundedLong(SteepWorld().users[0], 0) && Run(PLAIN, SteepHistory()) == SteepWorld()
    ensures Step(SteepWorld(), Liquidate(0, 0, 0, 1_000_000_000)) == Err(NotLiquidatable)
    ensures Step(SteepWorld(), Liquidate(0, 0, 0, 100_000_000_000)).Ok?
  {
    SteepReaches();
    hide Run;
    var w := SteepWorld();
    var u, m := w.users[0], w.markets[0];
    assert OpenIn(0)(u.positions[0]);
    assert FindPosition(u.positions, 0) == Some(0);
    assert u.positions[0 := u.positions[0].(lastCumFunding := 0)] == u.positions;
    assert PayFunding(u, 0, 0, 0) == Ok(u);
    assert SwapMarket(m, 1, Curve.Add) == Ok(Curve.SwapResult(1001, 1002, 1));
    assert Reduce(u.positions[0], 1, 1) == Ok(Reduction(PerpPosition(0, 0, 0, 0, 0), -1));
    hide SwapMarket, Reduce, PayFunding;
    assert LiquidateClose(u, m, 0, 0, 1, 100_000_000_000).Ok?;
    hide LiquidateClose;
  }

  /** A downward closed set of prices below `n` is an initial segment. */
  lemma {:induction false} BelowThreshold(collateral: int, base: nat, entry: int, ratio: nat, n: nat) returns (t: nat)
    requires ratio <= MARGIN_PRECISION
    ensures t <= n && forall p :: 0 <= p < n ==> (Underwater(collateral, base, entry, ratio, p) <==> p < t)
  {
    if n == 0 {
      t := 0;
    } else if Underwater(collateral, base, entry, ratio, n - 1) {
      t := n;
      forall p | 0 <= p < n
        ensures Underwater(collateral, base, entry, ratio, p)
      {
        LongLiquidatableBelow(collateral, base, entry, ratio, p, n - 1);
      }
    } else {
      t := BelowThreshold(collateral, base, entry, ratio, n - 1);
    }
  }

  /** For a long, one price separates the liquidatable 64-bit prices from the safe ones. */
  lemma LongThreshold(collateral: int, base: nat, entry: int, ratio: nat) returns (t: nat)
    requires ratio <= MARGIN_PRECISION
    ensures forall p: u64 :: Underwater(collateral, base, entry, ratio, p) <==> p < t
  {
    t := BelowThreshold(collateral, base, entry, ratio, U64_MAX + 1);
  }

  lemma {:induction false} AboveThreshold(collateral: int, base: int, entry: int, ratio: nat, n: nat) returns (t: nat)
    requires base <= 0
    ensures t <= n && forall p :: 0 <= p < n ==> (Underwater(collateral, base, entry, ratio, p) <==> p >= t)
  {
    if n == 0 {
      t := 0;
    } else if Underwater(collateral, base, entry, ratio, n - 1) {
      t := AboveThreshold(collateral, base, entry, ratio, n - 1);
    } else {
      t := n;
      forall p | 0 <= p < n
        ensures !Underwater(collateral, base, entry, ratio, p)
      {
        if Underwater(collateral, base, entry, ratio, p) {
          ShortLiquidatableAbove(collateral, base, entry, ratio, p, n - 1);
        }
      }
    }
  }

  /** For a short, whatever the ratio, one price separates the safe prices from the liquidatable ones. */
  lemma ShortThreshold(collateral: int, base: int, entry: int, ratio: nat) returns (t: nat)
    requires base <= 0
    ensures forall p: u64 :: Underwater(collateral, base, entry, ratio, p) <==> p >= t
  {
    t := AboveThreshold(collateral, base, entry, ratio, U64_MAX + 1);
  }

  // ------------------------------------------------------------ safety after a margin check

  /** The account meets initial margin in `m` at `price`, with funding up to date. */
  predicate MeetsMargin(u: User, m: Market, price: u64) {
    match FindPosition(u.positions, m.index)
    case Some(at) =>
      && RequireInitial(u.collateral, u.positions[at], price, m).Ok?
      && u.positions[at].lastCumFunding == m.amm.cumFundingLong
    case None => true
  }

  predicate FundingUpToDate(u: User, m: Market) {
    match FindPosition(u.positions, m.index)
    case Some(at) => u.positions[at].lastCumFunding == m.amm.cumFundingLong
    case None => true
  }

  /** An account that meets initial margin with funding settled cannot be liquidated. */
  lemma MarginProtects(u: User, m: Market, insurance: u64, maxBase: u64, price: u64)
    requires m.marginInitial > m.marginMaintenance && MeetsMargin(u, m, price)
    ensures LiquidatePerp(u, m, insurance, maxBase, price).Err?
    ensures FindPosition(u.positions, m.index).Some? ==>
      LiquidatePerp(u, m, insurance, maxBase, price) == Err(NotLiquidatable)
  {
    match FindPosition(u.positions, m.index)
    case None =>
    case Some(at) =>
      var p := u.positions[at];
      assert FundingPayment(p.base, m.amm.cumFundingLong, p.lastCumFunding) == Ok(0);
      assert PayFunding(u, at, 0, m.amm.cumFundingLong).Ok?;
      var paid := PayFunding(u, at, 0, m.amm.cumFundingLong).value;
      assert paid.positions[at] == p && paid.collateral == u.collateral;
      HealthExact(u.collateral, p, price, m);
      var notional := Abs(p.base) * price / BASE_PRECISION;
      MulMono(0, Abs(p.base), price);
      FloorGalois(0, Abs(p.base) * price, BASE_PRECISION);
      RatioMono(notional, m.marginMaintenance, m.marginInitial);
      assert RequireLiquidatable(paid, at, m, price) == Err(NotLiquidatable);
  }

  lemma RatioMono(notional: nat, r1: nat, r2: nat)
    requires r1 <= r2
    ensures notional * r1 / MARGIN_PRECISION <= notional * r2 / MARGIN_PRECISION
  {
    Commute(notional, r1);
    Commute(notional, r2);
    MulMono(r1, r2, notional);
    FloorMono(notional * r1, notional * r2, MARGIN_PRECISION);
  }

  /** A trade that adds to an up-to-date position leaves it up to date and findable. */
  lemma AddedUpToDate(ps: seq<PerpPosition>, k: u16, isLong: bool, signed: i64, quote: i64, cum: i128)
    requires SlotsOk(ps) && AddToPosition(ps, k, isLong, signed, quote, cum).Ok?
    requires quote >= 0 && signed != 0 && (signed > 0) == isLong
    requires match FindPosition(ps, k) case Some(at) => ps[at].lastCumFunding == cum case None => true
    ensures var (after, p) := AddToPosition(ps, k, isLong, signed, quote, cum).value;
      && p.lastCumFunding == cum
      && FindPosition(after, k).Some? && after[FindPosition(after, k).value] == p
  {
    var at := AddToPositionFacts(ps, k, isLong, signed, quote, cum);
    var (after, p) := AddToPosition(ps, k, isLong, signed, quote, cum).value;
    hide AddToPosition;
    WrittenSlotFound(ps, at, p, k);
    if ps[at].base != 0 { WrittenSlotFound(ps, at, ps[at], k); assert ps[at := ps[at]] == ps; }
  }

  lemma OpenMeetsMargin(u: User, m: Market, feeBps: u16, dir: Direction, size: u64, limit: u64, price: u64)
    requires UserOk(u) && CurveOk(m.amm) && size <= I64_MAX && FundingUpToDate(u, m)
    requires ExecuteAmmOpen(u, m, feeBps, dir, size, limit, price).Ok?
    ensures var r := ExecuteAmmOpen(u, m, feeBps, dir, size, limit, price).value;
      MeetsMargin(r.user, r.market, price)
  {
    hide ExecuteAmmOpen, AddToPosition, PriceTrade;
    var priced, added := OpenShape(u, m, feeBps, dir, size, limit, price);
    PriceFacts(m, feeBps, size, limit, dir == Long);
    OpenMarketFacts(m, priced, dir == Long, size);
    AddedUpToDate(u.positions, m.index, dir == Long, if dir == Long then size else 0 - size, priced.swap.quote,
                  m.amm.cumFundingLong);
    hide RequireInitial;
  }

  lemma LegMeetsMargin(u: User, m: Market, dir: Direction, size: u64, quote: u128, delta: i64, price: u64)
    requires UserOk(u) && 0 < size <= I64_MAX && quote <= I128_MAX && FundingUpToDate(u, m)
    requires ApplyMatchLeg(u, m, dir, size, quote, delta, price).Ok?
    ensures var (u', m') := ApplyMatchLeg(u, m, dir, size, quote, delta, price).value;
      MeetsMargin(u', m', price)
  {
    hide ApplyMatchLeg, AddToPosition;
    var added := MatchLegShape(u, m, dir, size, quote, delta, price);
    AddedUpToDate(u.positions, m.index, dir == Long, if dir == Long then size else 0 - size, quote,
                  m.amm.cumFundingLong);
    hide RequireInitial;
  }

  /** The order a fill executes opens or adds to a position. */
  predicate FillsOpening(u: User, id: u32) {
    var slot := FindOrder(u.orders, id);
    slot.Ok? && !u.orders[slot.value].reduceOnly
  }

  /** The steps that check the margin of user `i` in market `k` at `price`. */
  predicate ChecksMargin(w: World, ix: Instruction, i: nat, k: nat, price: u64)
    requires i < |w.users|
  {
    match ix
    case Withdraw(u, m, _, p) => u == i && m == k && p == price
    case OpenTrade(u, m, _, _, _, p) => u == i && m == k && p == price
    case Fill(u, m, id, p) => u == i && m == k && p == price && FillsOpening(w.users[i], id)
    case Match(t, u, m, _, _, p) => (t == i || u == i) && m == k && p == price
    case _ => false
  }

  lemma WithdrawMeetsMargin(cfg: Config, u: User, m: Market, amount: u64, price: u64)
    requires FundingUpToDate(u, m) && WithdrawCollateral(cfg, u, m, amount, price).Ok?
    ensures MeetsMargin(WithdrawCollateral(cfg, u, m, amount, price).value, m, price)
  {
  }

  lemma FillMeetsMargin(cfg: Config, u: User, m: Market, id: u32, price: u64)
    requires UserOk(u) && MarketOk(m) && FundingUpToDate(u, m) && FillsOpening(u, id)
    requires FillOrder(cfg, u, m, id, price).Ok?
    ensures var r := FillOrder(cfg, u, m, id, price).value;
      MeetsMargin(r.0, r.1, price)
  {
    hide ExecuteAmmOpen, RequireInitial;
    var order := u.orders[FindOrder(u.orders, id).value];
    OpenMeetsMargin(u, m, cfg.takerFeeBps, order.direction, order.Remaining(), order.price, price);
  }

  /** Margin met in a market is margin met in one with the same ratios and funding. */
  lemma SameMargin(u: User, m: Market, u': User, m': Market, price: u64)
    requires MeetsMargin(u, m, price) && u'.collateral == u.collateral && u'.positions == u.positions
    requires m'.index == m.index && m'.marginInitial == m.marginInitial && m'.marginMaintenance == m.marginMaintenance
    requires m'.amm.cumFundingLong == m.amm.cumFundingLong
    ensures MeetsMargin(u', m', price)
  {
  }

  lemma MatchMeetsMargin(cfg: Config, taker: User, maker: User, m: Market, takerId: u32, makerId: u32, price: u64)
    requires UserOk(taker) && UserOk(maker)
    requires FillMatch(cfg, taker, maker, false, m, takerId, makerId, price).Ok?
    ensures var f := FillMatch(cfg, taker, maker, false, m, takerId, makerId, price).value;
      && (FundingUpToDate(taker, m) ==> MeetsMargin(f.taker, f.market, price))
      && (FundingUpToDate(maker, m) ==> MeetsMargin(f.maker, f.market, price))
  {
    hide ExecuteMakerMatch, ApplyMatchLeg, CheckMatch, MeetsMargin, PriceMatch;
    var pair := CheckMatch(cfg, taker, maker, false, m, takerId, makerId).value;
    CheckMatchSize(cfg, taker, maker, false, m, takerId, makerId);
    var bid, ask := taker.orders[pair.takerSlot], maker.orders[pair.makerSlot];
    var f := FillMatch(cfg, taker, maker, false, m, takerId, makerId, price).value;
    var priced, first, second :=
      MatchShape(taker, maker, m, cfg.takerFeeBps, cfg.makerRebateBps, bid.direction, pair.size, ask.price, price);
    LegOnlyTrades(taker, m, bid.direction, pair.size, priced.quote, 0 - priced.fee, price);
    LegOnlyTrades(maker, first.1, Opposite(bid.direction), pair.size, priced.quote, priced.rebate, price);
    if FundingUpToDate(taker, m) {
      LegMeetsMargin(taker, m, bid.direction, pair.size, priced.quote, 0 - priced.fee, price);
      SameMargin(first.0, first.1, f.taker, f.market, price);
    }
    if FundingUpToDate(maker, m) {
      LegMeetsMargin(maker, first.1, Opposite(bid.direction), pair.size, priced.quote, priced.rebate, price);
      SameMargin(second.0, second.1, f.maker, f.market, price);
    }
  }

  /** A step that checks an up-to-date account's margin leaves it met. */
  lemma CheckedMeetsMargin(w: World, ix: Instruction, w': World, i: nat, k: nat, price: u64)
    requires WorldOk(w) && WellSized(ix) && Step(w, ix) == Ok(w')
    requires i < |w.users| && k < |w.markets| && ChecksMargin(w, ix, i, k, price)
    requires FundingUpToDate(w.users[i], w.markets[k])
    ensures i < |w'.users| && k < |w'.markets| && MeetsMargin(w'.users[i], w'.markets[k], price)
  {
    var u, m := w.users[i], w.markets[k];
    hide WithdrawCollateral, FillOrder, FillMatch, ExecuteAmmOpen, MeetsMargin, WorldOk;
    assert UserOk(u) && MarketOk(m) by { SoundParts(w, i, k); }
    match ix
    case Withdraw(_, _, amount, _) => WithdrawMeetsMargin(w.config, u, m, amount, price);
    case OpenTrade(_, _, dir, size, limit, _) => OpenMeetsMargin(u, m, w.config.takerFeeBps, dir, size, limit, price);
    case Fill(_, _, id, _) => FillMeetsMargin(w.config, u, m, id, price);
    case Match(t, j, _, takerId, makerId, _) =>
      FillMatchOnlyTrades(w.config, w.users[t], w.users[j], t == j, m, takerId, makerId, price);
      SoundParts(w, t, k);
      SoundParts(w, j, k);
      MatchMeetsMargin(w.config, w.users[t], w.users[j], m, takerId, makerId, price);
  }

  lemma SoundParts(w: World, i: nat, k: nat)
    requires WorldOk(w) && i < |w.users| && k < |w.markets|
    ensures UserOk(w.users[i]) && MarketOk(w.markets[k]) && w.markets[k].index == k
  {
  }

  /** Nobody touches the account, and neither funding nor ratios of the market change. */
  predicate Undisturbed(history: seq<Instruction>, i: nat, k: nat) {
    forall j :: 0 <= j < |history| ==>
      && i !in UsersOf(history[j])
      && !((history[j].CrankFunding? || history[j].SetParams?) && history[j].market == k)
  }

  /** Whatever others do meanwhile, the account and the market's risk terms stay the same. */
  lemma {:induction false} UndisturbedFrame(w: World, history: seq<Instruction>, i: nat, k: nat)
    requires i < |w.users| && k < |w.markets| && Undisturbed(history, i, k)
    ensures var w' := RunFrom(w, history);
      && i < |w'.users| && k < |w'.markets|
      && w'.users[i] == w.users[i]
      && w'.markets[k].index == w.markets[k].index
      && w'.markets[k].marginInitial == w.markets[k].marginInitial
      && w'.markets[k].marginMaintenance == w.markets[k].marginMaintenance
      && w'.markets[k].amm.cumFundingLong == w.markets[k].amm.cumFundingLong
  {
    hide Step;
    if history == [] {
    } else {
      var n := |history| - 1;
      UndisturbedFrame(w, history[..n], i, k);
      var w1 := RunFrom(w, history[..n]);
      if Step(w1, history[n]).Ok? {
        UserFrame(w1, history[n], Step(w1, history[n]).value, i);
        MarketFrame(w1, history[n], Step(w1, history[n]).value, k);
        TradedTerms(w1, history[n], Step(w1, history[n]).value, k);
      }
    }
  }

  lemma TradedTerms(w: World, ix: Instruction, w': World, k: nat)
    requires Step(w, ix) == Ok(w') && k < |w.markets|
    requires !((ix.CrankFunding? || ix.SetParams?) && ix.market == k)
    ensures k < |w'.markets|
    ensures w'.markets[k].index == w.markets[k].index
    ensures w'.markets[k].marginInitial == w.markets[k].marginInitial
    ensures w'.markets[k].marginMaintenance == w.markets[k].marginMaintenance
    ensures w'.markets[k].amm.cumFundingLong == w.markets[k].amm.cumFundingLong
  {
    hide Step;
    MarketFrame(w, ix, w', k);
  }

  /** An account with up-to-date funding that has just passed a margin check cannot be
      liquidated in that market at that price, whatever other users do meanwhile, until its
      own account, the market's funding or its ratios change. */
  lemma {:induction false} SafeFromLiquidation(w: World, ix: Instruction, w': World, rest: seq<Instruction>, i: nat,
                                               k: u16, price: u64, maxBase: u64)
    requires WorldOk(w) && WellSized(ix) && Step(w, ix) == Ok(w')
    requires i < |w.users| && k < |w.markets| && ChecksMargin(w, ix, i, k, price)
    requires FundingUpToDate(w.users[i], w.markets[k])
    requires Undisturbed(rest, i, k)
    ensures Step(RunFrom(w', rest), Liquidate(i, k, maxBase, price)).Err?
  {
    CheckedMeetsMargin(w, ix, w', i, k, price);
    StepAccounted(w, ix, w');
    UndisturbedFrame(w', rest, i, k);
    var late := RunFrom(w', rest);
    SoundParts(w', i, k);
    LateProtected(w', late, i, k, price, maxBase);
  }

  lemma LateProtected(w: World, late: World, i: nat, k: u16, price: u64, maxBase: u64)
    requires i < |w.users| && k < |w.markets| && MarketOk(w.markets[k]) && MeetsMargin(w.users[i], w.markets[k], price)
    requires i < |late.users| && k < |late.markets| && late.users[i] == w.users[i]
    requires late.markets[k].index == w.markets[k].index
    requires late.markets[k].marginInitial == w.markets[k].marginInitial
    requires late.markets[k].marginMaintenance == w.markets[k].marginMaintenance
    requires late.markets[k].amm.cumFundingLong == w.markets[k].amm.cumFundingLong
    ensures Step(late, Liquidate(i, k, maxBase, price)).Err?
  {
    hide LiquidatePerp;
    SameMargin(w.users[i], w.markets[k], late.users[i], late.markets[k], price);
    hide MeetsMargin;
    MarginProtects(late.users[i], late.markets[k], late.insurance, maxBase, price);
  }
}
