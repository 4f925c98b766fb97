/** Positions that can only shrink: closes of every kind, and what a halted market allows. */
module Breaker {
  import opened Numbers
  import opened Sequences
  import opened State
  import opened Curve
  import opened Margin
  import opened Controller
  import opened Instructions
  import opened Protocol
  import opened Bookkeeping
  import opened Ledger
  import opened Liquidations
  import opened Steps
  import opened Runs
  import opened Frames
  import RoundTrip

  // ------------------------------------------------------------ shrinking

  /** No larger than before on the same side, in base and in cost basis. */
  predicate Within(x: int, whole: int) {
    0 <= x <= whole || whole <= x <= 0
  }

  /** Every position of market `k` was there before and was at least as large. */
  predicate Reduces(ps: seq<PerpPosition>, qs: seq<PerpPosition>, k: int) {
    && |ps| == |qs|
    && forall at :: 0 <= at < |qs| && qs[at].IsOpen() && qs[at].marketIndex == k ==>
         && ps[at].marketIndex == k
         && Within(qs[at].base, ps[at].base)
         && Within(qs[at].entry, ps[at].entry)
  }

  lemma ReducesTrans(ps: seq<PerpPosition>, qs: seq<PerpPosition>, rs: seq<PerpPosition>, k: int)
    requires Reduces(ps, qs, k) && Reduces(qs, rs, k)
    ensures Reduces(ps, rs, k)
  {
  }

  lemma ReducesSame(ps: seq<PerpPosition>, qs: seq<PerpPosition>, k: int)
    requires SlotsOk(ps) && SameExposure(ps, qs)
    ensures Reduces(ps, qs, k)
  {
  }

  /** A slot written for another market changes nothing in this one. */
  lemma ReducesElsewhere(ps: seq<PerpPosition>, at: nat, p: PerpPosition, k: int)
    requires SlotsOk(ps) && at < |ps| && p.marketIndex != k
    ensures Reduces(ps, ps[at := p], k)
  {
  }

  /** What a close of any kind leaves is a part of what was there. */
  lemma ReduceShrinks(p: PerpPosition, size: u64, quote: u128)
    requires SlotOk(p) && p.base != 0 && 0 < size <= Abs(p.base)
    requires Reduce(p, size, quote).Ok?
    ensures var p' := Reduce(p, size, quote).value.position;
      p'.marketIndex == p.marketIndex && Within(p'.base, p.base) && Within(p'.entry, p.entry)
  {
    DecreaseFacts(p, size, CostBasisClosed(p.entry, size, Abs(p.base)).value);
  }

  lemma CloseReduces(u: User, m: Market, feeBps: u16, at: nat, size: u64, limit: u64, k: int)
    requires UserOk(u) && at < |u.positions| && ExecuteAmmClose(u, m, feeBps, at, size, limit).Ok?
    ensures Reduces(u.positions, ExecuteAmmClose(u, m, feeBps, at, size, limit).value.user.positions, k)
    ensures var m' := ExecuteAmmClose(u, m, feeBps, at, size, limit).value.market;
      m'.oiLong <= m.oiLong && m'.oiShort <= m.oiShort
  {
    var priced, reduction := CloseShape(u, m, feeBps, at, size, limit);
    hide ExecuteAmmClose;
    assert SlotOk(u.positions[at]);
    ReduceShrinks(u.positions[at], size, priced.swap.quote);
  }

  lemma LiquidateReduces(u: User, m: Market, insurance: u64, maxBase: u64, price: u64, k: int)
    requires UserOk(u) && LiquidatePerp(u, m, insurance, maxBase, price).Ok?
    ensures var l := LiquidatePerp(u, m, insurance, maxBase, price).value;
      && Reduces(u.positions, l.user.positions, k)
      && l.market.oiLong <= m.oiLong && l.market.oiShort <= m.oiShort
  {
    var at, payment, paid := LiquidatePerpShape(u, m, insurance, maxBase, price);
    var p := paid.positions[at];
    var size := CloseSize(maxBase, Abs(p.base));
    var swap, reduction, fee := LiquidateShape(paid, m, insurance, at, size, price);
    hide LiquidatePerp, LiquidateClose;
    assert SlotOk(p) && SlotOk(u.positions[at]);
    ReduceShrinks(p, size, swap.quote);
    ReducesSame(u.positions, paid.positions, k);
  }

  /** Adding to a position writes one slot of its own market. */
  lemma AddWritesOneSlot(ps: seq<PerpPosition>, j: u16, isLong: bool, signed: i64, quote: i64, cum: i128, k: int)
    requires SlotsOk(ps) && AddToPosition(ps, j, isLong, signed, quote, cum).Ok? && k != j
    ensures Reduces(ps, AddToPosition(ps, j, isLong, signed, quote, cum).value.0, k)
  {
    var (after, p) := AddToPosition(ps, j, isLong, signed, quote, cum).value;
    var (target, at) := TargetPosition(ps, j, isLong).value;
    TargetIsOnly(ps, j, isLong, p);
    ReducesElsewhere(ps, at, p, k);
  }

  lemma OpenElsewhere(u: User, m: Market, feeBps: u16, dir: Direction, size: u64, limit: u64, price: u64, k: int)
    requires UserOk(u) && k != m.index && ExecuteAmmOpen(u, m, feeBps, dir, size, limit, price).Ok?
    ensures Reduces(u.positions, ExecuteAmmOpen(u, m, feeBps, dir, size, limit, price).value.user.positions, k)
  {
    var priced, added := OpenShape(u, m, feeBps, dir, size, limit, price);
    hide ExecuteAmmOpen, AddToPosition;
    AddWritesOneSlot(u.positions, m.index, dir == Long, SignedBase(size, dir == Long).value, AsI128(priced.swap.quote),
                     m.amm.cumFundingLong, k);
  }

  lemma LegElsewhere(u: User, m: Market, dir: Direction, size: u64, quote: u128, delta: i64, price: u64, k: int)
    requires UserOk(u) && k != m.index && quote <= I128_MAX && ApplyMatchLeg(u, m, dir, size, quote, delta, price).Ok?
    ensures Reduces(u.positions, ApplyMatchLeg(u, m, dir, size, quote, delta, price).value.0.positions, k)
  {
    var added := MatchLegShape(u, m, dir, size, quote, delta, price);
    hide ApplyMatchLeg, AddToPosition;
    AddWritesOneSlot(u.positions, m.index, dir == Long, SignedBase(size, dir == Long).value, quote,
                     m.amm.cumFundingLong, k);
  }

  // ------------------------------------------------------------ handlers

  /** The order `id` of `u` is one that only reduces. */
  predicate FillsReduceOnly(u: User, id: u32) {
    FindOrder(u.orders, id).Ok? ==> u.orders[FindOrder(u.orders, id).value].reduceOnly
  }

  lemma FillReduces(cfg: Config, u: User, m: Market, id: u32, price: u64, k: int)
    requires UserOk(u) && FillOrder(cfg, u, m, id, price).Ok? && (k != m.index || FillsReduceOnly(u, id))
    ensures var r := FillOrder(cfg, u, m, id, price).value;
      && Reduces(u.positions, r.0.positions, k)
      && (FillsReduceOnly(u, id) ==> r.1.oiLong <= m.oiLong && r.1.oiShort <= m.oiShort)
  {
    hide ExecuteAmmOpen, ExecuteAmmClose;
    var order := u.orders[FindOrder(u.orders, id).value];
    if order.reduceOnly {
      var i := FindPosition(u.positions, m.index).value;
      CloseReduces(u, m, cfg.takerFeeBps, i, Min(order.Remaining(), Abs(u.positions[i].base)), order.price, k);
    } else {
      OpenElsewhere(u, m, cfg.takerFeeBps, order.direction, order.Remaining(), order.price, price, k);
    }
  }

  lemma TriggerReduces(cfg: Config, u: User, m: Market, id: u32, price: u64, k: int)
    requires UserOk(u) && TriggerOrder(cfg, u, m, id, price).Ok?
    ensures var r := TriggerOrder(cfg, u, m, id, price).value;
      Reduces(u.positions, r.0.positions, k) && r.1.oiLong <= m.oiLong && r.1.oiShort <= m.oiShort
  {
    hide ExecuteAmmClose;
    var order := u.orders[FindOrder(u.orders, id).value];
    var i := FindPosition(u.positions, m.index).value;
    CloseReduces(u, m, cfg.takerFeeBps, i, Min(order.Remaining(), Abs(u.positions[i].base)),
                 if order.orderType == TriggerLimit then order.price else 0, k);
  }

  lemma ClosePositionReduces(cfg: Config, u: User, m: Market, size: u64, limit: u64, k: int)
    requires UserOk(u) && ClosePosition(cfg, u, m, size, limit).Ok?
    ensures var r := ClosePosition(cfg, u, m, size, limit).value;
      Reduces(u.positions, r.0.positions, k) && r.1.oiLong <= m.oiLong && r.1.oiShort <= m.oiShort
  {
    hide ExecuteAmmClose;
    var i := FindPosition(u.positions, m.index).value;
    CloseReduces(u, m, cfg.takerFeeBps, i, CloseSize(size, Abs(u.positions[i].base)), limit, k);
  }

  lemma OpenPositionElsewhere(cfg: Config, u: User, m: Market, dir: Direction, size: u64, limit: u64, price: u64,
                              k: int)
    requires UserOk(u) && k != m.index && OpenPosition(cfg, u, m, dir, size, limit, price).Ok?
    ensures Reduces(u.positions, OpenPosition(cfg, u, m, dir, size, limit, price).value.0.positions, k)
  {
    hide ExecuteAmmOpen;
    OpenElsewhere(u, m, cfg.takerFeeBps, dir, size, limit, price, k);
  }

  lemma MatchElsewhere(cfg: Config, taker: User, maker: User, same: bool, m: Market, takerId: u32, makerId: u32,
                       price: u64, k: int)
    requires UserOk(taker) && UserOk(maker) && k != m.index
    requires FillMatch(cfg, taker, maker, same, m, takerId, makerId, price).Ok?
    ensures var f := FillMatch(cfg, taker, maker, same, m, takerId, makerId, price).value;
      && Reduces(taker.positions, f.taker.positions, k)
      && Reduces(maker.positions, f.maker.positions, k)
  {
    hide ExecuteMakerMatch, CheckMatch, ApplyMatchLeg, PriceMatch;
    var pair := CheckMatch(cfg, taker, maker, same, m, takerId, makerId).value;
    var dir, fillPrice := taker.orders[pair.takerSlot].direction, maker.orders[pair.makerSlot].price;
    var priced, first, second := MatchShape(taker, maker, m, cfg.takerFeeBps, cfg.makerRebateBps, dir, pair.size,
                                            fillPrice, price);
    LegOnlyTrades(taker, m, dir, pair.size, priced.quote, 0 - priced.fee, price);
    hide FillMatch;
    LegElsewhere(taker, m, dir, pair.size, priced.quote, 0 - priced.fee, price, k);
    LegElsewhere(maker, first.1, Opposite(dir), pair.size, priced.quote, priced.rebate, price, k);
  }

  // ------------------------------------------------------------ steps

  /** The step does not add to the position of user `i` in market `k`. */
  predicate OnlyReduces(w: World, ix: Instruction, i: nat, k: nat) {
    i in UsersOf(ix) && MarketOf(ix) == Some(k) ==>
      && !ix.OpenTrade? && !ix.Match?
      && (ix.Fill? && i < |w.users| ==> FillsReduceOnly(w.users[i], ix.id))
  }

  /** Such a step can only shrink that position. */
  lemma StepReduces(w: World, ix: Instruction, w': World, i: nat, k: nat)
    requires WorldOk(w) && Step(w, ix) == Ok(w') && i < |w.users| && OnlyReduces(w, ix, i, k)
    ensures i < |w'.users| && Reduces(w.users[i].positions, w'.users[i].positions, k)
  {
    if i !in UsersOf(ix) {
      UserFrame(w, ix, w', i);
      ReducesSame(w.users[i].positions, w'.users[i].positions, k);
    } else {
      assert UserOk(w.users[i]);
      NamedReduces(w, ix, w', i, k);
    }
  }

  lemma NamedReduces(w: World, ix: Instruction, w': World, i: nat, k: nat)
    requires WorldOk(w) && Step(w, ix) == Ok(w') && i < |w.users| && OnlyReduces(w, ix, i, k) && i in UsersOf(ix)
    ensures i < |w'.users| && Reduces(w.users[i].positions, w'.users[i].positions, k)
  {
    hide OpenPosition, ClosePosition, FillOrder, TriggerOrder, FillMatch, LiquidatePerp, SettleFunding, Reduces;
    var u := w.users[i];
    match ix
    case OpenTrade(_, j, dir, size, limit, price) =>
      OpenPositionElsewhere(w.config, u, w.markets[j], dir, size, limit, price, k);
    case Close(_, j, size, limit) => ClosePositionReduces(w.config, u, w.markets[j], size, limit, k);
    case Fill(_, j, id, price) => FillReduces(w.config, u, w.markets[j], id, price, k);
    case Trigger(_, j, id, price) => TriggerReduces(w.config, u, w.markets[j], id, price, k);
    case Liquidate(_, j, maxBase, price) => LiquidateReduces(u, w.markets[j], w.insurance, maxBase, price, k);
    case Match(t, m, j, takerId, makerId, price) =>
      assert UserOk(w.users[t]) && UserOk(w.users[m]);
      MatchElsewhere(w.config, w.users[t], w.users[m], t == m, w.markets[j], takerId, makerId, price, k);
    case _ => QuietReduces(w, ix, w', i, k);
  }

  predicate Trades(ix: Instruction) { ix.OpenTrade? || ix.Match? || ClosesIn(ix) }

  /** Instructions that trade nothing leave every exposure as it was. */
  lemma QuietReduces(w: World, ix: Instruction, w': World, i: nat, k: nat)
    requires WorldOk(w) && Step(w, ix) == Ok(w') && i < |w.users| && !Trades(ix)
    ensures i < |w'.users| && Reduces(w.users[i].positions, w'.users[i].positions, k)
    ensures SameExposure(w.users[i].positions, w'.users[i].positions)
  {
    assert UserOk(w.users[i]);
    if ix.Settle? {
      assert UserOk(w.users[ix.user]);
      var at, payment, paid := SettleShape(w.users[ix.user], w.markets[ix.market]);
      hide SettleFunding;
    }
    ReducesSame(w.users[i].positions, w'.users[i].positions, k);
  }

  // ------------------------------------------------------------ the circuit breaker

  /** The protocol is paused, or the market is not active. */
  predicate Halted(w: World, k: nat) {
    w.config.paused || (k < |w.markets| && w.markets[k].status != Active)
  }

  /** While a market is halted no instruction adds to anyone's position in it. */
  lemma HaltedOnlyReduces(w: World, ix: Instruction, w': World, i: nat, k: nat)
    requires WorldOk(w) && Step(w, ix) == Ok(w') && k < |w.markets| && Halted(w, k)
    ensures OnlyReduces(w, ix, i, k)
  {
    hide ExecuteAmmOpen, ExecuteAmmClose, ExecuteMakerMatch, ClosePosition, TriggerOrder, LiquidatePerp;
  }

  /** Nor does it raise the open interest of either side. */
  lemma HaltedOpenInterest(w: World, ix: Instruction, w': World, k: nat)
    requires WorldOk(w) && Step(w, ix) == Ok(w') && k < |w.markets| && Halted(w, k)
    ensures k < |w'.markets|
    ensures w'.markets[k].oiLong <= w.markets[k].oiLong && w'.markets[k].oiShort <= w.markets[k].oiShort
  {
    MarketFrame(w, ix, w', k);
    if MarketOf(ix) == Some(k) {
      NamedOpenInterest(w, ix, w', k);
    }
  }

  lemma NamedOpenInterest(w: World, ix: Instruction, w': World, k: nat)
    requires WorldOk(w) && Step(w, ix) == Ok(w') && k < |w.markets| && Halted(w, k) && MarketOf(ix) == Some(k)
    ensures k < |w'.markets|
    ensures w'.markets[k].oiLong <= w.markets[k].oiLong && w'.markets[k].oiShort <= w.markets[k].oiShort
  {
    var m := w.markets[k];
    if ix.CrankFunding? {
      FundingRateKeeps(m, ix.price, ix.now);
      hide UpdateFundingRate;
    } else if !ix.SetParams? {
      var i := if ix.Match? then ix.taker else ix.user;
      HaltedOnlyReduces(w, ix, w', i, k);
      hide OpenPosition, ClosePosition, FillOrder, TriggerOrder, FillMatch, LiquidatePerp, SettleFunding, Reduces;
      var u := w.users[i];
      assert UserOk(u);
      if ix.Close? { ClosePositionReduces(w.config, u, m, ix.size, ix.limit, k); }
      if ix.Fill? { FillReduces(w.config, u, m, ix.id, ix.price, k); }
      if ix.Trigger? { TriggerReduces(w.config, u, m, ix.id, ix.price, k); }
      if ix.Liquidate? { LiquidateReduces(u, m, w.insurance, ix.maxBase, ix.price, k); }
    }
  }

  function PositionsOf(w: World, i: nat): seq<PerpPosition> {
    if i < |w.users| then w.users[i].positions else NewUser().positions
  }

  lemma HaltedStep(w: World, ix: Instruction, w': World, i: nat, k: nat)
    requires WorldOk(w) && Step(w, ix) == Ok(w') && k < |w.markets| && Halted(w, k)
    ensures Reduces(PositionsOf(w, i), PositionsOf(w', i), k)
  {
    if i < |w.users| {
      HaltedOnlyReduces(w, ix, w', i, k);
      StepReduces(w, ix, w', i, k);
    } else {
      NobodyElse(w, ix, w', i);
    }
  }

  /** An account that does not exist yet holds nothing, also once it is created. */
  lemma NobodyElse(w: World, ix: Instruction, w': World, i: nat)
    requires Step(w, ix) == Ok(w') && i >= |w.users|
    ensures PositionsOf(w', i) == NewUser().positions
  {
    hide OpenPosition, ClosePosition, FillOrder, TriggerOrder, FillMatch, LiquidatePerp;
  }

  ghost predicate HaltedThroughout(w: World, history: seq<Instruction>, k: nat) {
    history != [] ==>
    && HaltedThroughout(w, history[..|history| - 1], k)
    && Halted(RunFrom(w, history[..|history| - 1]), k)
  }

  /** From when a market is halted until it is restored, whatever is sent, nobody's position
      in it grows or flips and neither side's open interest increases. */
  lemma {:induction false} BreakerHolds(w: World, history: seq<Instruction>, k: nat)
    requires WorldOk(w) && AllWellSized(history) && k < |w.markets| && HaltedThroughout(w, history, k)
    ensures var w' := RunFrom(w, history);
      && k < |w'.markets|
      && w'.markets[k].oiLong <= w.markets[k].oiLong && w'.markets[k].oiShort <= w.markets[k].oiShort
      && forall i: nat :: Reduces(PositionsOf(w, i), PositionsOf(w', i), k)
  {
    hide Step, Reduces, PositionsOf, WorldOk;
    if history == [] {
      forall i: nat { NoChange(w, i, k); }
    } else {
      var n := |history| - 1;
      BreakerHolds(w, history[..n], k);
      SoundFrom(w, history[..n]);
      var before := RunFrom(w, history[..n]);
      if Step(before, history[n]).Ok? {
        var w' := Step(before, history[n]).value;
        HaltedOpenInterest(before, history[n], w', k);
        forall i: nat
          ensures Reduces(PositionsOf(w, i), PositionsOf(w', i), k)
        {
          HaltedStep(before, history[n], w', i, k);
          ReducesTrans(PositionsOf(w, i), PositionsOf(before, i), PositionsOf(w', i), k);
        }
      }
    }
  }

  lemma NoChange(w: World, i: nat, k: nat)
    requires WorldOk(w)
    ensures Reduces(PositionsOf(w, i), PositionsOf(w, i), k)
  {
    if i < |w.users| {
      assert UserOk(w.users[i]);
      ReducesSame(PositionsOf(w, i), PositionsOf(w, i), k);
    }
  }

  // ------------------------------------------------------------ cost basis removed

  /** Cost basis a step takes out of the position of user `i` in market `k`: the profit it
      books and the quote the AMM took in for it. */
  function Removed(i: nat, k: nat): (World, Instruction, World) -> int {
    (w: World, ix: Instruction, w': World) =>
      if ClosesIn(ix) && ix.user == i && ix.market == k then RealizedAt(k)(w, ix, w') + QuoteAt(k)(w, ix, w') else 0
  }

  lemma SameEntry(u: User, u': User, k: int)
    requires SameExposure(u.positions, u'.positions)
    ensures UserEntry(k)(u') == UserEntry(k)(u)
  {
    SameSum(u.positions, u'.positions, EntryIn(k));
  }

  lemma LiquidateEntry(w: World, ix: Instruction, w': World, k: nat)
    requires WorldOk(w) && ix.Liquidate? && Step(w, ix) == Ok(w')
    ensures ix.user < |w'.users|
    ensures UserEntry(k)(w'.users[ix.user]) == UserEntry(k)(w.users[ix.user]) - Removed(ix.user, k)(w, ix, w')
  {
    var u, m := w.users[ix.user], w.markets[ix.market];
    assert UserOk(u) && MarketOk(m);
    var at, payment, paid := LiquidatePerpShape(u, m, w.insurance, ix.maxBase, ix.price);
    var l := LiquidatePerp(u, m, w.insurance, ix.maxBase, ix.price).value;
    hide LiquidatePerp, LiquidateClose, Leg;
    PositionWithinOpenInterest(w, ix.user, ix.market, at);
    LiquidateFacts(paid, m, w.insurance, at, CloseSize(ix.maxBase, Abs(paid.positions[at].base)), ix.price);
    SameEntry(u, paid, k);
    LegEntry(paid, m, l.user, l.market, QuoteIn(m.amm, l.market.amm), l.user.settledPnl - paid.settledPnl,
             l.insurance - w.insurance, k);
    assert w' == WithInsurance(WithTrade(w, ix.user, ix.market, (l.user, l.market)), l.insurance);
    RemovedByTrade(w, ix, w', k);
    hide *;
  }

  lemma TradeEntry(w: World, ix: Instruction, w': World, k: nat, t: (User, Market))
    requires WorldOk(w) && Loadable(w, ix) && (ix.OpenTrade? || ClosesIn(ix))
    requires ix.user < |w.users| && ix.market < |w.markets|
    requires Traded(w.users[ix.user], w.markets[ix.market], t.0, t.1)
    requires ix.OpenTrade? ==> ix.market != k
    requires w' == WithTrade(w, ix.user, ix.market, t)
    ensures UserEntry(k)(w'.users[ix.user]) == UserEntry(k)(w.users[ix.user]) - Removed(ix.user, k)(w, ix, w')
  {
    LegEntry(w.users[ix.user], w.markets[ix.market], t.0, t.1, QuoteIn(w.markets[ix.market].amm, t.1.amm),
             t.0.settledPnl - w.users[ix.user].settledPnl, t.1.amm.totalFee - w.markets[ix.market].amm.totalFee, k);
    hide Traded, WorldOk, QuoteIn;
    if ClosesIn(ix) { RemovedByTrade(w, ix, w', k); }
    hide Removed;
  }

  lemma RemovedByTrade(w: World, ix: Instruction, w': World, k: nat)
    requires ClosesIn(ix) && ix.user < |w.users| && ix.market < |w.markets|
    requires ix.user < |w'.users| && |w'.markets| == |w.markets|
    ensures Removed(ix.user, k)(w, ix, w')
      == if ix.market != k then 0
         else QuoteIn(w.markets[k].amm, w'.markets[k].amm) + w'.users[ix.user].settledPnl - w.users[ix.user].settledPnl
  {
    hide QuoteIn;
    assert MarketOf(ix) == Some(ix.market);
    if ix.market == k {
      assert QuoteAt(k)(w, ix, w') == QuoteIn(w.markets[k].amm, w'.markets[k].amm);
      assert RealizedAt(k)(w, ix, w') == w'.users[ix.user].settledPnl - w.users[ix.user].settledPnl;
      assert Removed(ix.user, k)(w, ix, w') == RealizedAt(k)(w, ix, w') + QuoteAt(k)(w, ix, w');
    }
  }

  lemma LegEntry(u: User, m: Market, u': User, m': Market, paid: int, realized: int, charge: int, k: int)
    requires Leg(u, m, u', m', paid, realized, charge)
    ensures UserEntry(k)(u') == UserEntry(k)(u) - (if k == m.index then paid + realized else 0)
  {
  }

  lemma AmmTradeEntry(w: World, ix: Instruction, w': World, k: nat)
    requires WorldOk(w) && WellSized(ix) && Step(w, ix) == Ok(w')
    requires ix.OpenTrade? || ix.Close? || ix.Fill? || ix.Trigger?
    requires ix.OpenTrade? ==> ix.market != k
    ensures UserEntry(k)(w'.users[ix.user]) == UserEntry(k)(w.users[ix.user]) - Removed(ix.user, k)(w, ix, w')
  {
    hide OpenPosition, ClosePosition, FillOrder, TriggerOrder, Traded;
    var u, m := w.users[ix.user], w.markets[ix.market];
    ListedAll(w, ix.user, ix.market);
    assert UserOk(u) && MarketOk(m);
    if ix.OpenTrade? {
      OpenPositionTraded(w.config, u, m, ix.direction, ix.size, ix.limit, ix.price);
      TradeEntry(w, ix, w', k, OpenPosition(w.config, u, m, ix.direction, ix.size, ix.limit, ix.price).value);
    } else if ix.Close? {
      ClosePositionTraded(w.config, u, m, ix.size, ix.limit);
      TradeEntry(w, ix, w', k, ClosePosition(w.config, u, m, ix.size, ix.limit).value);
    } else if ix.Fill? {
      FillOrderTraded(w.config, u, m, ix.id, ix.price);
      TradeEntry(w, ix, w', k, FillOrder(w.config, u, m, ix.id, ix.price).value);
    } else {
      TriggerOrderTraded(w.config, u, m, ix.id, ix.price);
      TradeEntry(w, ix, w', k, TriggerOrder(w.config, u, m, ix.id, ix.price).value);
    }
  }

  lemma MatchEntry(w: World, ix: Instruction, w': World, i: nat, k: nat)
    requires WorldOk(w) && ix.Match? && Step(w, ix) == Ok(w') && i in UsersOf(ix) && ix.market != k
    ensures UserEntry(k)(w'.users[i]) == UserEntry(k)(w.users[i])
  {
    var t, j := ix.taker, ix.maker;
    var f := FillMatch(w.config, w.users[t], w.users[j], t == j, w.markets[ix.market], ix.takerId, ix.makerId,
                       ix.price).value;
    assert UserOk(w.users[t]) && UserOk(w.users[j]) && t != j;
    hide FillMatch;
    var m1, quote, fee, rebate := MatchMatched(w.config, w.users[t], w.users[j], w.markets[ix.market], ix.takerId,
                                               ix.makerId, ix.price);
    assert UserEntry(k)(f.taker) == UserEntry(k)(w.users[t]);
    assert UserEntry(k)(f.maker) == UserEntry(k)(w.users[j]);
  }

  /** A step that only reduces takes out of the cost basis exactly what it books. */
  lemma StepRemoves(w: World, ix: Instruction, w': World, i: nat, k: nat)
    requires WorldOk(w) && WellSized(ix) && Step(w, ix) == Ok(w') && i < |w.users| && OnlyReduces(w, ix, i, k)
    ensures i < |w'.users| && UserEntry(k)(w'.users[i]) == UserEntry(k)(w.users[i]) - Removed(i, k)(w, ix, w')
  {
    if i !in UsersOf(ix) {
      UserFrame(w, ix, w', i);
      assert !(ClosesIn(ix) && ix.user == i);
    } else if !Trades(ix) {
      QuietReduces(w, ix, w', i, k);
      SameEntry(w.users[i], w'.users[i], k);
    } else if ix.Liquidate? {
      LiquidateEntry(w, ix, w', k);
    } else if ix.Match? {
      MatchEntry(w, ix, w', i, k);
    } else {
      AmmTradeEntry(w, ix, w', k);
    }
  }

  ghost predicate OnlyReducesThroughout(w: World, history: seq<Instruction>, i: nat, k: nat) {
    history != [] ==>
    && OnlyReducesThroughout(w, history[..|history| - 1], i, k)
    && OnlyReduces(RunFrom(w, history[..|history| - 1]), history[|history| - 1], i, k)
  }

  /** However a position is closed - partial closes, trigger fills, reduce-only fills and
      liquidations in any order, whatever else happens - its base never grows or flips, its
      cost basis never grows or changes sign, and what has left the cost basis is exactly
      the profit booked plus the quote the AMM took in.  Once the position is closed that
      is all of it. */
  lemma {:induction false} ClosingRemovesEntry(w: World, history: seq<Instruction>, i: nat, k: nat)
    requires WorldOk(w) && AllWellSized(history) && i < |w.users| && OnlyReducesThroughout(w, history, i, k)
    ensures var w' := RunFrom(w, history);
      && i < |w'.users|
      && Reduces(w.users[i].positions, w'.users[i].positions, k)
      && UserEntry(k)(w'.users[i]) == UserEntry(k)(w.users[i]) - AccumulatedFrom(w, history, Removed(i, k))
  {
    hide Step, Reduces, WorldOk, OnlyReduces;
    if history == [] {
      assert PositionsOf(w, i) == w.users[i].positions;
      NoChange(w, i, k);
    } else {
      var n := |history| - 1;
      ClosingRemovesEntry(w, history[..n], i, k);
      SoundFrom(w, history[..n]);
      var before := RunFrom(w, history[..n]);
      if Step(before, history[n]).Ok? {
        var w' := Step(before, history[n]).value;
        StepReduces(before, history[n], w', i, k);
        ReducesTrans(w.users[i].positions, before.users[i].positions, w'.users[i].positions, k);
        StepRemoves(before, history[n], w', i, k);
      }
    }
  }

  /** Once nothing is left open, the whole cost basis has been removed. */
  lemma {:induction false} FullyClosedRemovesAll(w: World, history: seq<Instruction>, i: nat, k: u16, at: nat)
    requires WorldOk(w) && AllWellSized(history) && i < |w.users| && OnlyReducesThroughout(w, history, i, k)
    requires FindPosition(w.users[i].positions, k) == Some(at)
    requires i < |RunFrom(w, history).users| && FindPosition(RunFrom(w, history).users[i].positions, k).None?
    ensures AccumulatedFrom(w, history, Removed(i, k)) == w.users[i].positions[at].entry
  {
    ClosingRemovesEntry(w, history, i, k);
    SoundFrom(w, history);
    hide RunFrom;
    var u, u' := w.users[i], RunFrom(w, history).users[i];
    assert UserOk(u) && UserOk(u');
    RoundTrip.FlatHasNoEntry(u', k);
    EntryOfPosition(u, k, at);
  }

  /** The cost basis of a user in a market is that of the one open position. */
  lemma EntryOfPosition(u: User, k: u16, at: nat)
    requires UserOk(u) && FindPosition(u.positions, k) == Some(at)
    ensures UserEntry(k)(u) == u.positions[at].entry
  {
    var ps := u.positions;
    FoundIsOnly(ps, k);
    var p := EMPTY_POSITION.(marketIndex := k);
    ReplaceSlot(ps, at, p, k);
    var flat := u.(positions := ps[at := p]);
    forall i | 0 <= i < |flat.positions|
      ensures EntryIn(k)(flat.positions[i]) == 0
    {
      assert SlotOk(flat.positions[i]);
    }
    ZeroSum(flat.positions, EntryIn(k));
  }
}
