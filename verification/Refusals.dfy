/** Every refusal of an instruction, by its error. */
module Refusals {
  import opened Numbers
  import opened Sequences
  import opened State
  import opened Curve
  import opened Margin
  import opened Funding
  import opened Controller
  import opened Instructions
  import opened Protocol
  import opened TradeAgreement
  import opened OrderAgreement
  import opened FundingAgreement
  import opened Agreement
  import opened FieldChecks
  import opened TradeReasons
  import R = Relation

  // ------------------------------------------------------------ whole instructions

  /** The first failed check, or, when all pass, one of the later reasons. */
  ghost predicate Then(e: ErrorCode, checks: Option<ErrorCode>, later: bool) {
    if checks.Some? then checks.value == e else later
  }

  /** Past their checks, orders are looked up by id. */
  ghost predicate FillReason(e: ErrorCode, cfg: Config, u: User, m: Market, o: Order, price: int) {
    if o.reduceOnly then
      exists at: nat :: R.Held(u.positions, m.index, at)
        && CloseReason(e, u, m, cfg.takerFeeBps, at, R.Lesser(R.Left(o), R.Magnitude(u.positions[at].base)), o.price)
    else OpenReason(e, u, m, cfg.takerFeeBps, o.direction == Long, R.Left(o), o.price, price)
  }

  ghost predicate TriggerReason(e: ErrorCode, cfg: Config, u: User, m: Market, o: Order) {
    exists at: nat :: R.Held(u.positions, m.index, at)
      && CloseReason(e, u, m, cfg.takerFeeBps, at, R.Lesser(R.Left(o), R.Magnitude(u.positions[at].base)),
                     if o.orderType == TriggerLimit then o.price else 0)
  }

  lemma FillReasons(cfg: Config, u: User, m: Market, id: u32, price: u64)
    requires !cfg.paused && FindOrder(u.orders, id).Ok? && FillOrder(cfg, u, m, id, price).Err?
    ensures var o := u.orders[FindOrder(u.orders, id).value];
      var e := FillOrder(cfg, u, m, id, price).error;
      Then(e, FillChecks(u, m, o), FillReason(e, cfg, u, m, o, price))
  {
    FillGated(cfg, u, m, id, price);
    var o := u.orders[FindOrder(u.orders, id).value];
    if FillChecks(u, m, o).None? {
      hide ExecuteAmmOpen, ExecuteAmmClose, OpenReason, CloseReason, FindOrder;
      if o.reduceOnly {
        HasIff(u, m);
        var at := FindPosition(u.positions, m.index).value;
        HeldIff(u.positions, m.index, at);
        hide FindPosition, R.Held;
        CloseReasons(u, m, cfg.takerFeeBps, at, Min(o.Remaining(), Abs(u.positions[at].base)), o.price);
      } else {
        OpenReasons(u, m, cfg.takerFeeBps, o.direction, o.Remaining(), o.price, price);
      }
    }
  }

  lemma TriggerReasons(cfg: Config, u: User, m: Market, id: u32, price: u64)
    requires !cfg.paused && MayReduce(m) && FindOrder(u.orders, id).Ok? && TriggerOrder(cfg, u, m, id, price).Err?
    ensures var o := u.orders[FindOrder(u.orders, id).value];
      var e := TriggerOrder(cfg, u, m, id, price).error;
      Then(e, TriggerChecks(u, m, o, price), TriggerReason(e, cfg, u, m, o))
  {
    TriggerGated(cfg, u, m, id, price);
    var o := u.orders[FindOrder(u.orders, id).value];
    if TriggerChecks(u, m, o, price).None? {
      hide ExecuteAmmClose, CloseReason, FindOrder;
      HasIff(u, m);
      var at := FindPosition(u.positions, m.index).value;
      HeldIff(u.positions, m.index, at);
      hide FindPosition, R.Held;
      CloseReasons(u, m, cfg.takerFeeBps, at, Min(o.Remaining(), Abs(u.positions[at].base)),
                   if o.orderType == TriggerLimit then o.price else 0);
    }
  }

  lemma WithdrawReasons(cfg: Config, u: User, m: Market, amount: u64, price: u64)
    requires WithdrawCollateral(cfg, u, m, amount, price).Err?
    ensures var e := WithdrawCollateral(cfg, u, m, amount, price).error;
      Then(e, WithdrawChecks(cfg, u, amount), WithdrawReason(e, u, m, amount, price))
  {
    hide RequireInitial, BelowInitial;
    var found := FindPosition(u.positions, m.index);
    if WithdrawChecks(cfg, u, amount).None? && found.Some? {
      HeldIff(u.positions, m.index, found.value);
      InitialReasons(u.collateral - amount, u.positions[found.value], price, m);
    }
    hide FindPosition, R.Held;
  }

  ghost predicate WithdrawReason(e: ErrorCode, u: User, m: Market, amount: int, price: int) {
    || e == MathOverflow
    || (e == InsufficientFreeCollateral
        && exists at: nat ::
             R.Held(u.positions, m.index, at) && BelowInitial(u.collateral - amount, u.positions[at], price, m))
  }

  /** A crank is refused for an index average of zero, or an overflow. */
  lemma CrankReasons(m: Market, price: u64, now: i64)
    requires UpdateFundingRate(m, price, now).Err?
    ensures CrankReason(UpdateFundingRate(m, price, now).error, m, price, now)
  {
    var window: i64 := Max(m.fundingPeriod, 1);
    var elapsed := now - m.amm.lastTwapTs;
    hide ReservePrice;
    MarkReasons(m.amm.base, m.amm.quote, m.amm.peg);
    if R.InI64(elapsed) {
      var oracle := UpdateTwap(m.amm.oracleTwap, price, elapsed, window);
      AverageReasons(m.amm.oracleTwap, price, elapsed, window);
      if ReservePrice(m.amm.base, m.amm.quote, m.amm.peg).Ok? {
        AverageReasons(m.amm.markTwap, ReservePrice(m.amm.base, m.amm.quote, m.amm.peg).value, elapsed, window);
      }
      if oracle.Ok? { AverageTwapIff(m.amm.oracleTwap, price, elapsed, window, oracle.value); }
      hide UpdateTwap, R.Averages;
    }
  }

  ghost predicate CrankReason(e: ErrorCode, m: Market, price: int, now: int) {
    var window := if m.fundingPeriod > 1 then m.fundingPeriod else 1;
    || e == MathOverflow
    || (e == InvalidOraclePrice && R.Averages(m.amm.oracleTwap, price, now - m.amm.lastTwapTs, window, 0))
  }

  lemma MarkReasons(b: u128, q: u128, peg: u128)
    ensures ReservePrice(b, q, peg).Ok? || ReservePrice(b, q, peg) == Err(MathOverflow)
  {
    ReservePriceIff(b, q, peg, 0);
  }

  lemma AverageReasons(previous: u64, current: u64, elapsed: i64, window: i64)
    ensures var r := UpdateTwap(previous, current, elapsed, window); r.Ok? || r == Err(MathOverflow)
  {
  }

  lemma AdminReasons(w: World, ix: Instruction)
    requires Loadable(w, ix) && Step(w, ix).Err?
    requires ix.InitUser? || ix.InitMarket? || ix.SetParams? || ix.SetPaused?
    ensures Refuses(w, ix, Step(w, ix).error)
  {
    if ix.InitMarket? { CreateDecided(|w.markets|, ix.params, ix.now); }
    if ix.SetParams? { RetuneDecided(w.markets[ix.market], ix.args); }
    hide InitializeMarket, UpdateMarketParams, CreateChecks, RetuneChecks;
  }

  lemma CollateralReasons(w: World, ix: Instruction)
    requires Loadable(w, ix) && Step(w, ix).Err?
    requires ix.Deposit? || ix.Withdraw? || ix.Resolve? || ix.Settle?
    ensures Refuses(w, ix, Step(w, ix).error)
  {
    hide DepositCollateral, WithdrawCollateral, ResolveBankruptcy, SettleFunding;
    hide DepositChecks, WithdrawChecks, WithdrawReason, Has;
    var u := w.users[ix.user];
    if ix.Deposit? {
      DepositDecided(w.config, u, ix.amount);
    } else if ix.Withdraw? {
      WithdrawReasons(w.config, u, w.markets[ix.market], ix.amount, ix.price);
    } else if ix.Settle? {
      SettleReasons(u, w.markets[ix.market]);
    } else {
      ResolveDecided(u, w.insurance);
    }
  }

  lemma SettleReasons(u: User, m: Market)
    requires SettleFunding(u, m).Err?
    ensures SettleFunding(u, m).error == if Has(u, m) then MathOverflow else PositionNotFound
  {
    SettleGated(u, m);
    HasIff(u, m);
    if Has(u, m) { PaymentOverflows(u, FindPosition(u.positions, m.index).value, m); }
    hide FundingPayment, PayFunding, FindPosition, Has;
  }

  lemma OrderReasons(w: World, ix: Instruction)
    requires Loadable(w, ix) && Step(w, ix).Err?
    requires ix.Place? || ix.Cancel?
    ensures Refuses(w, ix, Step(w, ix).error)
  {
    hide PlaceOrder, CancelOrder, PlaceChecks, Named;
    if ix.Place? {
      PlaceDecided(w.config, w.users[ix.user], w.markets[ix.market], ix.order, ix.now);
    } else {
      CancelDecided(w.users[ix.user], ix.id);
    }
  }

  lemma OpenCloseReasons(w: World, ix: Instruction)
    requires Loadable(w, ix) && Step(w, ix).Err?
    requires ix.OpenTrade? || ix.Close?
    ensures Refuses(w, ix, Step(w, ix).error)
  {
    var u, m := w.users[ix.user], w.markets[ix.market];
    hide ExecuteAmmOpen, ExecuteAmmClose, OpenReason, CloseReason, R.Held;
    if ix.OpenTrade? {
      OpenGated(w.config, u, m, ix.direction, ix.size, ix.limit, ix.price);
      if OpenChecks(w.config, u, m, ix.size).None? {
        OpenReasons(u, m, w.config.takerFeeBps, ix.direction, ix.size, ix.limit, ix.price);
      }
    } else {
      CloseGated(w.config, u, m, ix.size, ix.limit);
      HasIff(u, m);
      if Has(u, m) {
        var at := FindPosition(u.positions, m.index).value;
        HeldIff(u.positions, m.index, at);
        AskedIs(ix.size, u.positions[at].base);
        CloseReasons(u, m, w.config.takerFeeBps, at, CloseSize(ix.size, Abs(u.positions[at].base)), ix.limit);
      }
    }
  }

  lemma RestingReasons(w: World, ix: Instruction)
    requires Loadable(w, ix) && Step(w, ix).Err?
    requires ix.Fill? || ix.Trigger? || ix.Match?
    ensures Refuses(w, ix, Step(w, ix).error)
  {
    hide FillOrder, TriggerOrder, FillMatch, FillReason, TriggerReason, MatchRefusal, FillChecks, TriggerChecks;
    hide FindOrder;
    if ix.Match? {
      MatchRefused(w.config, w.users[ix.taker], w.users[ix.maker], ix.taker == ix.maker, w.markets[ix.market],
                   ix.takerId, ix.makerId, ix.price);
    } else {
      var u, m := w.users[ix.user], w.markets[ix.market];
      NamedIff(u, ix.id);
      hide Named, R.Finds;
      if ix.Fill? {
        FillGated(w.config, u, m, ix.id, ix.price);
        if !w.config.paused && FindOrder(u.orders, ix.id).Ok? { FillReasons(w.config, u, m, ix.id, ix.price); }
      } else {
        TriggerGated(w.config, u, m, ix.id, ix.price);
        if !w.config.paused && MayReduce(m) && FindOrder(u.orders, ix.id).Ok? {
          TriggerReasons(w.config, u, m, ix.id, ix.price);
        }
      }
    }
  }

  lemma NamedIff(u: User, id: u32)
    ensures Named(u, id) <==> FindOrder(u.orders, id).Ok?
    ensures FindOrder(u.orders, id).Ok? ==> R.Finds(u.orders, id, FindOrder(u.orders, id).value)
  {
    if FindOrder(u.orders, id).Ok? { FindsIff(u.orders, id, FindOrder(u.orders, id).value); }
  }

  lemma KeeperReasons(w: World, ix: Instruction)
    requires Loadable(w, ix) && Step(w, ix).Err?
    requires ix.CrankFunding? || ix.Liquidate?
    ensures Refuses(w, ix, Step(w, ix).error)
  {
    hide UpdateFundingRate, LiquidatePerp, CrankReason, R.Held, R.Owes, R.Values;
    if ix.CrankFunding? {
      CrankReasons(w.markets[ix.market], ix.price, ix.now);
    } else {
      var u, m := w.users[ix.user], w.markets[ix.market];
      LiquidateGated(u, m, w.insurance, ix.maxBase, ix.price);
      if Has(u, m) { LiquidateReasons(u, m, w.insurance, ix.maxBase, ix.price); }
    }
  }

  ghost predicate MatchRefusal(e: ErrorCode, cfg: Config, taker: User, maker: User, same: bool, m: Market,
                               takerId: int, makerId: int, price: int)
  {
    Then(e,
         Demand(!cfg.paused, ProtocolPaused,
         Demand(!same, SelfMatch,
         Demand(m.status == Active, MarketNotActive,
         Demand(Named(taker, takerId), OrderNotFound, None)))),
         exists s: nat :: R.Finds(taker.orders, takerId, s)
           && Then(e, LimitChecks(m, taker.orders[s]),
                   MakerRefusal(e, cfg, taker, maker, m, taker.orders[s], makerId, price)))
  }

  ghost predicate MakerRefusal(e: ErrorCode, cfg: Config, taker: User, maker: User, m: Market, bid: Order,
                               makerId: int, price: int)
  {
    Then(e, Demand(Named(maker, makerId), OrderNotFound, None),
         exists t: nat :: R.Finds(maker.orders, makerId, t)
           && Then(e, LimitChecks(m, maker.orders[t]),
                   Then(e, CrossChecks(bid, maker.orders[t]),
                        MatchReason(e, cfg, taker, maker, m, bid.direction == Long,
                                    R.Lesser(R.Left(bid), R.Left(maker.orders[t])), maker.orders[t].price, price))))
  }

  lemma MatchRefused(cfg: Config, taker: User, maker: User, same: bool, m: Market, takerId: u32, makerId: u32,
                     price: u64)
    requires FillMatch(cfg, taker, maker, same, m, takerId, makerId, price).Err?
    ensures MatchRefusal(FillMatch(cfg, taker, maker, same, m, takerId, makerId, price).error,
                         cfg, taker, maker, same, m, takerId, makerId, price)
  {
    MatchGated(cfg, taker, maker, same, m, takerId, makerId, price);
    NamedIff(taker, takerId);
    hide FillMatch, MakerRefusal, LimitChecks, Named, R.Finds, FindOrder;
    if !cfg.paused && !same && m.status == Active && FindOrder(taker.orders, takerId).Ok? {
      var bid := taker.orders[FindOrder(taker.orders, takerId).value];
      if LimitChecks(m, bid).None? { MakerRefused(cfg, taker, maker, m, takerId, makerId, price); }
    }
  }

  lemma MakerRefused(cfg: Config, taker: User, maker: User, m: Market, takerId: u32, makerId: u32, price: u64)
    requires !cfg.paused && m.status == Active && FindOrder(taker.orders, takerId).Ok?
    requires LimitChecks(m, taker.orders[FindOrder(taker.orders, takerId).value]).None?
    requires FillMatch(cfg, taker, maker, false, m, takerId, makerId, price).Err?
    ensures MakerRefusal(FillMatch(cfg, taker, maker, false, m, takerId, makerId, price).error,
                         cfg, taker, maker, m, taker.orders[FindOrder(taker.orders, takerId).value], makerId, price)
  {
    MatchGated(cfg, taker, maker, false, m, takerId, makerId, price);
    NamedIff(maker, makerId);
    hide Named, R.Finds, FindOrder, ExecuteMakerMatch, MatchReason;
    if FindOrder(maker.orders, makerId).Ok? {
      var bid := taker.orders[FindOrder(taker.orders, takerId).value];
      var ask := maker.orders[FindOrder(maker.orders, makerId).value];
      if LimitChecks(m, ask).None? && CrossChecks(bid, ask).None? {
        MatchReasons(taker, maker, m, cfg, bid.direction, Min(bid.Remaining(), ask.Remaining()), ask.price, price);
      }
    }
  }

  /** Every refusal of an instruction, by its error. */
  ghost predicate Refuses(w: World, ix: Instruction, e: ErrorCode) {
    if !Loadable(w, ix) then e == AccountNotInitialized
    else
      var cfg := w.config;
      match ix
      case InitUser => |w.users| >= 0xFFFF_FFFF && e == MathOverflow
      case InitMarket(p, now) => CreateChecks(|w.markets|, p, now) == Some(e)
      case SetParams(_, args) => RetuneChecks(args) == Some(e)
      case SetPaused(_) => false
      case Deposit(i, amount) => DepositChecks(cfg, w.users[i], amount) == Some(e)
      case Withdraw(i, k, amount, price) =>
        Then(e, WithdrawChecks(cfg, w.users[i], amount), WithdrawReason(e, w.users[i], w.markets[k], amount, price))
      case OpenTrade(i, k, dir, size, limit, price) =>
        Then(e, OpenChecks(cfg, w.users[i], w.markets[k], size),
             OpenReason(e, w.users[i], w.markets[k], cfg.takerFeeBps, dir == Long, size, limit, price))
      case Close(i, k, size, limit) =>
        var u, m := w.users[i], w.markets[k];
        Then(e, Demand(Has(u, m), PositionNotFound, None),
             exists at: nat :: R.Held(u.positions, m.index, at)
               && CloseReason(e, u, m, cfg.takerFeeBps, at, R.Asked(size, u.positions[at].base), limit))
      case Place(i, k, p, _) => PlaceChecks(cfg, w.users[i], w.markets[k], p) == Some(e)
      case Cancel(i, id) => !Named(w.users[i], id) && e == OrderNotFound
      case Fill(i, k, id, price) =>
        var u, m := w.users[i], w.markets[k];
        Then(e, Demand(!cfg.paused, ProtocolPaused, Demand(Named(u, id), OrderNotFound, None)),
             exists s: nat :: R.Finds(u.orders, id, s)
               && Then(e, FillChecks(u, m, u.orders[s]), FillReason(e, cfg, u, m, u.orders[s], price)))
      case Match(t, i, k, takerId, makerId, price) =>
        MatchRefusal(e, cfg, w.users[t], w.users[i], t == i, w.markets[k], takerId, makerId, price)
      case Trigger(i, k, id, price) =>
        var u, m := w.users[i], w.markets[k];
        Then(e,
             Demand(!cfg.paused, ProtocolPaused,
             Demand(MayReduce(m), MarketNotActive, Demand(Named(u, id), OrderNotFound, None))),
             exists s: nat :: R.Finds(u.orders, id, s)
               && Then(e, TriggerChecks(u, m, u.orders[s], price), TriggerReason(e, cfg, u, m, u.orders[s])))
      case CrankFunding(k, price, now) => CrankReason(e, w.markets[k], price, now)
      case Settle(i, k) => if Has(w.users[i], w.markets[k]) then e == MathOverflow else e == PositionNotFound
      case Liquidate(i, k, _, price) =>
        Then(e, Demand(Has(w.users[i], w.markets[k]), PositionNotFound, None),
             e == MathOverflow || (e == NotLiquidatable && Healthy(w.users[i], w.markets[k], price)))
      case Resolve(i) => !(w.users[i].bankrupt && w.users[i].badDebt > 0) && e == NotLiquidatable
  }

  /** With its funding settled, the position is at or above maintenance. */
  ghost predicate Healthy(u: User, m: Market, price: int) {
    exists at: nat, payment, v :: R.Held(u.positions, m.index, at)
      && R.Owes(u.positions[at], m.amm.cumFundingLong, payment) && R.Values(u.positions[at], price, m, v)
      && R.Positive(u.collateral - payment) + v.value + u.positions[at].entry >= v.maintenance
  }

  /** An instruction that is refused is refused for that reason, with that error. */
  lemma StepReasons(w: World, ix: Instruction)
    requires Step(w, ix).Err?
    ensures Refuses(w, ix, Step(w, ix).error)
  {
    if Loadable(w, ix) {
      match ix
      case InitUser | InitMarket(_, _) | SetParams(_, _) | SetPaused(_) => AdminReasons(w, ix);
      case Deposit(_, _) | Withdraw(_, _, _, _) | Resolve(_) | Settle(_, _) => CollateralReasons(w, ix);
      case Place(_, _, _, _) | Cancel(_, _) => OrderReasons(w, ix);
      case OpenTrade(_, _, _, _, _, _) | Close(_, _, _, _) => OpenCloseReasons(w, ix);
      case Fill(_, _, _, _) | Trigger(_, _, _, _) | Match(_, _, _, _, _, _) => RestingReasons(w, ix);
      case CrankFunding(_, _, _) | Liquidate(_, _, _, _) => KeeperReasons(w, ix);
    }
  }
}
