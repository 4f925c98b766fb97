/** What the pause and the status of a market block, exactly. */
module Gates {
  import opened Numbers
  import opened Sequences
  import opened State
  import opened Curve
  import opened Margin
  import opened Controller
  import opened Instructions
  import opened Protocol
  import opened Bookkeeping
  import opened Breaker
  import opened Scenario

  // ------------------------------------------------------------ the pause

  /** The instructions that look at the global pause. */
  predicate PauseGated(ix: Instruction) {
    ix.Deposit? || ix.Withdraw? || ix.OpenTrade? || ix.Place? || ix.Fill? || ix.Match? || ix.Trigger?
  }

  function Unpaused(w: World): World { w.(config := w.config.(paused := false)) }

  /** The pause blocks exactly these: every other instruction does on a paused protocol what
      it does on a running one.  Closing and liquidating are among the others. */
  lemma PauseBlocksExactly(w: World, ix: Instruction)
    requires w.config.paused && !ix.SetPaused?
    ensures PauseGated(ix) ==> Step(w, ix).Err?
    ensures !PauseGated(ix) ==> (Step(w, ix).Ok? <==> Step(Unpaused(w), ix).Ok?)
    ensures !PauseGated(ix) && Step(w, ix).Ok? ==> Unpaused(Step(w, ix).value) == Step(Unpaused(w), ix).value
  {
    hide ExecuteAmmOpen, ExecuteAmmClose, ExecuteMakerMatch, LiquidatePerp, SettleFunding, ResolveBankruptcy,
      UpdateFundingRate;
  }

  // ------------------------------------------------------------ the status of a market

  /** A trade with another status of its market behaves the same and keeps that status. */
  function Relabel(r: Result<(User, Market)>, status: MarketStatus): Result<(User, Market)> {
    match r
    case Ok(t) => Ok((t.0, t.1.(status := status)))
    case Err(e) => Err(e)
  }

  lemma CloseExecution(u: User, m: Market, status: MarketStatus, feeBps: u16, at: nat, size: u64, limit: u64)
    requires at < |u.positions|
    ensures ExecuteAmmClose(u, m.(status := status), feeBps, at, size, limit)
      == match ExecuteAmmClose(u, m, feeBps, at, size, limit)
         case Ok(f) => Ok(CloseFill(f.user, f.market.(status := status), f.realized))
         case Err(e) => Err(e)
  {
    hide Reduce, CreditClose, CheckLimit, AveragePrice, FeeAmount, CalculateSwap, AddSettledPnl, TradeRecord;
  }

  lemma CloseIgnoresStatus(cfg: Config, u: User, m: Market, status: MarketStatus, size: u64, limit: u64)
    ensures ClosePosition(cfg, u, m.(status := status), size, limit)
      == Relabel(ClosePosition(cfg, u, m, size, limit), status)
  {
    var found := FindPosition(u.positions, m.index);
    if found.Some? {
      CloseExecution(u, m, status, cfg.takerFeeBps, found.value, CloseSize(size, Abs(u.positions[found.value].base)),
                     limit);
    }
    hide ExecuteAmmClose;
  }

  /** A trigger asks only that reducing is allowed. */
  lemma TriggerIgnoresStatus(cfg: Config, u: User, m: Market, status: MarketStatus, id: u32, price: u64)
    requires m.(status := status).RequireCanReduce().Ok? && m.RequireCanReduce().Ok?
    ensures TriggerOrder(cfg, u, m.(status := status), id, price) == Relabel(TriggerOrder(cfg, u, m, id, price), status)
  {
    var slot, found := FindOrder(u.orders, id), FindPosition(u.positions, m.index);
    if slot.Ok? && found.Some? {
      var order := u.orders[slot.value];
      var size: u64 := Min(order.Remaining(), Abs(u.positions[found.value].base));
      var limit: u64 := if order.orderType == TriggerLimit then order.price else 0;
      CloseExecution(u, m, status, cfg.takerFeeBps, found.value, size, limit);
    }
    hide ExecuteAmmClose, FindOrder, FindPosition;
  }

  /** So does the fill of an order that only reduces. */
  lemma FillIgnoresStatus(cfg: Config, u: User, m: Market, status: MarketStatus, id: u32, price: u64)
    requires m.(status := status).RequireCanReduce().Ok? && m.RequireCanReduce().Ok? && FillsReduceOnly(u, id)
    ensures FillOrder(cfg, u, m.(status := status), id, price) == Relabel(FillOrder(cfg, u, m, id, price), status)
  {
    var slot, found := FindOrder(u.orders, id), FindPosition(u.positions, m.index);
    if slot.Ok? && found.Some? {
      var order := u.orders[slot.value];
      var size: u64 := Min(order.Remaining(), Abs(u.positions[found.value].base));
      CloseExecution(u, m, status, cfg.takerFeeBps, found.value, size, order.price);
    }
    hide ExecuteAmmClose, FindOrder, FindPosition;
  }

  lemma LiquidationIgnoresStatus(u: User, m: Market, status: MarketStatus, insurance: u64, maxBase: u64, price: u64)
    ensures LiquidatePerp(u, m.(status := status), insurance, maxBase, price)
      == match LiquidatePerp(u, m, insurance, maxBase, price)
         case Ok(l) => Ok(Liquidation(l.user, l.market.(status := status), l.insurance))
         case Err(e) => Err(e)
  {
    hide Reduce, CalculateSwap, AddSettledPnl, Absorb, DepositInsurance, PositionNotional, LiquidationFee, PayFunding,
      Margin.AddPosition, Funding.FundingPayment;
  }

  /** The world with the status of market `k` set to `status`. */
  function Labelled(w: World, k: nat, status: MarketStatus): World
    requires k < |w.markets|
  {
    w.(markets := w.markets[k := w.markets[k].(status := status)])
  }

  /** What a market of this status blocks. */
  predicate StatusGated(w: World, ix: Instruction, k: nat, status: MarketStatus) {
    MarketOf(ix) == Some(k) &&
    match status
    case Active => false
    case ReduceOnly =>
      || ix.OpenTrade? || ix.Match?
      || (ix.Place? && !ix.order.reduceOnly)
      || (ix.Fill? && ix.user < |w.users| && !FillsReduceOnly(w.users[ix.user], ix.id))
    case Initialized | Paused => ix.OpenTrade? || ix.Place? || ix.Fill? || ix.Match? || ix.Trigger?
  }

  /** Two answers are the same but for the status of market `k`. */
  predicate SameButStatus(a: Result<World>, b: Result<World>, k: nat) {
    match (a, b)
    case (Ok(v), Ok(w)) => k < |v.markets| == |w.markets| && Labelled(v, k, Active) == Labelled(w, k, Active)
    case (Err(e), Err(f)) => e == f
    case _ => false
  }

  /** A paused market blocks exactly open, place, fill, match and trigger; a reduce-only market
      exactly open, match, and placing or filling an order that may add.  Everything else -
      closing, liquidating, settling and withdrawing included - does what it does while active. */
  lemma StatusBlocksExactly(w: World, ix: Instruction, k: nat)
    requires k < |w.markets|
    ensures StatusGated(w, ix, k, w.markets[k].status) ==> Step(w, ix).Err?
    ensures !StatusGated(w, ix, k, w.markets[k].status) ==>
      SameButStatus(Step(w, ix), Step(Labelled(w, k, Active), ix), k)
  {
    if StatusGated(w, ix, k, w.markets[k].status) {
      GatedFails(w, ix, k);
    } else if MarketOf(ix) == Some(k) {
      NamedIgnoresStatus(w, ix, k);
    } else {
      OtherIgnoresStatus(w, ix, k);
    }
  }

  lemma GatedFails(w: World, ix: Instruction, k: nat)
    requires k < |w.markets| && StatusGated(w, ix, k, w.markets[k].status)
    ensures Step(w, ix).Err?
  {
    hide ExecuteAmmOpen, ExecuteAmmClose, ExecuteMakerMatch;
  }

  lemma OtherIgnoresStatus(w: World, ix: Instruction, k: nat)
    requires k < |w.markets| && MarketOf(ix) != Some(k)
    ensures SameButStatus(Step(w, ix), Step(Labelled(w, k, Active), ix), k)
  {
    if MarketOf(ix).None? {
      UnnamedIgnoresStatus(w, ix, k);
    } else {
      ElsewhereIgnoresStatus(w, ix, k);
    }
  }

  lemma UnnamedIgnoresStatus(w: World, ix: Instruction, k: nat)
    requires k < |w.markets| && MarketOf(ix).None?
    ensures SameButStatus(Step(w, ix), Step(Labelled(w, k, Active), ix), k)
  {
    hide InitializeMarket, DepositCollateral, ResolveBankruptcy, CancelOrder;
  }

  lemma ElsewhereIgnoresStatus(w: World, ix: Instruction, k: nat)
    requires k < |w.markets| && MarketOf(ix).Some? && MarketOf(ix) != Some(k)
    ensures SameButStatus(Step(w, ix), Step(Labelled(w, k, Active), ix), k)
  {
    hide OpenPosition, ClosePosition, FillOrder, TriggerOrder, FillMatch, LiquidatePerp, UpdateFundingRate,
      SettleFunding, WithdrawCollateral, PlaceOrder, UpdateMarketParams;
    assert Loadable(w, ix) <==> Loadable(Labelled(w, k, Active), ix);
  }

  lemma NamedIgnoresStatus(w: World, ix: Instruction, k: nat)
    requires k < |w.markets| && MarketOf(ix) == Some(k) && !StatusGated(w, ix, k, w.markets[k].status)
    ensures SameButStatus(Step(w, ix), Step(Labelled(w, k, Active), ix), k)
  {
    var m := w.markets[k];
    if m.status == Active {
      assert Labelled(w, k, Active) == w;
    } else {
      InactiveIgnoresStatus(w, ix, k);
    }
  }

  lemma InactiveIgnoresStatus(w: World, ix: Instruction, k: nat)
    requires k < |w.markets| && MarketOf(ix) == Some(k) && !StatusGated(w, ix, k, w.markets[k].status)
    requires w.markets[k].status != Active
    ensures SameButStatus(Step(w, ix), Step(Labelled(w, k, Active), ix), k)
  {
    if !Loadable(w, ix) {
      assert !Loadable(Labelled(w, k, Active), ix);
    } else if ix.Liquidate? {
      LiquidateStep(w, ix, k);
    } else if ix.Close? || ix.Fill? || ix.Trigger? {
      CloseStep(w, ix, k);
    } else {
      PlainIgnoresStatus(w, ix, k);
    }
  }

  lemma CloseStep(w: World, ix: Instruction, k: nat)
    requires k < |w.markets| && MarketOf(ix) == Some(k) && !StatusGated(w, ix, k, w.markets[k].status)
    requires w.markets[k].status != Active && Loadable(w, ix) && (ix.Close? || ix.Fill? || ix.Trigger?)
    ensures SameButStatus(Step(w, ix), Step(Labelled(w, k, Active), ix), k)
  {
    hide ClosePosition, FillOrder, TriggerOrder, FindOrder;
    var m := w.markets[k];
    if ix.Close? {
      CloseIgnoresStatus(w.config, w.users[ix.user], m, Active, ix.size, ix.limit);
    } else if ix.Fill? {
      FillIgnoresStatus(w.config, w.users[ix.user], m, Active, ix.id, ix.price);
    } else {
      TriggerIgnoresStatus(w.config, w.users[ix.user], m, Active, ix.id, ix.price);
    }
  }

  lemma LiquidateStep(w: World, ix: Instruction, k: nat)
    requires k < |w.markets| && MarketOf(ix) == Some(k) && ix.Liquidate? && Loadable(w, ix)
    ensures SameButStatus(Step(w, ix), Step(Labelled(w, k, Active), ix), k)
  {
    hide LiquidatePerp;
    LiquidationIgnoresStatus(w.users[ix.user], w.markets[k], Active, w.insurance, ix.maxBase, ix.price);
  }

  lemma PlainIgnoresStatus(w: World, ix: Instruction, k: nat)
    requires k < |w.markets| && MarketOf(ix) == Some(k) && !StatusGated(w, ix, k, w.markets[k].status)
    requires w.markets[k].status != Active && Loadable(w, ix)
    requires ix.SetParams? || ix.Withdraw? || ix.CrankFunding? || ix.Settle? || ix.Place?
    ensures SameButStatus(Step(w, ix), Step(Labelled(w, k, Active), ix), k)
  {
    var m := w.markets[k];
    hide WithdrawCollateral, UpdateFundingRate, Funding.FundingPayment, PayFunding, CheckOrderPrices, FindPosition;
    if ix.CrankFunding? {
      CrankIgnoresStatus(m, Active, ix.price, ix.now);
    } else if ix.Withdraw? {
      WithdrawIgnoresStatus(w.config, w.users[ix.user], m, Active, ix.amount, ix.price);
    }
  }

  lemma CrankIgnoresStatus(m: Market, status: MarketStatus, price: u64, now: i64)
    ensures UpdateFundingRate(m.(status := status), price, now)
      == match UpdateFundingRate(m, price, now) case Ok(n) => Ok(n.(status := status)) case Err(e) => Err(e)
  {
    hide Funding.UpdateTwap, ReservePrice, Funding.CalculateFundingRate, Funding.FundingDeltaPerBase;
  }

  lemma WithdrawIgnoresStatus(cfg: Config, u: User, m: Market, status: MarketStatus, amount: u64, price: u64)
    ensures WithdrawCollateral(cfg, u, m.(status := status), amount, price)
      == WithdrawCollateral(cfg, u, m, amount, price)
  {
    hide Margin.AddPosition, FindPosition;
  }

  // ------------------------------------------------------------ a halted market

  function HaltArgs(): MarketArgs { MarketArgs(Paused, 30_000, 20_000, 1, 1, 0, 0, 3600) }

  /** A position is opened, then its market and the whole protocol are paused. */
  function HaltHistory(): seq<Instruction> { SteepHistory() + [SetParams(0, HaltArgs())] + [SetPaused(true)] }

  /** The world that history reaches is halted, and its owner can still close the position. */
  lemma ClosesWhileHalted()
    ensures var w := Run(PLAIN, HaltHistory());
      && w.config.paused && |w.users| == |w.markets| == 1 && w.markets[0].status == Paused
      && FindPosition(w.users[0].positions, 0).Some?
    ensures var after := Step(Run(PLAIN, HaltHistory()), Close(0, 0, 0, 0));
      after.Ok? && |after.value.users| == 1 && FindPosition(after.value.users[0].positions, 0).None?
  {
    var w1 := SteepWorld();
    var w2 := w1.(markets := [w1.markets[0].(status := Paused)]);
    var w3 := w2.(config := w2.config.(paused := true));
    SteepReaches();
    RunMore(PLAIN, SteepHistory(), SetParams(0, HaltArgs()));
    assert Apply(w1, SetParams(0, HaltArgs())) == w2;
    RunMore(PLAIN, SteepHistory() + [SetParams(0, HaltArgs())], SetPaused(true));
    assert Apply(w2, SetPaused(true)) == w3;
    SteepCloses(Paused);
    ClosesOnly(w3);
    hide Run, ExecuteAmmClose;
  }

  /** Closing the one position of the account leaves it flat in the market. */
  lemma ClosesOnly(w: World)
    requires |w.users| == |w.markets| == 1 && w.markets[0].index == 0
    requires w.users[0] == SteepWorld().users[0] && FindPosition(w.users[0].positions, 0) == Some(0)
    requires var r := ExecuteAmmClose(w.users[0], w.markets[0], w.config.takerFeeBps, 0, 1, 0);
      r.Ok? && r.value.user.positions[..] != [] && r.value.user.positions[0].base == 0
    ensures var after := Step(w, Close(0, 0, 0, 0));
      after.Ok? && |after.value.users| == 1 && FindPosition(after.value.users[0].positions, 0).None?
  {
    var r := ExecuteAmmClose(w.users[0], w.markets[0], w.config.takerFeeBps, 0, 1, 0).value;
    var priced, reduction := CloseShape(w.users[0], w.markets[0], w.config.takerFeeBps, 0, 1, 0);
    assert r.user.positions == w.users[0].positions[0 := reduction.position];
    hide ExecuteAmmClose;
    assert CloseSize(0, 1) == 1;
  }
}
