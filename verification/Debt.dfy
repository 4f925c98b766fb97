/** Bad debt and the insurance fund: where debt comes from, and where it goes. */
module Debt {
  import opened Numbers
  import opened Sequences
  import opened State
  import opened Margin
  import opened Controller
  import opened Instructions
  import opened Protocol
  import opened Bookkeeping
  import opened Ledger
  import opened Liquidations
  import opened Steps
  import opened Runs
  import opened Frames

  // ------------------------------------------------------------ what a step owes

  /** What collateral cannot cover of a charge. */
  function Uncovered(collateral: int, charge: int): nat { Max(charge - collateral, 0) }

  /** The liquidation fee: a share of the closed notional, out of what is left after
      profit and loss. */
  function FeeDue(afterPnl: int, size: nat, price: nat, bps: nat): nat {
    Min(size * price / BASE_PRECISION * bps / BPS_DENOMINATOR, Max(afterPnl, 0))
  }

  /** Debt a step creates: the part of its funding, and of its loss on a liquidation, that
      the collateral does not cover. */
  function Shortfall(): (World, Instruction, World) -> int {
    (w: World, ix: Instruction, w': World) =>
      if (ix.Settle? || ix.Liquidate?) && ix.user < |w.users| && ix.market < |w.markets| && ix.user < |w'.users| then
        var u := w.users[ix.user];
        var due := PaymentDue(u, w.markets[ix.market]);
        Uncovered(u.collateral, due)
        + if !ix.Liquidate? then 0
          else Uncovered(Max(u.collateral - due, 0), u.settledPnl - w'.users[ix.user].settledPnl)
      else 0
  }

  /** What a liquidation pays into the insurance fund. */
  function FeeTaken(): (World, Instruction, World) -> int {
    (w: World, ix: Instruction, w': World) =>
      if ix.Liquidate? && ix.user < |w.users| && ix.market < |w.markets| && ix.user < |w'.users| then
        var u, m := w.users[ix.user], w.markets[ix.market];
        match FindPosition(u.positions, m.index)
        case Some(at) =>
          FeeDue(Max(u.collateral - PaymentDue(u, m), 0) + w'.users[ix.user].settledPnl - u.settledPnl,
                 CloseSize(ix.maxBase, Abs(u.positions[at].base)), ix.price, m.liquidationFeeBps)
        case None => 0
      else 0
  }

  /** Debt the insurance fund clears. */
  function Cleared(): (World, Instruction, World) -> int {
    (w: World, ix: Instruction, w': World) =>
      if ix.Resolve? && ix.user < |w.users| then Min(w.users[ix.user].badDebt, w.insurance) else 0
  }

  // ------------------------------------------------------------ single accounts

  /** A resolution draws equal amounts from debt and fund; it clears the debt exactly when
      the fund covers it, and otherwise empties the fund. */
  lemma ResolveClearsOrEmpties(u: User, insurance: u64)
    requires ResolveBankruptcy(u, insurance).Ok?
    ensures var (u', fund) := ResolveBankruptcy(u, insurance).value;
      && u.badDebt - u'.badDebt == insurance - fund == Min(u.badDebt, insurance)
      && (u'.badDebt == 0 || fund == 0)
      && (u'.badDebt == 0 <==> u.badDebt <= insurance)
      && (u'.bankrupt <==> u'.badDebt > 0)
      && u' == u.(badDebt := u'.badDebt, bankrupt := u'.bankrupt)
  {
  }

  /** The fee a liquidation charges, in exact terms. */
  lemma ChargeIsDue(m: Market, size: u64, price: u64, afterPnl: i128)
    requires ChargeLiquidation(m, size, price, afterPnl).Ok? && size <= I64_MAX + 1
    ensures ChargeLiquidation(m, size, price, afterPnl).value == FeeDue(afterPnl, size, price, m.liquidationFeeBps)
  {
    assert Abs(AsI64(size)) == size;
    LiquidationFeeExact(PositionNotional(AsI64(size), price).value, m.liquidationFeeBps);
  }

  /** A liquidation adds to the debt exactly what funding and loss leave uncovered, and pays
      the fund exactly the fee due; the fee adds no debt. */
  lemma LiquidationDebt(u: User, m: Market, insurance: u64, maxBase: u64, price: u64)
    requires UserOk(u) && LiquidatePerp(u, m, insurance, maxBase, price).Ok?
    ensures FindPosition(u.positions, m.index).Some?
    ensures var l := LiquidatePerp(u, m, insurance, maxBase, price).value;
      var due := PaymentDue(u, m);
      var left := Max(u.collateral - due, 0);
      var realized := l.user.settledPnl - u.settledPnl;
      var size := CloseSize(maxBase, Abs(u.positions[FindPosition(u.positions, m.index).value].base));
      && l.user.badDebt == u.badDebt + Uncovered(u.collateral, due) + Uncovered(left, 0 - realized)
      && l.insurance == insurance + FeeDue(left + realized, size, price, m.liquidationFeeBps)
      && l.user.collateral == Max(left + realized, 0) - FeeDue(left + realized, size, price, m.liquidationFeeBps)
      && (l.user.bankrupt <==> u.bankrupt || left + realized < 0)
  {
    var at, payment, paid := LiquidatePerpShape(u, m, insurance, maxBase, price);
    var size := CloseSize(maxBase, Abs(u.positions[at].base));
    hide LiquidatePerp, LiquidateClose, PaymentDue, PayFunding, RequireLiquidatable, Reduce;
    PayFundingFacts(u, at, payment, m.amm.cumFundingLong);
    hide UserOk;
    var swap, reduction, fee := LiquidateShape(paid, m, insurance, at, size, price);
    FeeNeverCreatesDebt(m, size, price, paid.collateral + reduction.realized);
    assert size <= I64_MAX + 1;
    ChargeIsDue(m, size, price, paid.collateral + reduction.realized);
    hide ChargeLiquidation, FeeDue;
  }

  lemma SettlementDebt(u: User, m: Market)
    requires UserOk(u) && SettleFunding(u, m).Ok?
    ensures var u' := SettleFunding(u, m).value;
      var due := PaymentDue(u, m);
      && u'.badDebt == u.badDebt + Uncovered(u.collateral, due)
      && u'.collateral == Max(u.collateral - due, 0)
  {
    var at, payment, paid := SettleShape(u, m);
    PayFundingFacts(u, at, payment, m.amm.cumFundingLong);
  }

  // ------------------------------------------------------------ everything else

  /** What trading may write in an account. */
  predicate OnlyTradedBy(u: User, u': User) {
    u' == u.(collateral := u'.collateral, settledPnl := u'.settledPnl, positions := u'.positions, orders := u'.orders)
  }

  lemma OpenWrites(u: User, m: Market, feeBps: u16, dir: Direction, size: u64, limit: u64, price: u64)
    requires ExecuteAmmOpen(u, m, feeBps, dir, size, limit, price).Ok?
    ensures OnlyTradedBy(u, ExecuteAmmOpen(u, m, feeBps, dir, size, limit, price).value.user)
    ensures ExecuteAmmOpen(u, m, feeBps, dir, size, limit, price).value.user.orders == u.orders
  {
    var _, _ := OpenShape(u, m, feeBps, dir, size, limit, price);
    hide ExecuteAmmOpen;
  }

  lemma CloseWrites(u: User, m: Market, feeBps: u16, at: nat, size: u64, limit: u64)
    requires at < |u.positions| && ExecuteAmmClose(u, m, feeBps, at, size, limit).Ok?
    ensures OnlyTradedBy(u, ExecuteAmmClose(u, m, feeBps, at, size, limit).value.user)
    ensures ExecuteAmmClose(u, m, feeBps, at, size, limit).value.user.orders == u.orders
  {
    var _, _ := CloseShape(u, m, feeBps, at, size, limit);
    hide ExecuteAmmClose;
  }

  lemma MatchWrites(taker: User, maker: User, m: Market, feeBps: u16, rebateBps: u16, dir: Direction, size: u64,
                    fillPrice: u64, price: u64)
    requires ExecuteMakerMatch(taker, maker, m, feeBps, rebateBps, dir, size, fillPrice, price).Ok?
    ensures var f := ExecuteMakerMatch(taker, maker, m, feeBps, rebateBps, dir, size, fillPrice, price).value;
      OnlyTradedBy(taker, f.taker) && OnlyTradedBy(maker, f.maker)
  {
    hide ExecuteMakerMatch, ApplyMatchLeg, PriceMatch;
    var priced, first, second := MatchShape(taker, maker, m, feeBps, rebateBps, dir, size, fillPrice, price);
    var _ := MatchLegShape(taker, m, dir, size, priced.quote, 0 - priced.fee, price);
    var _ := MatchLegShape(maker, first.1, Opposite(dir), size, priced.quote, priced.rebate, price);
  }

  lemma FillWrites(cfg: Config, u: User, m: Market, id: u32, price: u64)
    requires FillOrder(cfg, u, m, id, price).Ok?
    ensures OnlyTradedBy(u, FillOrder(cfg, u, m, id, price).value.0)
  {
    hide ExecuteAmmOpen, ExecuteAmmClose;
    var order := u.orders[FindOrder(u.orders, id).value];
    if order.reduceOnly {
      var i := FindPosition(u.positions, m.index).value;
      CloseWrites(u, m, cfg.takerFeeBps, i, Min(order.Remaining(), Abs(u.positions[i].base)), order.price);
    } else {
      OpenWrites(u, m, cfg.takerFeeBps, order.direction, order.Remaining(), order.price, price);
    }
  }

  lemma TriggerWrites(cfg: Config, u: User, m: Market, id: u32, price: u64)
    requires TriggerOrder(cfg, u, m, id, price).Ok?
    ensures OnlyTradedBy(u, TriggerOrder(cfg, u, m, id, price).value.0)
  {
    hide ExecuteAmmClose;
    var order := u.orders[FindOrder(u.orders, id).value];
    var i := FindPosition(u.positions, m.index).value;
    CloseWrites(u, m, cfg.takerFeeBps, i, Min(order.Remaining(), Abs(u.positions[i].base)),
                if order.orderType == TriggerLimit then order.price else 0);
  }

  lemma FillMatchWrites(cfg: Config, taker: User, maker: User, same: bool, m: Market, takerId: u32, makerId: u32,
                        price: u64)
    requires FillMatch(cfg, taker, maker, same, m, takerId, makerId, price).Ok?
    ensures var f := FillMatch(cfg, taker, maker, same, m, takerId, makerId, price).value;
      !same && OnlyTradedBy(taker, f.taker) && OnlyTradedBy(maker, f.maker)
  {
    hide ExecuteMakerMatch;
    var pair := CheckMatch(cfg, taker, maker, same, m, takerId, makerId).value;
    MatchWrites(taker, maker, m, cfg.takerFeeBps, cfg.makerRebateBps, taker.orders[pair.takerSlot].direction, pair.size,
                maker.orders[pair.makerSlot].price, price);
  }

  predicate MovesDebt(ix: Instruction) { ix.Settle? || ix.Liquidate? || ix.Resolve? }

  /** Only settlement, liquidation and resolution touch debt or the fund. */
  lemma DebtUntouched(w: World, ix: Instruction, w': World, i: nat)
    requires Step(w, ix) == Ok(w') && i < |w.users| && !MovesDebt(ix)
    ensures i < |w'.users| && w'.users[i].badDebt == w.users[i].badDebt && w'.insurance == w.insurance
  {
    hide OpenPosition, ClosePosition, FillOrder, TriggerOrder, FillMatch;
    match ix
    case OpenTrade(j, k, dir, size, limit, price) =>
      OpenTradeWrites(w.config, w.users[j], w.markets[k], dir, size, limit, price);
    case Close(j, k, size, limit) => CloseTradeWrites(w.config, w.users[j], w.markets[k], size, limit);
    case Fill(j, k, id, price) => FillWrites(w.config, w.users[j], w.markets[k], id, price);
    case Trigger(j, k, id, price) => TriggerWrites(w.config, w.users[j], w.markets[k], id, price);
    case Match(t, j, k, takerId, makerId, price) =>
      FillMatchWrites(w.config, w.users[t], w.users[j], t == j, w.markets[k], takerId, makerId, price);
    case _ =>
  }

  lemma OpenTradeWrites(cfg: Config, u: User, m: Market, dir: Direction, size: u64, limit: u64, price: u64)
    requires OpenPosition(cfg, u, m, dir, size, limit, price).Ok?
    ensures OnlyTradedBy(u, OpenPosition(cfg, u, m, dir, size, limit, price).value.0)
    ensures OpenPosition(cfg, u, m, dir, size, limit, price).value.0.orders == u.orders
  {
    hide ExecuteAmmOpen;
    OpenWrites(u, m, cfg.takerFeeBps, dir, size, limit, price);
  }

  lemma CloseTradeWrites(cfg: Config, u: User, m: Market, size: u64, limit: u64)
    requires ClosePosition(cfg, u, m, size, limit).Ok?
    ensures OnlyTradedBy(u, ClosePosition(cfg, u, m, size, limit).value.0)
    ensures ClosePosition(cfg, u, m, size, limit).value.0.orders == u.orders
  {
    hide ExecuteAmmClose;
    var i := FindPosition(u.positions, m.index).value;
    CloseWrites(u, m, cfg.takerFeeBps, i, CloseSize(size, Abs(u.positions[i].base)), limit);
  }

  // ------------------------------------------------------------ whole runs

  function DebtOf(): User -> int { (u: User) => u.badDebt }

  ghost function TotalDebt(w: World): int { Sum(w.users, DebtOf()) }

  /** One step's effect on debt and fund. */
  ghost predicate DebtBooked(w: World, ix: Instruction, w': World) {
    && TotalDebt(w') == TotalDebt(w) + Shortfall()(w, ix, w') - Cleared()(w, ix, w')
    && w'.insurance == w.insurance + FeeTaken()(w, ix, w') - Cleared()(w, ix, w')
  }

  lemma StepDebt(w: World, ix: Instruction, w': World)
    requires WorldOk(w) && Step(w, ix) == Ok(w')
    ensures DebtBooked(w, ix, w')
  {
    if ix.Settle? {
      SettleDebt(w, ix, w');
    } else if ix.Liquidate? {
      LiquidateDebt(w, ix, w');
    } else if ix.Resolve? {
      ResolveClearsOrEmpties(w.users[ix.user], w.insurance);
      SumUpdate(w.users, ix.user, w'.users[ix.user], DebtOf());
    } else if ix.InitUser? {
      SumAppend(w.users, NewUser(), DebtOf());
    } else {
      QuietDebt(w, ix, w');
    }
  }

  lemma SettleDebt(w: World, ix: Instruction, w': World)
    requires WorldOk(w) && ix.Settle? && Step(w, ix) == Ok(w')
    ensures DebtBooked(w, ix, w')
  {
    assert UserOk(w.users[ix.user]);
    SettlementDebt(w.users[ix.user], w.markets[ix.market]);
    hide SettleFunding, PaymentDue;
    SumUpdate(w.users, ix.user, w'.users[ix.user], DebtOf());
  }

  lemma LiquidateDebt(w: World, ix: Instruction, w': World)
    requires WorldOk(w) && ix.Liquidate? && Step(w, ix) == Ok(w')
    ensures DebtBooked(w, ix, w')
  {
    assert UserOk(w.users[ix.user]);
    LiquidationDebt(w.users[ix.user], w.markets[ix.market], w.insurance, ix.maxBase, ix.price);
    var l := LiquidatePerp(w.users[ix.user], w.markets[ix.market], w.insurance, ix.maxBase, ix.price).value;
    assert w'.users == w.users[ix.user := l.user] && w'.insurance == l.insurance;
    assert w.markets[ix.market].index == ix.market;
    hide *;
    LiquidateLedgers(w, ix, w', w.users[ix.user], w.markets[ix.market]);
    SumUpdate(w.users, ix.user, l.user, DebtOf());
  }

  /** The ledgers of a liquidation, as read off its accounts. */
  lemma LiquidateLedgers(w: World, ix: Instruction, w': World, u: User, m: Market)
    requires ix.Liquidate? && ix.user < |w.users| && ix.user < |w'.users| && ix.market < |w.markets|
    requires u == w.users[ix.user] && m == w.markets[ix.market] && FindPosition(u.positions, m.index).Some?
    ensures var left := Max(u.collateral - PaymentDue(u, m), 0);
      var realized := w'.users[ix.user].settledPnl - u.settledPnl;
      var size := CloseSize(ix.maxBase, Abs(u.positions[FindPosition(u.positions, m.index).value].base));
      && Shortfall()(w, ix, w') == Uncovered(u.collateral, PaymentDue(u, m)) + Uncovered(left, 0 - realized)
      && FeeTaken()(w, ix, w') == FeeDue(left + realized, size, ix.price, m.liquidationFeeBps)
      && Cleared()(w, ix, w') == 0
  {
    hide PaymentDue, FeeDue, FindPosition;
  }

  lemma QuietDebt(w: World, ix: Instruction, w': World)
    requires Step(w, ix) == Ok(w') && !MovesDebt(ix) && !ix.InitUser?
    ensures TotalDebt(w') == TotalDebt(w) && w'.insurance == w.insurance
  {
    UserCount(w, ix, w');
    forall i | 0 <= i < |w.users|
      ensures DebtOf()(w'.users[i]) == DebtOf()(w.users[i])
    {
      DebtUntouched(w, ix, w', i);
    }
    SameSum(w.users, w'.users, DebtOf());
    InsuranceUntouched(w, ix, w');
  }

  lemma UserCount(w: World, ix: Instruction, w': World)
    requires Step(w, ix) == Ok(w') && !ix.InitUser?
    ensures |w'.users| == |w.users|
  {
    hide OpenPosition, ClosePosition, FillOrder, TriggerOrder, FillMatch, LiquidatePerp;
  }

  lemma InsuranceUntouched(w: World, ix: Instruction, w': World)
    requires Step(w, ix) == Ok(w') && !ix.Liquidate? && !ix.Resolve?
    ensures w'.insurance == w.insurance
  {
    hide OpenPosition, ClosePosition, FillOrder, TriggerOrder, FillMatch;
  }

  /** Over any history: outstanding debt is the shortfalls less what was cleared, and the
      fund holds the liquidation fees less what was cleared.  So debt net of the fund is
      shortfalls net of fees, whenever and however debts are resolved. */
  lemma {:induction false} DebtConserved(cfg: Config, history: seq<Instruction>)
    requires AllWellSized(history)
    ensures var w := Run(cfg, history);
      && TotalDebt(w) == Accumulated(cfg, history, Shortfall()) - Accumulated(cfg, history, Cleared())
      && w.insurance == Accumulated(cfg, history, FeeTaken()) - Accumulated(cfg, history, Cleared())
  {
    hide Step, WorldOk, Shortfall, Cleared, FeeTaken;
    if history == [] {
    } else {
      var n := |history| - 1;
      DebtConserved(cfg, history[..n]);
      RunSound(cfg, history[..n]);
      var w := Run(cfg, history[..n]);
      if Step(w, history[n]).Ok? {
        StepDebt(w, history[n], Step(w, history[n]).value);
      }
    }
  }

  /** In every reachable state a bankrupt account owes something. */
  lemma BankruptOwes(cfg: Config, history: seq<Instruction>, i: nat)
    requires AllWellSized(history) && i < |Run(cfg, history).users|
    ensures Run(cfg, history).users[i].bankrupt ==> Run(cfg, history).users[i].badDebt > 0
  {
    RunSound(cfg, history);
    assert UserOk(Run(cfg, history).users[i]);
  }
}
