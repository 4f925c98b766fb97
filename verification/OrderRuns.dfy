/** Orders over whole histories: ids stay distinct, no order is overfilled, and peer fills
    respect every order's limit price. */
module OrderRuns {
  import opened Numbers
  import opened Sequences
  import opened State
  import opened Controller
  import opened Instructions
  import opened Protocol
  import opened Bookkeeping
  import opened Ledger
  import opened Liquidations
  import opened Steps
  import opened Runs
  import opened Frames
  import opened Debt
  import opened OrderLife

  // ------------------------------------------------------------ what a step does to orders

  /** The order of user `i` that a step fills. */
  function OrderOf(ix: Instruction, i: nat): Option<u32> {
    match ix
    case Fill(u, _, id, _) => if u == i then Some(id) else None
    case Trigger(u, _, id, _) => if u == i then Some(id) else None
    case Match(t, m, _, takerId, makerId, _) => if t == i then Some(takerId) else if m == i then Some(makerId) else None
    case _ => None
  }

  predicate PlacesOrder(u: User, u': User, k: u16, p: OrderParams, now: i64) {
    && u'.nextOrderId == NextId(u.nextOrderId)
    && Position(u.orders, NotOpen()).Some?
    && u'.orders == u.orders[Position(u.orders, NotOpen()).value := RestingOrder(u.nextOrderId, k, p, now)]
  }

  predicate CancelsOrder(u: User, u': User) {
    && u'.nextOrderId == u.nextOrderId && |u'.orders| == |u.orders|
    && forall a :: 0 <= a < |u.orders| ==> u'.orders[a] == u.orders[a] || !u'.orders[a].IsOpen()
  }

  /** A buy pays at most its limit for what it fills; a sell receives at least its limit,
      less a rounding loss below one unit. */
  predicate FairPrice(o: Order, size: int, quote: int) {
    if o.direction == Long then BASE_PRECISION * quote <= size * o.price
    else BASE_PRECISION * quote + BASE_PRECISION - 1 >= size * o.price
  }

  /** Base and quote of a step as they show in the account of user `i`. */
  ghost function Moved(w: World, ix: Instruction, w': World, i: nat): nat
    requires MarketOf(ix).Some? && i < |w.users| && i < |w'.users|
  {
    Abs(Exposure(ix.market)(w'.users[i]) - Exposure(ix.market)(w.users[i]))
  }

  ghost function Paid(w: World, ix: Instruction, w': World, i: nat): nat
    requires MarketOf(ix).Some? && i < |w.users| && i < |w'.users|
  {
    Abs(UserEntry(ix.market)(w'.users[i]) - UserEntry(ix.market)(w.users[i]))
  }

  ghost predicate OrderStep(w: World, ix: Instruction, w': World, i: nat)
    requires i < |w.users| && i < |w'.users|
  {
    var u, u' := w.users[i], w'.users[i];
    if ix.Place? && ix.user == i then PlacesOrder(u, u', ix.market, ix.order, ix.now)
    else if OrderOf(ix, i).Some? then
      var id := OrderOf(ix, i).value;
      && FillsOrder(u, u', id, Moved(w, ix, w', i))
      && (ix.Match? ==> FairPrice(u.orders[FindOrder(u.orders, id).value], Moved(w, ix, w', i), Paid(w, ix, w', i)))
    else CancelsOrder(u, u')
  }

  lemma PairedFair(bid: Order, ask: Order, quote: int, size: nat)
    requires Paired(bid, ask, quote, size)
    ensures FairPrice(bid, size, quote) && FairPrice(ask, size, quote)
  {
    FloorBounds(size * ask.price, BASE_PRECISION);
    if bid.direction == Long { ScaleMono(ask.price, bid.price, size); } else { ScaleMono(bid.price, ask.price, size); }
  }

  lemma ScaleMono(x: int, y: int, size: nat)
    requires x <= y
    ensures size * x <= size * y
  {
  }

  lemma FillStep(w: World, ix: Instruction, w': World)
    requires WorldOk(w) && (ix.Fill? || ix.Trigger?) && Step(w, ix) == Ok(w')
    ensures ix.user < |w'.users| && OrderStep(w, ix, w', ix.user)
  {
    var i, k := ix.user, ix.market;
    var u, m := w.users[i], w.markets[k];
    assert UserOk(u) && MarketOk(m) && m.index == k;
    ListedAll(w, i, k);
    var size;
    if ix.Fill? {
      size := FillFillsOrder(w.config, u, m, ix.id, ix.price);
      FillOrderTraded(w.config, u, m, ix.id, ix.price);
    } else {
      size := TriggerFillsOrder(w.config, u, m, ix.id, ix.price);
      TriggerOrderTraded(w.config, u, m, ix.id, ix.price);
    }
    hide FillOrder, TriggerOrder;
    assert w' == WithTrade(w, i, k, (w'.users[i], w'.markets[k]));
    hide *;
    AmmFillStep(w, ix, w', size);
  }

  lemma AmmFillStep(w: World, ix: Instruction, w': World, size: int)
    requires (ix.Fill? || ix.Trigger?) && ix.user < |w.users| && ix.user < |w'.users|
    requires ix.market < |w.markets| && ix.market < |w'.markets|
    requires var u, m, u', m' := w.users[ix.user], w.markets[ix.market], w'.users[ix.user], w'.markets[ix.market];
      && m.index == ix.market && FillsOrder(u, u', ix.id, size) && Traded(u, m, u', m')
      && Abs(m'.amm.long + m'.amm.short - m.amm.long - m.amm.short) == size
    ensures OrderStep(w, ix, w', ix.user)
  {
    var u, m, u', m' := w.users[ix.user], w.markets[ix.market], w'.users[ix.user], w'.markets[ix.market];
    LegExposure(u, m, u', m', QuoteIn(m.amm, m'.amm), u'.settledPnl - u.settledPnl, m'.amm.totalFee - m.amm.totalFee);
    hide Traded, FillsOrder;
    assert Moved(w, ix, w', ix.user) == size;
  }

  lemma MatchStep(w: World, ix: Instruction, w': World, i: nat)
    requires WorldOk(w) && ix.Match? && Step(w, ix) == Ok(w') && i in UsersOf(ix)
    ensures i < |w.users| && i < |w'.users| && OrderStep(w, ix, w', i)
  {
    var t, j, m := ix.taker, ix.maker, w.markets[ix.market];
    var f := FillMatch(w.config, w.users[t], w.users[j], t == j, m, ix.takerId, ix.makerId, ix.price).value;
    assert UserOk(w.users[t]) && UserOk(w.users[j]) && m.index == ix.market && t != j;
    hide FillMatch, UserOk;
    var size, quote := MatchFills(w.config, w.users[t], w.users[j], m, ix.takerId, ix.makerId, ix.price);
    assert w'.users[t] == f.taker && w'.users[j] == f.maker;
    hide *;
    MatchedStep(w, ix, w', i, size, quote);
  }

  lemma MatchedStep(w: World, ix: Instruction, w': World, i: nat, size: int, quote: int)
    requires ix.Match? && ix.taker < |w.users| && ix.maker < |w.users| && |w'.users| == |w.users|
    requires ix.taker != ix.maker
    requires PeerFill(w.users[ix.taker], w'.users[ix.taker], ix.market, ix.takerId, size, quote)
    requires PeerFill(w.users[ix.maker], w'.users[ix.maker], ix.market, ix.makerId, size, quote)
    requires Paired(w.users[ix.taker].orders[FindOrder(w.users[ix.taker].orders, ix.takerId).value],
                    w.users[ix.maker].orders[FindOrder(w.users[ix.maker].orders, ix.makerId).value], quote, size)
    requires i in UsersOf(ix)
    ensures i < |w.users| && i < |w'.users| && OrderStep(w, ix, w', i)
  {
    var t, j := ix.taker, ix.maker;
    hide FillsOrder, Paired, FairPrice, FindOrder;
    PairedFair(w.users[t].orders[FindOrder(w.users[t].orders, ix.takerId).value],
               w.users[j].orders[FindOrder(w.users[j].orders, ix.makerId).value], quote, size);
    assert Moved(w, ix, w', i) == size && Paid(w, ix, w', i) == quote;
  }

  /** Every step touches the orders of an account in one of these ways. */
  lemma StepOrders(w: World, ix: Instruction, w': World, i: nat)
    requires WorldOk(w) && WellSized(ix) && Step(w, ix) == Ok(w') && i < |w.users|
    ensures i < |w'.users| && OrderStep(w, ix, w', i)
  {
    if i !in UsersOf(ix) {
      UserFrame(w, ix, w', i);
    } else if ix.Fill? || ix.Trigger? {
      FillStep(w, ix, w');
    } else if ix.Match? {
      MatchStep(w, ix, w', i);
    } else {
      OtherOrders(w, ix, w', i);
    }
  }

  lemma OtherOrders(w: World, ix: Instruction, w': World, i: nat)
    requires WorldOk(w) && Step(w, ix) == Ok(w') && i < |w.users| && i in UsersOf(ix)
    requires !ix.Fill? && !ix.Trigger? && !ix.Match?
    ensures i < |w'.users| && OrderStep(w, ix, w', i)
  {
    var u := w.users[i];
    assert UserOk(u);
    hide OpenPosition, ClosePosition, LiquidatePerp, SettleFunding, FillOrder, TriggerOrder, FillMatch, UserOk, WorldOk;
    match ix
    case OpenTrade(_, k, dir, size, limit, price) =>
      OpenTradeWrites(w.config, u, w.markets[k], dir, size, limit, price);
    case Close(_, k, size, limit) => CloseTradeWrites(w.config, u, w.markets[k], size, limit);
    case Settle(_, k) => SettleOrders(u, w.markets[k]);
    case Liquidate(_, k, maxBase, price) => LiquidateOrders(u, w.markets[k], w.insurance, maxBase, price);
    case _ => AccountOrders(w, ix, w', i);
  }

  /** Instructions on one account that neither trade nor settle. */
  lemma AccountOrders(w: World, ix: Instruction, w': World, i: nat)
    requires Step(w, ix) == Ok(w') && i < |w.users| && i in UsersOf(ix)
    requires ix.Deposit? || ix.Withdraw? || ix.Place? || ix.Cancel? || ix.Resolve?
    requires forall k :: 0 <= k < |w.markets| ==> w.markets[k].index == k
    ensures i < |w'.users| && OrderStep(w, ix, w', i)
  {
    hide PlaceOrder;
    if ix.Place? {
      PlaceWrites(w.config, w.users[i], w.markets[ix.market], ix.order, ix.now);
      assert PlaceOrder(w.config, w.users[i], w.markets[ix.market], ix.order, ix.now) == Ok(w'.users[i]);
      assert MarketOf(ix) == Some(ix.market);
    }
  }

  lemma PlaceWrites(cfg: Config, u: User, m: Market, p: OrderParams, now: i64)
    requires PlaceOrder(cfg, u, m, p, now).Ok?
    ensures PlacesOrder(u, PlaceOrder(cfg, u, m, p, now).value, m.index, p, now)
  {
  }

  lemma SettleOrders(u: User, m: Market)
    requires UserOk(u) && SettleFunding(u, m).Ok?
    ensures var u' := SettleFunding(u, m).value; u'.orders == u.orders && u'.nextOrderId == u.nextOrderId
  {
    var at, payment, paid := SettleShape(u, m);
    PayFundingFacts(u, at, payment, m.amm.cumFundingLong);
  }

  lemma LiquidateOrders(u: User, m: Market, insurance: u64, maxBase: u64, price: u64)
    requires UserOk(u) && LiquidatePerp(u, m, insurance, maxBase, price).Ok?
    ensures var u' := LiquidatePerp(u, m, insurance, maxBase, price).value.user;
      u'.orders == u.orders && u'.nextOrderId == u.nextOrderId
  {
    var at, payment, paid := LiquidatePerpShape(u, m, insurance, maxBase, price);
    PayFundingFacts(u, at, payment, m.amm.cumFundingLong);
    var _, _, _ := LiquidateShape(paid, m, insurance, at, CloseSize(maxBase, Abs(u.positions[at].base)), price);
    hide LiquidatePerp, LiquidateClose;
  }

  // ------------------------------------------------------------ distinct ids

  lemma PlaceKeepsOrdersOk(u: User, u': User, k: u16, p: OrderParams, now: i64)
    requires OrdersOk(u) && PlacesOrder(u, u', k, p, now) && u.nextOrderId < U32_SPAN - 1 && p.amount > 0
    ensures OrdersOk(u')
  {
  }

  lemma OrdersStay(w: World, ix: Instruction, w': World, i: nat)
    requires WorldOk(w) && WellSized(ix) && Step(w, ix) == Ok(w') && i < |w.users| && OrdersOk(w.users[i])
    requires ix.Place? && ix.user == i ==> w.users[i].nextOrderId < U32_SPAN - 1
    ensures i < |w'.users| && OrdersOk(w'.users[i])
  {
    StepOrders(w, ix, w', i);
    var u, u' := w.users[i], w'.users[i];
    if ix.Place? && ix.user == i {
      hide OrdersOk;
      PlaceKeepsOrdersOk(u, u', ix.market, ix.order, ix.now);
    } else if OrderOf(ix, i).Some? {
      hide OrdersOk;
      FillKeepsOrdersOk(u, u', OrderOf(ix, i).value, Moved(w, ix, w', i));
    } else {
      CancelKeepsOrdersOk(u, u');
    }
  }

  lemma CancelKeepsOrdersOk(u: User, u': User)
    requires OrdersOk(u) && CancelsOrder(u, u')
    ensures OrdersOk(u')
  {
  }

  function Placements(i: nat): (World, Instruction, World) -> int {
    (w: World, ix: Instruction, w': World) => if ix.Place? && ix.user == i then 1 else 0
  }

  /** The counter of a user and the soundness of its orders after `placed` placements. */
  predicate IdsOk(w: World, i: nat, placed: int) {
    if i < |w.users| then w.users[i].nextOrderId == placed && OrdersOk(w.users[i]) else placed == 0
  }

  lemma StepIds(w: World, ix: Instruction, w': World, i: nat, placed: int)
    requires WorldOk(w) && WellSized(ix) && Step(w, ix) == Ok(w') && IdsOk(w, i, placed)
    requires placed + Placements(i)(w, ix, w') < U32_SPAN
    ensures IdsOk(w', i, placed + Placements(i)(w, ix, w'))
  {
    if i < |w.users| {
      StepOrders(w, ix, w', i);
      OrdersStay(w, ix, w', i);
      hide OrdersOk, WorldOk, Step;
    } else {
      NewcomerOrders(w, ix, w', i);
    }
  }

  /** An account that did not exist has placed nothing, and starts with no orders. */
  lemma NewcomerOrders(w: World, ix: Instruction, w': World, i: nat)
    requires Step(w, ix) == Ok(w') && i >= |w.users|
    ensures i < |w'.users| ==> w'.users[i] == NewUser()
    ensures i !in UsersOf(ix)
  {
    hide OpenPosition, ClosePosition, FillOrder, TriggerOrder, FillMatch, LiquidatePerp;
  }

  lemma {:induction false} PlacementsGrow(cfg: Config, history: seq<Instruction>, i: nat)
    ensures Accumulated(cfg, history, Placements(i)) >= 0
    ensures history != [] ==>
      Accumulated(cfg, history[..|history| - 1], Placements(i)) <= Accumulated(cfg, history, Placements(i))
  {
    if history == [] {
    } else {
      PlacementsGrow(cfg, history[..|history| - 1], i);
    }
  }

  /** While a user has placed fewer than 2^32 orders, its counter is their number, its open
      orders have distinct ids below it, and every open order has something left to fill. */
  lemma {:induction false} OpenOrdersSound(cfg: Config, history: seq<Instruction>, i: nat)
    requires AllWellSized(history) && Accumulated(cfg, history, Placements(i)) < U32_SPAN
    ensures IdsOk(Run(cfg, history), i, Accumulated(cfg, history, Placements(i)))
  {
    hide Step, WorldOk, IdsOk, Placements;
    if history == [] {
      NoIdsYet(cfg, i);
    } else {
      var n := |history| - 1;
      PlacementsGrow(cfg, history, i);
      OpenOrdersSound(cfg, history[..n], i);
      RunSound(cfg, history[..n]);
      var w := Run(cfg, history[..n]);
      if Step(w, history[n]).Ok? {
        StepIds(w, history[n], Step(w, history[n]).value, i, Accumulated(cfg, history[..n], Placements(i)));
      }
    }
  }

  lemma NoIdsYet(cfg: Config, i: nat)
    ensures IdsOk(Genesis(cfg), i, 0)
  {
  }

  /** A cancel frees the slot of the order it names and no other; afterwards no open order has
      that id. */
  lemma CancelFrees(w: World, ix: Instruction, w': World)
    requires ix.Cancel? && Step(w, ix) == Ok(w') && OrdersOk(w.users[ix.user])
    ensures FindOrder(w.users[ix.user].orders, ix.id).Ok? && |w'.users| == |w.users|
    ensures var os, os' := w.users[ix.user].orders, w'.users[ix.user].orders;
      var slot := FindOrder(os, ix.id).value;
      && |os'| == |os| && os'[slot].status != Open && os'[slot].amount == 0
      && (forall a :: 0 <= a < |os| && a != slot ==> os'[a] == os[a])
      && (forall a :: 0 <= a < |os'| ==> !(os'[a].status == Open && os'[a].id == ix.id))
  {
  }
}
