/** A history in which a capped market takes a short, a peer match and a withdrawal; every step
    is accepted because the relation holds of the worlds written out before and after it. */
module Acceptance {
  import opened Numbers
  import opened Sequences
  import opened State
  import opened Curve
  import opened Controller
  import opened Instructions
  import opened Protocol
  import opened Scenario
  import opened Agreement
  import R = Relation

  const PRICE: u64 := 1_000_000_000
  const CAPPED := MarketParams(0, 1_000_000_000, 1001, 1000, 500, 1, 1, 100, 0, 3600)

  function One(dir: Direction): OrderParams { OrderParams(Limit, dir, 1, PRICE, 0, Above, false, false) }

  function Holding(base: i64, entry: i64): seq<PerpPosition> {
    NewUser().positions[0 := PerpPosition(0, base, entry, 0, 0)]
  }

  function Resting(dir: Direction): seq<Order> { NewUser().orders[0 := RestingOrder(0, 0, One(dir), 0)] }

  // ------------------------------------------------------------ the worlds passed

  function Ready(): World { World(PLAIN, [Funded(10), Funded(10)], [Created(CAPPED)], 0) }

  function Sold(): Market {
    var m := Created(CAPPED);
    m.(oiShort := 2, amm := m.amm.(base := 1003, quote := 1000, short := -2))
  }

  function Short(): World {
    World(PLAIN, [Funded(10).(positions := Holding(-2, 1)), Funded(10)], [Sold()], 0)
  }

  function Asking(): User {
    Funded(10).(positions := Holding(-2, 1), orders := Resting(Direction.Short), nextOrderId := 1)
  }
  function Bidding(): User { Funded(10).(orders := Resting(Long), nextOrderId := 1) }

  function Asked(): World { World(PLAIN, [Asking(), Funded(10)], [Sold()], 0) }
  function Both(): World { World(PLAIN, [Asking(), Bidding()], [Sold()], 0) }

  function Paired(): Market {
    Sold().(oiLong := 1, oiShort := 3, amm := Sold().amm.(long := 1, short := -3))
  }

  function Matched(): World {
    World(PLAIN, [Funded(10).(positions := Holding(-3, 2), nextOrderId := 1),
                  Funded(10).(positions := Holding(1, -1), nextOrderId := 1)], [Paired()], 0)
  }

  function Withdrawn(): World {
    var w := Matched();
    w.(users := w.users[1 := w.users[1].(collateral := 5)])
  }

  // ------------------------------------------------------------ the steps between them

  /** A flat account takes its first slot. */
  lemma FirstJoins(m: Market, isLong: bool, size: nat, quote: nat)
    requires m.index == m.amm.cumFundingLong == 0 && 0 < size <= 2 && quote <= 1
    ensures var ps' := Holding(if isLong then size else 0 - size, if isLong then 0 - quote else quote);
      R.Joins(NewUser().positions, m, isLong, size, quote, 0, ps')
  {
    assert R.OpensIn(NewUser().positions, 0, 0);
  }

  lemma OpenAccepted(u: User, v: User, m: Market, ix: Instruction, u': User, m': Market, o: R.Opening)
    requires ix.OpenTrade? && ix.user == ix.market == 0 && m.status == Active && ix.size >= m.minOrderBase
    requires !u.beingLiquidated
    requires R.Opens(u, m, 0, ix.direction == Long, ix.size, ix.limit, ix.price, u', m', o)
    ensures Step(World(PLAIN, [u, v], [m], 0), ix) == Ok(World(PLAIN, [u', v], [m'], 0))
  {
    var w, w' := World(PLAIN, [u, v], [m], 0), World(PLAIN, [u', v], [m'], 0);
    hide R.Opens, Step;
    assert w' == w.(users := w.users[0 := u'], markets := w.markets[0 := m'], insurance := 0);
    StepIff(w, ix, w');
  }

  lemma SoldOpens()
    ensures R.Opens(Funded(10), Created(CAPPED), 0, false, 2, 0, PRICE,
                    Funded(10).(positions := Holding(-2, 1)), Sold(),
                    R.Opening(Priced(SwapResult(1003, 1000, 1), 500_000_000, 0), 0, R.Worth(-2, 2, 0, 0)))
  {
    FirstJoins(Created(CAPPED), false, 2, 1);
    hide R.Joins;
  }

  lemma Opened()
    ensures Step(Ready(), OpenTrade(0, 0, Direction.Short, 2, 0, PRICE)) == Ok(Short())
  {
    SoldOpens();
    hide R.Opens, Step;
    OpenAccepted(Funded(10), Funded(10), Created(CAPPED), OpenTrade(0, 0, Direction.Short, 2, 0, PRICE),
                 Funded(10).(positions := Holding(-2, 1)), Sold(),
                 R.Opening(Priced(SwapResult(1003, 1000, 1), 500_000_000, 0), 0, R.Worth(-2, 2, 0, 0)));
  }

  lemma Placed(w: World, i: nat, dir: Direction, w': World)
    requires i < |w.users| && !w.config.paused && w.markets == [Sold()]
    requires w.users[i].orders == NewUser().orders && w.users[i].nextOrderId == 0
    requires w' == w.(users := w.users[i := w.users[i].(orders := Resting(dir), nextOrderId := 1)])
    ensures Step(w, Place(i, 0, One(dir), 0)) == Ok(w')
  {
    assert R.Places(w.users[i], w.markets[0], One(dir), 0, w'.users[i], 0);
    hide Step;
    StepIff(w, Place(i, 0, One(dir), 0), w');
  }

  /** The fill that uses up the order in the first slot. */
  lemma UsedUp(u: User, dir: Direction)
    requires u.orders == Resting(dir)
    ensures R.Matches(u.orders, 0, 0, 0) && R.Counts(u.orders[0], 1, false, EMPTY_ORDER)
    ensures u.orders[0 := EMPTY_ORDER] == NewUser().orders
  {
  }

  lemma BidTrades()
    ensures R.Trades(Bidding(), Sold(), 0, true, 1, 1, 0, PRICE, Matched().users[1], 0, R.Worth(1, 1, 0, 0))
  {
    FirstJoins(Sold(), true, 1, 1);
    UsedUp(Bidding(), Long);
    hide R.Joins, R.Counts, R.Matches, Resting;
  }

  lemma AskTrades()
    ensures R.Trades(Asking(), Sold(), 0, false, 1, 1, 0, PRICE, Matched().users[0], 0, R.Worth(-3, 3, 0, 0))
  {
    var ps, ps' := Asking().positions, Matched().users[0].positions;
    assert R.Joins(ps, Sold(), false, 1, 1, 0, ps') by {
      assert R.Held(ps, 0, 0) && R.Holds(ps[0], 0);
      hide R.Held, NewUser;
    }
    UsedUp(Asking(), Direction.Short);
    hide R.Joins, R.Counts, R.Matches, Resting;
  }

  lemma MatchAccepted(ask: User, bid: User, m: Market, ask': User, bid': User, m': Market, x: R.Matching)
    requires R.MatchesPeers(PLAIN, bid, ask, m, 0, 0, PRICE, bid', ask', m', x)
    ensures Step(World(PLAIN, [ask, bid], [m], 0), Match(1, 0, 0, 0, 0, PRICE))
      == Ok(World(PLAIN, [ask', bid'], [m'], 0))
  {
    var w, w' := World(PLAIN, [ask, bid], [m], 0), World(PLAIN, [ask', bid'], [m'], 0);
    hide R.MatchesPeers, Step;
    assert w' == w.(users := w.users[1 := bid'][0 := ask'], markets := w.markets[0 := m']);
    StepIff(w, Match(1, 0, 0, 0, 0, PRICE), w');
  }

  lemma Crossed()
    ensures Step(Both(), Match(1, 0, 0, 0, 0, PRICE)) == Ok(Matched())
  {
    var x := R.Matching(0, 0, 1, 1, 0, 0, 0, 0, R.Worth(1, 1, 0, 0), R.Worth(-3, 3, 0, 0));
    UsedUp(Bidding(), Long);
    UsedUp(Asking(), Direction.Short);
    BidTrades();
    AskTrades();
    hide R.Trades, R.Matches, R.Counts, Step;
    assert R.MatchesPeers(PLAIN, Bidding(), Asking(), Sold(), 0, 0, PRICE, Matched().users[1], Matched().users[0],
                          Paired(), x);
    hide R.MatchesPeers, Asking, Bidding, Sold, Paired;
    MatchAccepted(Asking(), Bidding(), Sold(), Matched().users[0], Matched().users[1], Paired(), x);
  }

  lemma Paid()
    ensures Step(Matched(), Withdraw(1, 0, 5, PRICE)) == Ok(Withdrawn())
  {
    var w, w' := Matched(), Withdrawn();
    var u, m := w.users[1], w.markets[0];
    forall at: nat | R.Held(u.positions, 0, at)
      ensures exists v :: R.Margined(5, u.positions[at], PRICE, m, v)
    {
      assert R.Margined(5, u.positions[at], PRICE, m, R.Worth(1, 1, 0, 0));
    }
    hide Step;
    StepIff(w, Withdraw(1, 0, 5, PRICE), w');
  }

  // ------------------------------------------------------------ the history

  function Prelude(): seq<Instruction> { FundedOpening(CAPPED, 10) + [InitUser] + [Deposit(1, 10)] }

  lemma PreludeReaches()
    ensures Run(PLAIN, Prelude()) == Ready()
  {
    FundingReaches(CAPPED, 10);
    RunMore(PLAIN, FundedOpening(CAPPED, 10), InitUser);
    RunMore(PLAIN, FundedOpening(CAPPED, 10) + [InitUser], Deposit(1, 10));
    assert DepositCollateral(PLAIN, NewUser(), 10) == Ok(Funded(10));
  }

  function BusyHistory(): seq<Instruction> {
    Prelude() + [OpenTrade(0, 0, Direction.Short, 2, 0, PRICE)] + [Place(0, 0, One(Direction.Short), 0)]
    + [Place(1, 0, One(Long), 0)] + [Match(1, 0, 0, 0, 0, PRICE)] + [Withdraw(1, 0, 5, PRICE)]
  }

  /** Under a cap of 100: a short of 2, two resting orders, their match, and a withdrawal from the
      account left long are all accepted, one after the other. */
  lemma BusyMarketReached()
    ensures var w := Run(PLAIN, BusyHistory());
      && w == Withdrawn()
      && w.markets[0].maxOi == 100 && w.markets[0].oiLong == 1 && w.markets[0].oiShort == 3
      && w.users[0].positions[0] == PerpPosition(0, -3, 2, 0, 0) && w.users[0].collateral == 10
      && w.users[1].positions[0] == PerpPosition(0, 1, -1, 0, 0) && w.users[1].collateral == 5
  {
    PreludeReaches();
    Opened();
    Placed(Short(), 0, Direction.Short, Asked());
    Placed(Asked(), 1, Long, Both());
    Crossed();
    Paid();
    hide Step, Run;
    var h0 := Prelude();
    var h1 := h0 + [OpenTrade(0, 0, Direction.Short, 2, 0, PRICE)];
    var h2 := h1 + [Place(0, 0, One(Direction.Short), 0)];
    var h3 := h2 + [Place(1, 0, One(Long), 0)];
    var h4 := h3 + [Match(1, 0, 0, 0, 0, PRICE)];
    RunMore(PLAIN, h0, OpenTrade(0, 0, Direction.Short, 2, 0, PRICE));
    RunMore(PLAIN, h1, Place(0, 0, One(Direction.Short), 0));
    RunMore(PLAIN, h2, Place(1, 0, One(Long), 0));
    RunMore(PLAIN, h3, Match(1, 0, 0, 0, 0, PRICE));
    RunMore(PLAIN, h4, Withdraw(1, 0, 5, PRICE));
  }
}
