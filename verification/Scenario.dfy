/** Histories written out, and the worlds they reach.  They show that the inputs behind the
    properties that fail are ones the program receives. */
module Scenario {
  import opened Numbers
  import opened Sequences
  import opened State
  import opened Curve
  import opened Margin
  import opened Controller
  import opened Instructions
  import opened Protocol

  /** No fees, no pause. */
  const PLAIN := Config(0, 0, false)

  /** One more instruction at the end of a history. */
  lemma RunMore(cfg: Config, history: seq<Instruction>, ix: Instruction)
    ensures Run(cfg, history + [ix]) == Apply(Run(cfg, history), ix)
  {
    assert (history + [ix])[..|history|] == history;
  }

  /** The first market, created at time zero. */
  function Created(p: MarketParams): Market
    requires p.peg <= U64_MAX
  {
    Market(
      p.index, Active, Amm(p.reserve, p.reserve, p.reserve, p.peg, 0, 0, 0, 0, 0, 0, p.peg, p.peg, 0, 0),
      p.marginInitial, p.marginMaintenance, p.maxLeverage, p.minOrderBase, 0, 0, p.maxOi,
      p.fundingPeriod, p.fundingPeriod, p.liquidationFeeBps)
  }

  function Funded(amount: u64): User
    requires amount <= I64_MAX
  {
    NewUser().(collateral := amount, cumDeposits := amount)
  }

  /** Parameters that market creation accepts for the first market. */
  predicate Acceptable(p: MarketParams) {
    p.index == 0 && p.marginInitial > p.marginMaintenance > 0 && p.reserve > 0 && 0 < p.peg <= U64_MAX
  }

  function Opening(p: MarketParams): seq<Instruction> { [InitUser, InitMarket(p, 0)] }

  lemma OpeningReaches(p: MarketParams)
    requires Acceptable(p)
    ensures Run(PLAIN, Opening(p)) == World(PLAIN, [NewUser()], [Created(p)], 0)
  {
    var start := Genesis(PLAIN);
    assert [] + [InitUser] == [InitUser];
    assert Opening(p) == [InitUser] + [InitMarket(p, 0)];
    RunMore(PLAIN, [], InitUser);
    RunMore(PLAIN, [InitUser], InitMarket(p, 0));
    assert Run(PLAIN, [InitUser]) == World(PLAIN, [NewUser()], [], 0);
    assert InitializeMarket(0, p, 0) == Ok(Created(p));
  }

  function FundedOpening(p: MarketParams, amount: u64): seq<Instruction> { Opening(p) + [Deposit(0, amount)] }

  lemma FundingReaches(p: MarketParams, amount: u64)
    requires Acceptable(p) && 0 < amount <= I64_MAX
    ensures Run(PLAIN, FundedOpening(p, amount)) == World(PLAIN, [Funded(amount)], [Created(p)], 0)
  {
    OpeningReaches(p);
    RunMore(PLAIN, Opening(p), Deposit(0, amount));
    assert DepositCollateral(PLAIN, NewUser(), amount) == Ok(Funded(amount));
  }

  // ------------------------------------------------------------ a first long

  function LongPositions(size: u64, quote: nat): seq<PerpPosition>
    requires size <= I64_MAX && quote <= I64_MAX
  {
    NewUser().positions[0 := PerpPosition(0, size, 0 - quote, 0, 0)]
  }

  /** The market after the first long of `size`. */
  function Bought(p: MarketParams, size: u64, swap: SwapResult): Market
    requires p.peg <= U64_MAX
  {
    var m := Created(p);
    m.(oiLong := size, amm := m.amm.(base := swap.newBase, quote := swap.newQuote, long := size))
  }

  function LongWorld(p: MarketParams, amount: u64, size: u64, swap: SwapResult): World
    requires p.peg <= U64_MAX && amount <= I64_MAX && size <= I64_MAX && swap.quote <= I64_MAX
  {
    World(PLAIN, [Funded(amount).(positions := LongPositions(size, swap.quote))], [Bought(p, size, swap)], 0)
  }

  function LongHistory(p: MarketParams, amount: u64, size: u64, price: u64): seq<Instruction> {
    FundedOpening(p, amount) + [OpenTrade(0, 0, Long, size, 0, price)]
  }

  /** The first open trade claims the first slot. */
  lemma FirstSlot(size: u64, quote: nat)
    requires 0 < size <= I64_MAX && quote <= I64_MAX
    ensures AddToPosition(NewUser().positions, 0, true, size, quote, 0)
      == Ok((LongPositions(size, quote), PerpPosition(0, size, 0 - quote, 0, 0)))
  {
    var ps := NewUser().positions;
    assert FindPosition(ps, 0).None? && Position(ps, TakenFor(0)).None?;
    assert Vacant()(ps[0]);
    assert ps[0 := EMPTY_POSITION][0 := PerpPosition(0, size, 0 - quote, 0, 0)] == LongPositions(size, quote);
  }

  /** In a world of one account and one market, an open that executes is the step. */
  lemma OpensAlone(u: User, m: Market, dir: Direction, size: u64, price: u64, f: OpenFill)
    requires m.status == Active && m.minOrderBase <= size && 0 < size && !u.beingLiquidated
    requires ExecuteAmmOpen(u, m, 0, dir, size, 0, price) == Ok(f)
    ensures Apply(World(PLAIN, [u], [m], 0), OpenTrade(0, 0, dir, size, 0, price))
      == World(PLAIN, [f.user], [f.market], 0)
  {
    hide ExecuteAmmOpen;
  }

  lemma LongReaches(p: MarketParams, amount: u64, size: u64, price: u64, swap: SwapResult)
    requires Acceptable(p) && 0 < amount <= I64_MAX && p.minOrderBase <= size && 0 < size <= I64_MAX && p.maxOi == 0
    requires SwapMarket(Created(p), size, Remove) == Ok(swap) && swap.quote * BASE_PRECISION <= U64_MAX
    requires RequireInitial(amount, PerpPosition(0, size, 0 - swap.quote, 0, 0), price, Bought(p, size, swap)).Ok?
    ensures Run(PLAIN, LongHistory(p, amount, size, price)) == LongWorld(p, amount, size, swap)
  {
    FundingReaches(p, amount);
    RunMore(PLAIN, FundedOpening(p, amount), OpenTrade(0, 0, Long, size, 0, price));
    LongAccepted(p, amount, size, price, swap);
    hide Run, Apply, ExecuteAmmOpen, SwapMarket, RequireInitial, LongPositions, Bought;
    OpensAlone(Funded(amount), Created(p), Long, size, price,
               OpenFill(Funded(amount).(positions := LongPositions(size, swap.quote)), Bought(p, size, swap),
                        swap.quote));
  }

  lemma LongAccepted(p: MarketParams, amount: u64, size: u64, price: u64, swap: SwapResult)
    requires Acceptable(p) && 0 < amount <= I64_MAX && p.minOrderBase <= size && 0 < size <= I64_MAX && p.maxOi == 0
    requires SwapMarket(Created(p), size, Remove) == Ok(swap) && swap.quote * BASE_PRECISION <= U64_MAX
    requires RequireInitial(amount, PerpPosition(0, size, 0 - swap.quote, 0, 0), price, Bought(p, size, swap)).Ok?
    ensures ExecuteAmmOpen(Funded(amount), Created(p), 0, Long, size, 0, price)
      == Ok(OpenFill(Funded(amount).(positions := LongPositions(size, swap.quote)), Bought(p, size, swap), swap.quote))
  {
    var avg := swap.quote * BASE_PRECISION / size;
    FloorGalois(0, swap.quote * BASE_PRECISION, size);
    MulMono(1, size, avg);
    FloorBounds(swap.quote * BASE_PRECISION, size);
    var priced := Priced(swap, avg, 0);
    assert FeeAmount(swap.quote, 0) == Ok(0);
    hide SwapMarket;
    assert PriceTrade(Created(p), 0, size, 0, true) == Ok(priced);
    FirstSlot(size, swap.quote);
    hide AddToPosition, PriceTrade, RequireInitial;
    assert OpenMarket(Created(p), priced, true, size) == Ok(Bought(p, size, swap));
  }

  // ------------------------------------------------------------ a free buy

  /** A market with a peg of one: mark price 0.000001 at the usual price scale. */
  const PENNY := MarketParams(0, 1, 1000, 2, 1, 1, 1, 0, 0, 3600)

  /** Opened for nothing: a funded account on a fresh market ends with a position that cost it
      nothing, at a peg where the curve's rounding does not protect the market. */
  lemma FreeBuyReached()
    ensures var w := Run(PLAIN, LongHistory(PENNY, 1, 1, 1));
      && w == LongWorld(PENNY, 1, 1, SwapResult(999, 1002, 0))
      && w.users[0].collateral == 1 && w.users[0].positions[0] == PerpPosition(0, 1, 0, 0, 0)
    ensures !BuysPayCurve(PENNY.peg)
  {
    LongReaches(PENNY, 1, 1, 1, SwapResult(999, 1002, 0));
    hide Run, BuysPayCurve;
    BuysPayCurveIff(PENNY.peg);
  }

  function Shallow(peg: u64): MarketParams { MarketParams(0, peg, 6, 2, 1, 1, 1, 0, 0, 3600) }

  /** At every other peg too, a history opens a position for less than the curve asks. */
  lemma UnderpaidReached(peg: u64)
    requires peg % BASE_PRECISION != 0 && 3 * peg <= U64_MAX
    ensures var quote := 3 * peg / BASE_PRECISION;
      && quote * BASE_PRECISION * 4 < 6 * 2 * peg
      && Run(PLAIN, LongHistory(Shallow(peg), quote + 1, 2, 1))
         == LongWorld(Shallow(peg), quote + 1, 2, SwapResult(4, 9, quote))
  {
    var quote := 3 * peg / BASE_PRECISION;
    UnderpaidOnFreshReserves(peg);
    assert SwapMarket(Created(Shallow(peg)), 2, Remove) == Ok(SwapResult(4, 9, quote));
    hide SwapMarket, Run;
    LongReaches(Shallow(peg), quote + 1, 2, 1, SwapResult(4, 9, quote));
  }

  // ------------------------------------------------------------ a long of one unit

  /** A market with a maintenance ratio of 200%, which creation accepts. */
  const STEEP := MarketParams(0, 1_000_000_000, 1001, 30_000, 20_000, 1, 1, 0, 0, 3600)

  function SteepHistory(): seq<Instruction> { LongHistory(STEEP, 10, 1, 1_000_000_000) }
  function SteepWorld(): World { LongWorld(STEEP, 10, 1, SwapResult(1000, 1003, 2)) }

  lemma SteepReaches()
    ensures Run(PLAIN, SteepHistory()) == SteepWorld()
  {
    assert SwapMarket(Created(STEEP), 1, Remove) == Ok(SwapResult(1000, 1003, 2));
    hide SwapMarket, Run;
    LongReaches(STEEP, 10, 1, 1_000_000_000, SwapResult(1000, 1003, 2));
  }

  /** Closing that unit again, on the market as bought and whatever its status. */
  lemma SteepCloses(status: MarketStatus)
    ensures var w := SteepWorld();
      var m := w.markets[0].(status := status);
      var r := ExecuteAmmClose(w.users[0], m, 0, 0, 1, 0);
      && FindPosition(w.users[0].positions, 0) == Some(0)
      && r.Ok? && r.value.realized == -1
      && r.value.user.positions[..] != [] && r.value.user.positions[0].base == 0 && r.value.user.collateral == 9
  {
    var w := SteepWorld();
    var u, m := w.users[0], w.markets[0].(status := status);
    assert OpenIn(0)(u.positions[0]);
    assert SwapMarket(m, 1, Add) == Ok(SwapResult(1001, 1002, 1));
    assert PriceTrade(m, 0, 1, 0, false) == Ok(Priced(SwapResult(1001, 1002, 1), 1_000_000_000, 0));
    assert Reduce(u.positions[0], 1, 1) == Ok(Reduction(PerpPosition(0, 0, 0, 0, 0), -1));
    hide PriceTrade, Reduce;
  }
}
