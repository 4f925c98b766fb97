/** The protocol as a state machine: all accounts, one instruction at a time. */
module Protocol {
  import opened Numbers
  import opened Sequences
  import opened State
  import opened Controller
  import opened Instructions

  /** All accounts.  A user is named by its position in `users`; a market by its index. */
  datatype World = World(config: Config, users: seq<User>, markets: seq<Market>, insurance: u64)

  /** Instructions with the data they are sent: account names, parameters, the validated
      oracle price and the clock. */
  datatype Instruction =
    | InitUser
    | InitMarket(params: MarketParams, now: i64)
    | SetParams(market: u16, args: MarketArgs)
    | SetPaused(paused: bool)
    | Deposit(user: nat, amount: u64)
    | Withdraw(user: nat, market: u16, amount: u64, price: u64)
    | OpenTrade(user: nat, market: u16, direction: Direction, size: u64, limit: u64, price: u64)
    | Close(user: nat, market: u16, size: u64, limit: u64)
    | Place(user: nat, market: u16, order: OrderParams, now: i64)
    | Cancel(user: nat, id: u32)
    | Fill(user: nat, market: u16, id: u32, price: u64)
    | Match(taker: nat, maker: nat, market: u16, takerId: u32, makerId: u32, price: u64)
    | Trigger(user: nat, market: u16, id: u32, price: u64)
    | CrankFunding(market: u16, price: u64, now: i64)
    | Settle(user: nat, market: u16)
    | Liquidate(user: nat, market: u16, maxBase: u64, price: u64)
    | Resolve(user: nat)

  /** The accounts an instruction names. */
  function UsersOf(ix: Instruction): set<nat> {
    match ix
    case InitUser | InitMarket(_, _) | SetParams(_, _) | SetPaused(_) | CrankFunding(_, _, _) => {}
    case Match(t, k, _, _, _, _) => {t, k}
    case _ => {ix.user}
  }

  function MarketOf(ix: Instruction): Option<nat> {
    match ix
    case InitUser | InitMarket(_, _) | SetPaused(_) | Deposit(_, _) | Cancel(_, _) | Resolve(_) => None
    case _ => Some(ix.market)
  }

  predicate Loadable(w: World, ix: Instruction) {
    && (MarketOf(ix).Some? ==> MarketOf(ix).value < |w.markets|)
    && match ix
       case InitUser | InitMarket(_, _) | SetParams(_, _) | SetPaused(_) | CrankFunding(_, _, _) => true
       case Match(t, k, _, _, _, _) => t < |w.users| && k < |w.users|
       case _ => ix.user < |w.users|
  }

  function WithUser(w: World, i: nat, u: User): World
    requires i < |w.users|
  {
    w.(users := w.users[i := u])
  }

  function WithTrade(w: World, i: nat, k: nat, t: (User, Market)): World
    requires i < |w.users| && k < |w.markets|
  {
    w.(users := w.users[i := t.0], markets := w.markets[k := t.1])
  }

  function WithInsurance(w: World, insurance: u64): World {
    w.(insurance := insurance)
  }

  function Step(w: World, ix: Instruction): Result<World> {
    if Loadable(w, ix) then Execute(w, ix) else Err(AccountNotInitialized)
  }

  function Execute(w: World, ix: Instruction): Result<World>
    requires Loadable(w, ix)
  {
    match ix
    case InitUser =>
      var _ :- Need(|w.users| < U32_SPAN - 1, MathOverflow);
      Ok(w.(users := w.users + [NewUser()]))
    case InitMarket(p, now) =>
      var m :- InitializeMarket(|w.markets|, p, now);
      Ok(w.(markets := w.markets + [m]))
    case SetParams(k, args) =>
      var m :- UpdateMarketParams(w.markets[k], args);
      Ok(w.(markets := w.markets[k := m]))
    case SetPaused(p) => Ok(w.(config := w.config.(paused := p)))
    case Deposit(i, amount) =>
      var u :- DepositCollateral(w.config, w.users[i], amount);
      Ok(WithUser(w, i, u))
    case Withdraw(i, k, amount, price) =>
      var u :- WithdrawCollateral(w.config, w.users[i], w.markets[k], amount, price);
      Ok(WithUser(w, i, u))
    case OpenTrade(i, k, dir, size, limit, price) =>
      var t :- OpenPosition(w.config, w.users[i], w.markets[k], dir, size, limit, price);
      Ok(WithTrade(w, i, k, t))
    case Close(i, k, size, limit) =>
      var t :- ClosePosition(w.config, w.users[i], w.markets[k], size, limit);
      Ok(WithTrade(w, i, k, t))
    case Place(i, k, p, now) =>
      var u :- PlaceOrder(w.config, w.users[i], w.markets[k], p, now);
      Ok(WithUser(w, i, u))
    case Cancel(i, id) =>
      var u :- CancelOrder(w.users[i], id);
      Ok(WithUser(w, i, u))
    case Fill(i, k, id, price) =>
      var t :- FillOrder(w.config, w.users[i], w.markets[k], id, price);
      Ok(WithTrade(w, i, k, t))
    case Match(taker, maker, k, takerId, makerId, price) =>
      var f :- FillMatch(w.config, w.users[taker], w.users[maker], taker == maker, w.markets[k], takerId, makerId,
                         price);
      Ok(WithTrade(WithUser(w, taker, f.taker), maker, k, (f.maker, f.market)))
    case Trigger(i, k, id, price) =>
      var t :- TriggerOrder(w.config, w.users[i], w.markets[k], id, price);
      Ok(WithTrade(w, i, k, t))
    case CrankFunding(k, price, now) =>
      var m :- UpdateFundingRate(w.markets[k], price, now);
      Ok(w.(markets := w.markets[k := m]))
    case Settle(i, k) =>
      var u :- SettleFunding(w.users[i], w.markets[k]);
      Ok(WithUser(w, i, u))
    case Liquidate(i, k, maxBase, price) =>
      var l :- LiquidatePerp(w.users[i], w.markets[k], w.insurance, maxBase, price);
      Ok(WithInsurance(WithTrade(w, i, k, (l.user, l.market)), l.insurance))
    case Resolve(i) =>
      var r :- ResolveBankruptcy(w.users[i], w.insurance);
      Ok(WithInsurance(WithUser(w, i, r.0), r.1))
  }

  /** A failed instruction leaves every account as it was. */
  function Apply(w: World, ix: Instruction): World {
    match Step(w, ix)
    case Ok(next) => next
    case Err(_) => w
  }

  function Genesis(config: Config): World { World(config, [], [], 0) }

  /** The world after a sequence of instructions, failed ones included. */
  function RunFrom(w: World, history: seq<Instruction>): World {
    if history == [] then w
    else Apply(RunFrom(w, history[..|history| - 1]), history[|history| - 1])
  }

  function Run(config: Config, history: seq<Instruction>): World {
    RunFrom(Genesis(config), history)
  }

  /** The amount `f` accumulates over the successful steps of a history. */
  ghost function AccumulatedFrom(w: World, history: seq<Instruction>, f: (World, Instruction, World) -> int): int {
    if history == [] then 0
    else
      var before := RunFrom(w, history[..|history| - 1]);
      var ix := history[|history| - 1];
      AccumulatedFrom(w, history[..|history| - 1], f)
      + (if Step(before, ix).Ok? then f(before, ix, Step(before, ix).value) else 0)
  }

  ghost function Accumulated(config: Config, history: seq<Instruction>, f: (World, Instruction, World) -> int): int {
    AccumulatedFrom(Genesis(config), history, f)
  }
}
