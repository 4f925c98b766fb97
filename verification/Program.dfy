/** The program on its accounts: one instruction loads the accounts it names, runs its
    handler on them and writes them back, unless the handler fails. */
module Program {
  import opened Numbers
  import opened Sequences
  import opened State
  import opened Controller
  import opened Instructions
  import opened Protocol
  import opened Accounts
  import Handlers

  /** An account value that loads into slot arrays of the right sizes. */
  predicate Storable(u: User) { |u.positions| == MAX_POSITIONS && |u.orders| == MAX_ORDERS }

  /** The same account on both sides is refused before anything else but the pause. */
  lemma SelfMatchRefused(cfg: Config, u: User, m: Market, takerId: u32, makerId: u32, price: u64)
    ensures FillMatch(cfg, u, u, true, m, takerId, makerId, price)
      == Err(if cfg.paused then ProtocolPaused else SelfMatch)
  {
    hide ExecuteMakerMatch;
  }

  class AccountStore {
    var config: Config
    var users: seq<User>
    var markets: seq<Market>
    var insurance: u64

    predicate Valid()
      reads this
    {
      forall i :: 0 <= i < |users| ==> Storable(users[i])
    }

    function View(): World
      reads this
    {
      World(config, users, markets, insurance)
    }

    constructor (cfg: Config)
      ensures Valid() && View() == Genesis(cfg)
    {
      config, users, markets, insurance := cfg, [], [], 0;
    }

    /** Write back the accounts of a trade. */
    method SaveTrade(i: nat, k: nat, user: UserAccount, market: MarketAccount)
      requires Valid() && user.Valid() && i < |users| && k < |markets|
      modifies this
      ensures Valid() && View() == WithTrade(old(View()), i, k, (user.View(), market.View()))
    {
      users := users[i := user.View()];
      markets := markets[k := market.View()];
    }

    method SaveUser(i: nat, user: UserAccount)
      requires Valid() && user.Valid() && i < |users|
      modifies this
      ensures Valid() && View() == WithUser(old(View()), i, user.View())
    {
      users := users[i := user.View()];
    }

    // ---------------------------------------------------------- transactions by kind

    /** Instructions that write one user account. */
    method RunUser(ix: Instruction) returns (r: Result<()>)
      requires Valid() && Loadable(View(), ix)
      requires ix.Deposit? || ix.Withdraw? || ix.Place? || ix.Cancel? || ix.Settle?
      modifies this
      ensures Valid()
      ensures Protocol.Execute(old(View()), ix) == if r.Ok? then Ok(View()) else Err(r.error)
      ensures r.Err? ==> View() == old(View())
    {
      hide DepositCollateral, WithdrawCollateral, PlaceOrder, CancelOrder, SettleFunding;
      var user := new UserAccount(users[ix.user]);
      match ix {
        case Deposit(_, amount) =>
          var _ :- Handlers.Deposit(config, user, amount);
        case Withdraw(_, k, amount, price) =>
          var market := new MarketAccount(markets[k]);
          var _ :- Handlers.Withdraw(config, user, market, amount, price);
        case Place(_, k, p, now) =>
          var market := new MarketAccount(markets[k]);
          var _ :- Handlers.Place(config, user, market, p, now);
        case Cancel(_, id) =>
          var _ :- Handlers.Cancel(user, id);
        case Settle(_, k) =>
          var market := new MarketAccount(markets[k]);
          var _ :- Handlers.Settle(user, market);
      }
      SaveUser(ix.user, user);
      return Ok(());
    }

    /** Instructions that trade with the AMM of one market for one user. */
    method RunTrade(ix: Instruction) returns (r: Result<()>)
      requires Valid() && Loadable(View(), ix)
      requires ix.OpenTrade? || ix.Close? || ix.Fill? || ix.Trigger?
      modifies this
      ensures Valid()
      ensures Protocol.Execute(old(View()), ix) == if r.Ok? then Ok(View()) else Err(r.error)
      ensures r.Err? ==> View() == old(View())
    {
      hide OpenPosition, ClosePosition, FillOrder, TriggerOrder;
      var user := new UserAccount(users[ix.user]);
      var market := new MarketAccount(markets[ix.market]);
      match ix {
        case OpenTrade(_, _, dir, size, limit, price) =>
          var _ :- Handlers.OpenTrade(config, user, market, dir, size, limit, price);
        case Close(_, _, size, limit) =>
          var _ :- Handlers.CloseTrade(config, user, market, size, limit);
        case Fill(_, _, id, price) =>
          var _ :- Handlers.Fill(config, user, market, id, price);
        case Trigger(_, _, id, price) =>
          var _ :- Handlers.Trigger(config, user, market, id, price);
      }
      SaveTrade(ix.user, ix.market, user, market);
      return Ok(());
    }

    /** A match names two accounts; the same account twice is refused before any effect. */
    method RunMatch(t: nat, m: nat, k: u16, takerId: u32, makerId: u32, price: u64) returns (r: Result<()>)
      requires Valid() && t < |users| && m < |users| && k < |markets|
      modifies this
      ensures Valid()
      ensures
        Protocol.Execute(old(View()), Instruction.Match(t, m, k, takerId, makerId, price))
        == if r.Ok? then Ok(View()) else Err(r.error)
      ensures r.Err? ==> View() == old(View())
    {
      hide FillMatch;
      if t == m {
        SelfMatchRefused(config, users[t], markets[k], takerId, makerId, price);
        return Err(if config.paused then ProtocolPaused else SelfMatch);
      }
      var taker := new UserAccount(users[t]);
      var maker := new UserAccount(users[m]);
      var market := new MarketAccount(markets[k]);
      var _ :- Handlers.Match(config, taker, maker, market, takerId, makerId, price);
      SaveUser(t, taker);
      SaveTrade(m, k, maker, market);
      return Ok(());
    }

    method RunLiquidate(i: nat, k: u16, maxBase: u64, price: u64) returns (r: Result<()>)
      requires Valid() && i < |users| && k < |markets|
      modifies this
      ensures Valid()
      ensures
        Protocol.Execute(old(View()), Instruction.Liquidate(i, k, maxBase, price))
        == if r.Ok? then Ok(View()) else Err(r.error)
      ensures r.Err? ==> View() == old(View())
    {
      hide LiquidatePerp;
      var user := new UserAccount(users[i]);
      var market := new MarketAccount(markets[k]);
      var fund := new InsuranceFund(insurance);
      var _ :- Handlers.Liquidate(user, market, fund, maxBase, price);
      SaveTrade(i, k, user, market);
      insurance := fund.totalDeposits;
      return Ok(());
    }

    method RunResolve(i: nat) returns (r: Result<()>)
      requires Valid() && i < |users|
      modifies this
      ensures Valid()
      ensures Protocol.Execute(old(View()), Instruction.Resolve(i)) == if r.Ok? then Ok(View()) else Err(r.error)
      ensures r.Err? ==> View() == old(View())
    {
      hide ResolveBankruptcy;
      var user := new UserAccount(users[i]);
      var fund := new InsuranceFund(insurance);
      var _ :- Handlers.Resolve(user, fund);
      SaveUser(i, user);
      insurance := fund.totalDeposits;
      return Ok(());
    }

    /** Account creation, administration and the funding crank. */
    method RunMarket(ix: Instruction) returns (r: Result<()>)
      requires Valid() && Loadable(View(), ix)
      requires ix.InitUser? || ix.InitMarket? || ix.SetParams? || ix.SetPaused? || ix.CrankFunding?
      modifies this
      ensures Valid()
      ensures Protocol.Execute(old(View()), ix) == if r.Ok? then Ok(View()) else Err(r.error)
      ensures r.Err? ==> View() == old(View())
    {
      hide InitializeMarket, UpdateMarketParams, UpdateFundingRate;
      match ix {
        case InitUser =>
          var _ :- Need(|users| < U32_SPAN - 1, MathOverflow);
          users := users + [NewUser()];
        case InitMarket(p, now) =>
          var market := new MarketAccount(Handlers.BLANK_MARKET);
          var _ :- Handlers.InitMarket(market, |markets|, p, now);
          markets := markets + [market.View()];
        case SetParams(k, args) =>
          var market := new MarketAccount(markets[k]);
          var _ :- Handlers.SetParams(market, args);
          markets := markets[k := market.View()];
        case SetPaused(p) =>
          config := config.(paused := p);
        case CrankFunding(k, price, now) =>
          var market := new MarketAccount(markets[k]);
          var _ :- Handlers.UpdateFunding(market, price, now);
          markets := markets[k := market.View()];
      }
      return Ok(());
    }

    /** One transaction: the stored accounts end as the state machine says, and a failed
        instruction leaves every one of them as it was. */
    method Execute(ix: Instruction) returns (r: Result<()>)
      requires Valid()
      modifies this
      ensures Valid()
      ensures View() == Apply(old(View()), ix)
      ensures Step(old(View()), ix) == if r.Ok? then Ok(View()) else Err(r.error)
    {
      hide Protocol.Execute;
      var _ :- Need(Loadable(View(), ix), AccountNotInitialized);
      match ix {
        case InitUser | InitMarket(_, _) | SetParams(_, _) | SetPaused(_) | CrankFunding(_, _, _) => r := RunMarket(ix);
        case Match(t, m, k, takerId, makerId, price) => r := RunMatch(t, m, k, takerId, makerId, price);
        case Liquidate(i, k, maxBase, price) => r := RunLiquidate(i, k, maxBase, price);
        case Resolve(i) => r := RunResolve(i);
        case OpenTrade(_, _, _, _, _, _) | Close(_, _, _, _) | Fill(_, _, _, _) | Trigger(_, _, _, _) =>
          r := RunTrade(ix);
        case Deposit(_, _) | Withdraw(_, _, _, _) | Place(_, _, _, _) | Cancel(_, _) | Settle(_, _) => r := RunUser(ix);
      }
    }

    /** Any sequence of transactions, failed ones included. */
    method ExecuteAll(history: seq<Instruction>)
      requires Valid()
      modifies this
      ensures Valid() && View() == RunFrom(old(View()), history)
    {
      hide Apply, Step;
      ghost var start := View();
      for n := 0 to |history|
        invariant Valid() && View() == RunFrom(start, history[..n])
      {
        assert history[..n + 1][..n] == history[..n];
        var _ := Execute(history[n]);
      }
      assert history[..|history|] == history;
    }
  }
}
