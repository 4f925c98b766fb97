/** Trade execution as the controller performs it: user and market are updated in place,
    checks and effects in the order of the code.  A method that fails leaves its accounts
    half written; the transaction it runs in reverts them (see `Program`). */
module Execution {
  import opened Numbers
  import opened Sequences
  import opened State
  import opened Curve
  import opened Margin
  import opened Controller
  import opened Accounts

  /** The health of one position against a collateral balance, checked at initial margin. */
  method CheckInitialMargin(collateral: u64, p: PerpPosition, price: u64, market: MarketAccount) returns (r: Result<()>)
    ensures r == RequireInitial(collateral, p, price, market.View())
  {
    var margin := new MarginCalculation(collateral);
    var _ :- margin.AddPosition(p, price, market.marginInitial, market.marginMaintenance);
    r := margin.RequireInitial();
  }

  /** Add a trade to the position in slot `at`, field by field. */
  method IncreasePosition(user: UserAccount, at: nat, isLong: bool, signed: i64, quote: i64, cumFunding: i128)
    returns (r: Result<()>)
    requires at < user.positions.Length
    modifies user.positions
    ensures
      Increase(old(user.positions[at]), isLong, signed, quote, cumFunding)
      == if r.Ok? then Ok(user.positions[at]) else Err(r.error)
    ensures user.positions[..] == old(user.positions[..])[at := user.positions[at]]
  {
    if user.positions[at].base == 0 {
      user.positions[at] := user.positions[at].(lastCumFunding := cumFunding);
    }
    var base :- FitI64(user.positions[at].base + signed);
    user.positions[at] := user.positions[at].(base := base);
    var entry :- FitI64(if isLong then user.positions[at].entry - quote else user.positions[at].entry + quote);
    user.positions[at] := user.positions[at].(entry := entry);
    return Ok(());
  }

  /** Find or claim the position of the market and add the trade to it. */
  method AddToPosition(user: UserAccount, market: MarketAccount, isLong: bool, signed: i64, quote: i64)
    returns (r: Result<nat>)
    modifies user.positions
    ensures r.Ok? ==> r.value < user.positions.Length
    ensures
      Controller.AddToPosition(old(user.positions[..]), market.index, isLong, signed, quote, market.amm.cumFundingLong)
      == if r.Ok? then Ok((user.positions[..], user.positions[r.value])) else Err(r.error)
  {
    var found := user.FindPosition(market.index);
    var at: nat;
    match found {
      case Some(i) =>
        var _ :- Need((user.positions[i].base > 0) == isLong, ReduceOnlyViolation);
        at := i;
      case None =>
        at :- user.GetOrCreatePosition(market.index);
    }
    assert TargetPosition(old(user.positions[..]), market.index, isLong) == Ok((user.positions[..], at));
    hide TargetPosition, Increase;
    var _ :- IncreasePosition(user, at, isLong, signed, quote, market.amm.cumFundingLong);
    return Ok(at);
  }

  method AddOpenInterest(market: MarketAccount, isLong: bool, size: u64) returns (r: Result<()>)
    modifies market
    ensures Controller.AddOpenInterest(old(market.View()), isLong, size)
      == if r.Ok? then Ok(market.View()) else Err(r.error)
  {
    if isLong {
      var oi :- FitU128(market.oiLong + size);
      market.oiLong := oi;
      var total :- FitI128(market.amm.long + size);
      market.amm := market.amm.(long := total);
    } else {
      var oi :- FitU128(market.oiShort + size);
      market.oiShort := oi;
      var total :- FitI128(market.amm.short - size);
      market.amm := market.amm.(short := total);
    }
    return Ok(());
  }

  method RemoveOpenInterest(market: MarketAccount, isLong: bool, size: u64) returns (r: Result<()>)
    modifies market
    ensures Controller.RemoveOpenInterest(old(market.View()), isLong, size)
      == if r.Ok? then Ok(market.View()) else Err(r.error)
  {
    if isLong {
      market.oiLong := SaturatingSub(market.oiLong, size);
      var total :- FitI128(market.amm.long - size);
      market.amm := market.amm.(long := total);
    } else {
      market.oiShort := SaturatingSub(market.oiShort, size);
      var total :- FitI128(market.amm.short + size);
      market.amm := market.amm.(short := total);
    }
    return Ok(());
  }

  method CollectFee(market: MarketAccount, fee: i128) returns (r: Result<()>)
    modifies market
    ensures Controller.CollectFee(old(market.View()), fee) == if r.Ok? then Ok(market.View()) else Err(r.error)
  {
    var total :- FitI128(market.amm.totalFee + fee);
    market.amm := market.amm.(totalFee := total);
    return Ok(());
  }

  method MoveReserves(market: MarketAccount, swap: SwapResult)
    modifies market
    ensures market.View() == WithReserves(old(market.View()), swap)
  {
    market.amm := market.amm.(base := swap.newBase, quote := swap.newQuote);
  }

  /** Open or increase a position against the AMM; answers the quote swapped. */
  method ExecuteAmmOpen(user: UserAccount, market: MarketAccount, feeBps: u16, dir: Direction, size: u64, limit: u64,
                        price: u64)
    returns (r: Result<u128>)
    modifies user, user.positions, market
    ensures
      Controller.ExecuteAmmOpen(old(user.View()), old(market.View()), feeBps, dir, size, limit, price)
      == if r.Ok? then Ok(OpenFill(user.View(), market.View(), r.value)) else Err(r.error)
  {
    hide PriceTrade, Controller.AddToPosition, Controller.AddOpenInterest, Controller.CollectFee, CheckOpenInterestCap,
      RequireInitial, TradeRecord;
    var _ :- Need(size > 0, InvalidAmount);
    var isLong := dir == Long;
    var priced :- PriceTrade(market.View(), feeBps, size, limit, isLong);
    var quote :- FitI64(AsI128(priced.swap.quote));
    var signed :- SignedBase(size, isLong);
    MoveReserves(market, priced.swap);
    var _ :- Need(user.collateral >= priced.fee, InsufficientCollateral);
    var at :- AddToPosition(user, market, isLong, signed, quote);
    user.collateral := user.collateral - priced.fee; // covered: the subtraction cannot fail here
    var _ :- AddOpenInterest(market, isLong, size);
    var _ :- CollectFee(market, AsI128(priced.fee));
    var _ :- CheckOpenInterestCap(market.View());
    var _ :- CheckInitialMargin(user.collateral, user.positions[at], price, market);
    var _ :- TradeRecord(priced.swap.quote, priced.avg, priced.fee);
    return Ok(priced.swap.quote);
  }

  /** Take `size` and its share of the cost basis out of the position in slot `at`; a full
      close clears what rounding might leave. */
  method DecreasePosition(user: UserAccount, at: nat, isLong: bool, size: u64, closed: i128) returns (r: Result<()>)
    requires at < user.positions.Length
    modifies user.positions
    ensures Decrease(old(user.positions[at]), isLong, size, closed)
      == if r.Ok? then Ok(user.positions[at]) else Err(r.error)
    ensures user.positions[..] == old(user.positions[..])[at := user.positions[at]]
  {
    var base :- FitI64(if isLong then user.positions[at].base - AsI64(size) else user.positions[at].base + AsI64(size));
    user.positions[at] := user.positions[at].(base := base);
    var removed :- FitI64(closed);
    var entry :- FitI64(user.positions[at].entry - removed);
    user.positions[at] := user.positions[at].(entry := entry);
    if user.positions[at].base == 0 {
      user.positions[at] := user.positions[at].(entry := 0);
    }
    return Ok(());
  }

  /** Reduce or close a position against the AMM; answers the realized profit. */
  method ExecuteAmmClose(user: UserAccount, market: MarketAccount, feeBps: u16, at: nat, size: u64, limit: u64)
    returns (r: Result<i128>)
    requires at < user.positions.Length
    modifies user, user.positions, market
    ensures
      Controller.ExecuteAmmClose(old(user.View()), old(market.View()), feeBps, at, size, limit)
      == if r.Ok? then Ok(CloseFill(user.View(), market.View(), r.value)) else Err(r.error)
  {
    hide PriceTrade, CostBasisClosed, CloseFlow, Decrease, CreditClose, AddSettledPnl, Controller.RemoveOpenInterest,
      Controller.CollectFee, TradeRecord;
    var before := user.positions[at];
    var _ :- Need(before.base != 0, PositionNotFound);
    var isLong := before.base > 0;
    var whole: u64 := Abs(before.base);
    var _ :- Need(0 < size <= whole, InvalidAmount);
    var priced :- PriceTrade(market.View(), feeBps, size, limit, !isLong);
    var closed :- CostBasisClosed(before.entry, size, whole);
    var flow :- CloseFlow(priced.swap.quote, isLong);
    var realized :- FitI128(flow as int + closed);
    MoveReserves(market, priced.swap);
    var _ :- DecreasePosition(user, at, isLong, size, closed);
    var collateral :- CreditClose(user.collateral, realized, AsI128(priced.fee));
    user.collateral := collateral;
    var settled :- AddSettledPnl(user.settledPnl, realized);
    user.settledPnl := settled;
    var _ :- RemoveOpenInterest(market, isLong, size);
    var _ :- CollectFee(market, AsI128(priced.fee));
    var _ :- TradeRecord(priced.swap.quote, priced.avg, priced.fee);
    return Ok(realized);
  }

  /** One opening leg of a peer match. */
  method ApplyMatchLeg(user: UserAccount, market: MarketAccount, dir: Direction, size: u64, quote: u128, delta: i64,
                       price: u64)
    returns (r: Result<()>)
    modifies user, user.positions, market
    ensures
      Controller.ApplyMatchLeg(old(user.View()), old(market.View()), dir, size, quote, delta, price)
      == if r.Ok? then Ok((user.View(), market.View())) else Err(r.error)
  {
    hide Controller.AddToPosition, Controller.AddOpenInterest, RequireInitial;
    var isLong := dir == Long;
    var signed :- SignedBase(size, isLong);
    var quoteI64 :- FitI64(AsI128(quote));
    var charged :- FitI128(user.collateral + delta);
    var _ :- Need(charged >= 0, InsufficientCollateral);
    var at :- AddToPosition(user, market, isLong, signed, quoteI64);
    var collateral :- FitU64(charged);
    user.collateral := collateral;
    var _ :- AddOpenInterest(market, isLong, size);
    var _ :- CheckInitialMargin(user.collateral, user.positions[at], price, market);
    return Ok(());
  }

  /** Cross a taker against a resting maker at the maker's price; no reserves move. */
  method ExecuteMakerMatch(taker: UserAccount, maker: UserAccount, market: MarketAccount, feeBps: u16, rebateBps: u16,
                           dir: Direction, size: u64, fillPrice: u64, price: u64) returns (r: Result<()>)
    requires taker != maker && taker.positions != maker.positions
    modifies taker, taker.positions, maker, maker.positions, market
    ensures
      Controller.ExecuteMakerMatch(old(taker.View()), old(maker.View()), old(market.View()), feeBps, rebateBps, dir,
                                   size, fillPrice, price)
      == if r.Ok? then Ok(MatchFill(taker.View(), maker.View(), market.View())) else Err(r.error)
  {
    hide PriceMatch, Debit, Credit, Controller.ApplyMatchLeg, CheckOpenInterestCap, TradeRecord;
    var _ :- Need(size > 0, InvalidAmount);
    var priced :- PriceMatch(size, fillPrice, feeBps, rebateBps);
    var debit :- Debit(priced.fee);
    var _ :- ApplyMatchLeg(taker, market, dir, size, priced.quote, debit, price);
    var credit :- Credit(priced.rebate);
    var _ :- ApplyMatchLeg(maker, market, Opposite(dir), size, priced.quote, credit, price);
    var _ :- CheckOpenInterestCap(market.View());
    var _ :- CollectNetFee(market, priced.fee, priced.rebate);
    var _ :- TradeRecord(priced.quote, fillPrice, priced.fee);
    return Ok(());
  }

  /** The market keeps the fee less the rebate. */
  method CollectNetFee(market: MarketAccount, fee: u128, rebate: u128) returns (r: Result<()>)
    modifies market
    ensures Controller.CollectNetFee(old(market.View()), fee, rebate)
      == if r.Ok? then Ok(market.View()) else Err(r.error)
  {
    var gross :- FitI128(market.amm.totalFee + AsI128(fee));
    var net :- FitI128(gross - AsI128(rebate));
    market.amm := market.amm.(totalFee := net);
    return Ok(());
  }
}
