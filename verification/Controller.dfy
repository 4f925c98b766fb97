/** What trade execution does to a user and a market, as functions on account values. */
module Controller {
  import opened Numbers
  import opened State
  import opened Curve
  import opened Margin

  datatype OpenFill = OpenFill(user: User, market: Market, quote: u128)
  datatype CloseFill = CloseFill(user: User, market: Market, realized: i128)
  datatype MatchFill = MatchFill(taker: User, maker: User, market: Market)

  function SwapMarket(m: Market, size: u64, dir: SwapDirection): Result<SwapResult> {
    CalculateSwap(m.amm.base, m.amm.quote, m.amm.peg, size, dir)
  }

  /** The reserves move; nothing else in the market does. */
  function WithReserves(m: Market, s: SwapResult): Market {
    m.(amm := m.amm.(base := s.newBase, quote := s.newQuote))
  }

  /** The slippage guard: buyers cap the average price, sellers put a floor under it. */
  function CheckLimit(avg: u128, limit: u64, isBuy: bool): Result<()> {
    Need(limit > 0 ==> if isBuy then avg <= limit else avg >= limit, SlippageExceeded)
  }

  function SignedBase(size: u64, isLong: bool): Result<i64> {
    if isLong then Ok(AsI64(size)) else FitI64(0 - AsI64(size))
  }

  /** Find the position of the market, or claim a slot for it; an existing position must
      already point the same way. */
  function TargetPosition(ps: seq<PerpPosition>, k: u16, isLong: bool): (r: Result<(seq<PerpPosition>, nat)>)
    ensures r.Ok? ==> |r.value.0| == |ps| && r.value.1 < |ps|
  {
    match FindPosition(ps, k)
    case Some(i) =>
      var _ :- Need((ps[i].base > 0) == isLong, ReduceOnlyViolation);
      Ok((ps, i))
    case None => GetOrCreatePosition(ps, k)
  }

  /** The position after adding `signed` base at a cost of `quote`. */
  function Increase(p: PerpPosition, isLong: bool, signed: i64, quote: i64, cumFunding: i128): Result<PerpPosition> {
    var last := if p.base == 0 then cumFunding else p.lastCumFunding;
    var base :- FitI64(p.base + signed);
    var entry :- FitI64(if isLong then p.entry - quote else p.entry + quote);
    Ok(p.(lastCumFunding := last, base := base, entry := entry))
  }

  function AddOpenInterest(m: Market, isLong: bool, size: u64): Result<Market> {
    if isLong then
      var oi :- FitU128(m.oiLong + size);
      var total :- FitI128(m.amm.long + size);
      Ok(m.(oiLong := oi, amm := m.amm.(long := total)))
    else
      var oi :- FitU128(m.oiShort + size);
      var total :- FitI128(m.amm.short - size);
      Ok(m.(oiShort := oi, amm := m.amm.(short := total)))
  }

  function RemoveOpenInterest(m: Market, isLong: bool, size: u64): Result<Market> {
    if isLong then
      var total :- FitI128(m.amm.long - size);
      Ok(m.(oiLong := SaturatingSub(m.oiLong, size), amm := m.amm.(long := total)))
    else
      var total :- FitI128(m.amm.short + size);
      Ok(m.(oiShort := SaturatingSub(m.oiShort, size), amm := m.amm.(short := total)))
  }

  function CollectFee(m: Market, fee: i128): Result<Market> {
    var total :- FitI128(m.amm.totalFee + fee);
    Ok(m.(amm := m.amm.(totalFee := total)))
  }

  function CheckOpenInterestCap(m: Market): Result<()> {
    var total :- FitU128(m.oiLong + m.oiShort);
    var _ :- Need(m.maxOi == 0 || total <= m.maxOi, MaxOpenInterestExceeded);
    Ok(())
  }

  /** The casts a trade event needs; an amount that does not fit rejects the trade. */
  function TradeRecord(quote: u128, avg: u128, fee: u128): Result<()> {
    var _ :- FitU64(quote);
    var _ :- FitU64(avg);
    var _ :- FitU64(fee);
    Ok(())
  }

  /** Find or claim the slot and add the trade to it: the positions, and the one written. */
  function AddToPosition(ps: seq<PerpPosition>, k: u16, isLong: bool, signed: i64, quote: i64, cumFunding: i128)
    : Result<(seq<PerpPosition>, PerpPosition)>
  {
    var target :- TargetPosition(ps, k, isLong);
    var p :- Increase(target.0[target.1], isLong, signed, quote, cumFunding);
    Ok((target.0[target.1 := p], p))
  }

  /** An AMM trade as priced: the swap, its average price and fee, the quote as stored. */
  datatype Priced = Priced(swap: SwapResult, avg: u128, fee: u128)

  function PriceTrade(m: Market, feeBps: u16, size: u64, limit: u64, isBuy: bool): Result<Priced> {
    var swap :- SwapMarket(m, size, if isBuy then Remove else Add);
    var avg :- AveragePrice(swap.quote, size);
    var _ :- CheckLimit(avg, limit, isBuy);
    var fee :- FeeAmount(swap.quote, feeBps);
    Ok(Priced(swap, avg, fee))
  }

  function OpenMarket(m: Market, priced: Priced, isLong: bool, size: u64): Result<Market> {
    var withOi :- AddOpenInterest(WithReserves(m, priced.swap), isLong, size);
    var market :- CollectFee(withOi, AsI128(priced.fee));
    var _ :- CheckOpenInterestCap(market);
    Ok(market)
  }

  function ExecuteAmmOpen(u: User, m: Market, feeBps: u16, dir: Direction, size: u64, limit: u64, price: u64)
    : Result<OpenFill>
  {
    var _ :- Need(size > 0, InvalidAmount);
    var isLong := dir == Long;
    var priced :- PriceTrade(m, feeBps, size, limit, isLong);
    var quote :- FitI64(AsI128(priced.swap.quote));
    var signed :- SignedBase(size, isLong);
    var _ :- Need(u.collateral >= priced.fee, InsufficientCollateral);
    var added :- AddToPosition(u.positions, m.index, isLong, signed, quote, m.amm.cumFundingLong);
    var collateral :- FitU64(u.collateral - priced.fee);
    var market :- OpenMarket(m, priced, isLong, size);
    var _ :- RequireInitial(collateral, added.1, price, market);
    var _ :- TradeRecord(priced.swap.quote, priced.avg, priced.fee);
    Ok(OpenFill(u.(collateral := collateral, positions := added.0), market, priced.swap.quote))
  }

  /** The share of the cost basis that leaves with `size` of `whole` base. */
  function CostBasisClosed(entry: i64, size: u64, whole: u64): Result<i128> {
    var scaled :- FitI128(entry * size);
    var _ :- Need(whole != 0, MathOverflow);
    FitI128(TruncDiv(scaled, whole))
  }

  /** Quote that flows to the trader on a close: received for a long, paid for a short. */
  function CloseFlow(quote: u128, isLong: bool): Result<i128> {
    if isLong then Ok(AsI128(quote)) else FitI128(0 - AsI128(quote))
  }

  function Decrease(p: PerpPosition, isLong: bool, size: u64, closed: i128): Result<PerpPosition> {
    var base :- FitI64(if isLong then p.base - AsI64(size) else p.base + AsI64(size));
    var removed :- FitI64(closed);
    var entry :- FitI64(p.entry - removed);
    Ok(p.(base := base, entry := if base == 0 then 0 else entry))
  }

  /** A close as computed before it takes effect: the profit and the position left. */
  datatype Reduction = Reduction(position: PerpPosition, realized: i128)

  function Reduce(p: PerpPosition, size: u64, quote: u128): Result<Reduction> {
    var isLong := p.base > 0;
    var closed :- CostBasisClosed(p.entry, size, Abs(p.base));
    var flow :- CloseFlow(quote, isLong);
    var realized :- FitI128(flow + closed);
    var position :- Decrease(p, isLong, size, closed);
    Ok(Reduction(position, realized))
  }

  function AddSettledPnl(settled: i64, realized: i128): Result<i64> {
    var pnl :- FitI64(realized);
    FitI64(settled + pnl)
  }

  /** Collateral after profit and fee; a close may not push the account into debt. */
  function CreditClose(collateral: u64, realized: i128, fee: i128): Result<u64> {
    var credited :- FitI128(collateral + realized);
    var charged :- FitI128(credited - fee);
    var _ :- Need(charged >= 0, InsufficientCollateral);
    FitU64(charged)
  }

  function ExecuteAmmClose(u: User, m: Market, feeBps: u16, at: nat, size: u64, limit: u64): Result<CloseFill>
    requires at < |u.positions|
  {
    var p := u.positions[at];
    var _ :- Need(p.base != 0, PositionNotFound);
    var isLong := p.base > 0;
    var _ :- Need(0 < size <= Abs(p.base), InvalidAmount);
    var priced :- PriceTrade(m, feeBps, size, limit, !isLong);
    var reduction :- Reduce(p, size, priced.swap.quote);
    var collateral :- CreditClose(u.collateral, reduction.realized, AsI128(priced.fee));
    var settled :- AddSettledPnl(u.settledPnl, reduction.realized);
    var withOi :- RemoveOpenInterest(WithReserves(m, priced.swap), isLong, size);
    var market :- CollectFee(withOi, AsI128(priced.fee));
    var _ :- TradeRecord(priced.swap.quote, priced.avg, priced.fee);
    Ok(CloseFill(
      u.(collateral := collateral, settledPnl := settled, positions := u.positions[at := reduction.position]),
      market, reduction.realized))
  }

  /** One leg of a peer match: `delta` is the fee paid (negative) or the rebate received. */
  function ApplyMatchLeg(u: User, m: Market, dir: Direction, size: u64, quote: u128, delta: i64, price: u64)
    : Result<(User, Market)>
  {
    var isLong := dir == Long;
    var signed :- SignedBase(size, isLong);
    var quoteI64 :- FitI64(AsI128(quote));
    var charged :- FitI128(u.collateral + delta);
    var _ :- Need(charged >= 0, InsufficientCollateral);
    var added :- AddToPosition(u.positions, m.index, isLong, signed, quoteI64, m.amm.cumFundingLong);
    var collateral :- FitU64(charged);
    var market :- AddOpenInterest(m, isLong, size);
    var _ :- RequireInitial(collateral, added.1, price, market);
    Ok((u.(collateral := collateral, positions := added.0), market))
  }

  /** A peer match as priced: quote at the maker's price, the taker's fee, the maker's rebate. */
  datatype MatchPrice = MatchPrice(quote: u128, fee: u128, rebate: u128)

  function PriceMatch(size: u64, fillPrice: u64, feeBps: u16, rebateBps: u16): Result<MatchPrice> {
    var scaled :- FitU128(size * fillPrice);
    var quote: u128 := scaled / BASE_PRECISION;
    var fee :- FeeAmount(quote, feeBps);
    var rebate :- FeeAmount(quote, rebateBps);
    Ok(MatchPrice(quote, fee, rebate))
  }

  function Credit(amount: u128): Result<i64> { FitI64(AsI128(amount)) }

  function Debit(amount: u128): Result<i64> {
    var credit :- Credit(amount);
    FitI64(0 - credit)
  }

  /** The market keeps the taker's fee less the maker's rebate. */
  function CollectNetFee(m: Market, fee: u128, rebate: u128): Result<Market> {
    var withFee :- CollectFee(m, AsI128(fee));
    var total :- FitI128(withFee.amm.totalFee - AsI128(rebate));
    Ok(withFee.(amm := withFee.amm.(totalFee := total)))
  }

  function ExecuteMakerMatch(taker: User, maker: User, m: Market, feeBps: u16, rebateBps: u16,
                             dir: Direction, size: u64, fillPrice: u64, price: u64): Result<MatchFill> {
    var _ :- Need(size > 0, InvalidAmount);
    var priced :- PriceMatch(size, fillPrice, feeBps, rebateBps);
    var debit :- Debit(priced.fee);
    var first :- ApplyMatchLeg(taker, m, dir, size, priced.quote, debit, price);
    var credit :- Credit(priced.rebate);
    var second :- ApplyMatchLeg(maker, first.1, Opposite(dir), size, priced.quote, credit, price);
    var _ :- CheckOpenInterestCap(second.1);
    var market :- CollectNetFee(second.1, priced.fee, priced.rebate);
    var _ :- TradeRecord(priced.quote, fillPrice, priced.fee);
    Ok(MatchFill(first.0, second.0, market))
  }
}
