/** Why a trade that passes its checks on fields is refused. */
module TradeReasons {
  import opened Numbers
  import opened Sequences
  import opened State
  import opened Curve
  import opened Margin
  import opened Funding
  import opened Controller
  import opened Instructions
  import opened Protocol
  import Steps
  import opened TradeAgreement
  import opened OrderAgreement
  import opened FundingAgreement
  import opened FieldChecks
  import R = Relation

  // ------------------------------------------------------------ the reasons of a trade

  /** A price outside the limit: too high for a buyer, too low for a seller. */
  predicate Outside(avg: int, limit: int, buys: bool) { limit > 0 && if buys then avg > limit else avg < limit }

  lemma FeeComputes(quote: u128, bps: u16)
    requires quote <= U128_MAX / BASE_PRECISION
    ensures FeeAmount(quote, bps).Ok?
  {
    MulMono(0, quote, bps);
    Commute(quote, bps);
    MulMono(bps, 0xFFFF, quote);
    CeilShrinks(quote * bps, 10_000);
    hide CeilDiv;
  }

  /** Why a trade has no price: nothing to trade, a price outside the limit, or an overflow. */
  lemma PriceReasons(m: Market, feeBps: u16, size: u64, limit: u64, buys: bool)
    requires PriceTrade(m, feeBps, size, limit, buys).Err?
    ensures var e := PriceTrade(m, feeBps, size, limit, buys).error;
      && (e == InvalidAmount || e == SlippageExceeded || e == MathOverflow)
      && (e == InvalidAmount <==> size == 0)
      && (e == SlippageExceeded <==> exists t :: R.Quotes(m, feeBps, size, 0, buys, t) && Outside(t.avg, limit, buys))
  {
    var swap := SwapMarket(m, size, if buys then Remove else Add);
    if swap.Ok? {
      SwapIff(m.amm, size, buys, swap.value);
      QuoteSmall(m.amm, size, buys, swap.value);
      FeeComputes(swap.value.quote, feeBps);
    } else {
      SwapReasons(m.amm, size, if buys then Remove else Add);
    }
    hide CalculateSwap, FeeAmount, R.Quotes, R.Swaps;
    forall t { QuoteIff(m, feeBps, size, 0, buys, t); }
    var free := PriceTrade(m, feeBps, size, 0, buys);
    if free.Ok? { assert R.Quotes(m, feeBps, size, 0, buys, free.value); }
  }

  lemma SwapReasons(a: Amm, size: u64, dir: SwapDirection)
    requires CalculateSwap(a.base, a.quote, a.peg, size, dir).Err?
    ensures var e := CalculateSwap(a.base, a.quote, a.peg, size, dir).error;
      if size == 0 then e == InvalidAmount else e == MathOverflow
  {
    hide CeilDiv;
  }

  /** Why base cannot join the positions of an account. */
  lemma JoinReasons(ps: seq<PerpPosition>, k: u16, isLong: bool, signed: i64, quote: i64, cum: i128)
    requires AddToPosition(ps, k, isLong, signed, quote, cum).Err?
    ensures match AddToPosition(ps, k, isLong, signed, quote, cum).error
      case ReduceOnlyViolation => exists at: nat :: R.Held(ps, k, at) && (ps[at].base > 0) != isLong
      case MaxPositionsReached => forall i :: 0 <= i < |ps| ==> !R.Idle(ps[i]) && !R.Keeps(ps[i], k)
      case MathOverflow => true
      case _ => false
  {
    var found := FindPosition(ps, k);
    if found.Some? {
      HeldIff(ps, k, found.value);
    } else if PositionSlot(ps, k).Err? {
      SlotReasons(ps, k);
    }
    hide FindPosition, PositionSlot, R.Held;
  }

  lemma SlotReasons(ps: seq<PerpPosition>, k: u16)
    requires PositionSlot(ps, k).Err?
    ensures PositionSlot(ps, k) == Err(MaxPositionsReached)
    ensures forall i :: 0 <= i < |ps| ==> !R.Idle(ps[i]) && !R.Keeps(ps[i], k)
  {
    assert forall i :: 0 <= i < |ps| ==> !TakenFor(k)(ps[i]) && !Vacant()(ps[i]);
  }

  /** The account would be short of initial margin. */
  ghost predicate BelowInitial(collateral: int, p: PerpPosition, price: int, m: Market) {
    exists v :: R.Values(p, price, m, v) && collateral + v.value + p.entry < v.initial
  }

  lemma InitialReasons(collateral: u64, p: PerpPosition, price: u64, m: Market)
    requires RequireInitial(collateral, p, price, m).Err?
    ensures match RequireInitial(collateral, p, price, m).error
      case InsufficientFreeCollateral => BelowInitial(collateral, p, price, m)
      case MathOverflow => true
      case _ => false
  {
    if HealthOf(collateral, p, price, m).Ok? {
      var v := HealthGives(collateral, p, price, m);
      HealthExact(collateral, p, price, m);
      hide HealthOf, R.Values;
    }
  }

  lemma GrowReasons(m: Market, priced: Priced, isLong: bool, size: u64)
    requires OpenMarket(m, priced, isLong, size).Err?
    ensures match OpenMarket(m, priced, isLong, size).error
      case MaxOpenInterestExceeded => 0 < m.maxOi < m.oiLong + m.oiShort + size
      case MathOverflow => true
      case _ => false
  {
  }

  /** The position and collateral an open would leave are short of initial margin. */
  ghost predicate BelowInitialAfter(u: User, m: Market, feeBps: int, isLong: bool, size: int, limit: int, price: int) {
    exists t, at: nat, ps :: R.Quotes(m, feeBps, size, limit, isLong, t)
      && R.Joins(u.positions, m, isLong, size, t.swap.quote, at, ps) && at < |ps|
      && BelowInitial(u.collateral - t.fee, ps[at], price, m)
  }

  /** Why an open is refused. */
  ghost predicate OpenReason(e: ErrorCode, u: User, m: Market, feeBps: int, isLong: bool, size: int, limit: int,
                             price: int) {
    match e
    case InvalidAmount => size == 0
    case SlippageExceeded => exists t :: R.Quotes(m, feeBps, size, 0, isLong, t) && Outside(t.avg, limit, isLong)
    case InsufficientCollateral => exists t :: R.Quotes(m, feeBps, size, limit, isLong, t) && t.fee > u.collateral
    case ReduceOnlyViolation =>
      exists at: nat :: R.Held(u.positions, m.index, at) && (u.positions[at].base > 0) != isLong
    case MaxPositionsReached =>
      forall i :: 0 <= i < |u.positions| ==> !R.Idle(u.positions[i]) && !R.Keeps(u.positions[i], m.index)
    case MaxOpenInterestExceeded => 0 < m.maxOi < m.oiLong + m.oiShort + size
    case InsufficientFreeCollateral => BelowInitialAfter(u, m, feeBps, isLong, size, limit, price)
    case MathOverflow => true
    case _ => false
  }

  lemma OpenReasons(u: User, m: Market, feeBps: u16, dir: Direction, size: u64, limit: u64, price: u64)
    requires ExecuteAmmOpen(u, m, feeBps, dir, size, limit, price).Err?
    ensures var e := ExecuteAmmOpen(u, m, feeBps, dir, size, limit, price).error;
      OpenReason(e, u, m, feeBps, dir == Long, size, limit, price)
  {
    hide PriceTrade, AddToPosition, OpenMarket, RequireInitial, SignedBase;
    hide R.Quotes, R.Joins, R.Held, BelowInitial, R.Keeps, R.Idle, Outside;
    var isLong := dir == Long;
    var priced := PriceTrade(m, feeBps, size, limit, isLong);
    if priced.Err? {
      PriceReasons(m, feeBps, size, limit, isLong);
    } else {
      var t := priced.value;
      QuoteIff(m, feeBps, size, limit, isLong, t);
      QuoteParts(m, feeBps, size, limit, isLong, t);
      SignedReasons(size, isLong);
      if R.InI64(t.swap.quote) && SignedBase(size, isLong).Ok? {
        OpenedReasons(u, m, feeBps, dir, size, limit, price, t);
      }
    }
  }

  lemma SignedReasons(size: u64, isLong: bool)
    ensures SignedBase(size, isLong).Ok? || SignedBase(size, isLong) == Err(MathOverflow)
  {
  }

  /** The reasons past the price. */
  lemma OpenedReasons(u: User, m: Market, feeBps: u16, dir: Direction, size: u64, limit: u64, price: u64, t: Priced)
    requires ExecuteAmmOpen(u, m, feeBps, dir, size, limit, price).Err?
    requires PriceTrade(m, feeBps, size, limit, dir == Long) == Ok(t)
    requires R.Quotes(m, feeBps, size, limit, dir == Long, t) && AsI128(t.swap.quote) == t.swap.quote
    requires AsI128(t.fee) == t.fee
    requires R.InI64(t.swap.quote) && SignedBase(size, dir == Long).Ok?
    ensures var e := ExecuteAmmOpen(u, m, feeBps, dir, size, limit, price).error;
      OpenReason(e, u, m, feeBps, dir == Long, size, limit, price)
  {
    hide PriceTrade, AddToPosition, OpenMarket, RequireInitial, SignedBase;
    hide R.Quotes, R.Joins, R.Held, BelowInitial, R.Keeps, R.Idle, Outside;
    var isLong := dir == Long;
    var signed := SignedBase(size, isLong).value;
    var added := AddToPosition(u.positions, m.index, isLong, signed, t.swap.quote, m.amm.cumFundingLong);
    if added.Err? {
      JoinReasons(u.positions, m.index, isLong, signed, t.swap.quote, m.amm.cumFundingLong);
    } else {
      var at := JoinGives(u.positions, m, isLong, size, t.swap.quote, added.value.0, added.value.1);
      var market := OpenMarket(m, t, isLong, size);
      if market.Err? {
        GrowReasons(m, t, isLong, size);
      } else if 0 <= u.collateral - t.fee {
        OpenMarketIff(m, t, isLong, size, market.value);
        GrowsRatios(m, isLong, size, t, market.value);
        if RequireInitial(u.collateral - t.fee, added.value.1, price, market.value).Err? {
          InitialReasons(u.collateral - t.fee, added.value.1, price, market.value);
          SameBelowInitial(u.collateral - t.fee, added.value.1, price, market.value, m);
        }
      }
    }
  }

  lemma SameBelowInitial(collateral: int, p: PerpPosition, price: u64, m: Market, m': Market)
    requires m'.marginInitial == m.marginInitial && m'.marginMaintenance == m.marginMaintenance
    ensures BelowInitial(collateral, p, price, m) ==> BelowInitial(collateral, p, price, m')
  {
    if v :| R.Values(p, price, m, v) && collateral + v.value + p.entry < v.initial {
      SameWorth(p, price, m, m', v);
    }
  }

  /** Why a close is refused. */
  ghost predicate CloseReason(e: ErrorCode, u: User, m: Market, feeBps: int, at: nat, size: int, limit: int)
    requires at < |u.positions|
  {
    var p := u.positions[at];
    match e
    case PositionNotFound => p.base == 0
    case InvalidAmount => size == 0 || size > R.Magnitude(p.base)
    case SlippageExceeded =>
      exists t :: R.Quotes(m, feeBps, size, 0, p.base < 0, t) && Outside(t.avg, limit, p.base < 0)
    case InsufficientCollateral =>
      exists t, removed, p' :: R.Quotes(m, feeBps, size, limit, p.base < 0, t) && R.Reduces(p, size, removed, p')
        && u.collateral + R.Profit(p, t.swap.quote, removed) < t.fee
    case MathOverflow => true
    case _ => false
  }

  lemma CloseReasons(u: User, m: Market, feeBps: u16, at: nat, size: u64, limit: u64)
    requires at < |u.positions| && ExecuteAmmClose(u, m, feeBps, at, size, limit).Err?
    ensures CloseReason(ExecuteAmmClose(u, m, feeBps, at, size, limit).error, u, m, feeBps, at, size, limit)
  {
    hide PriceTrade, Reduce, RemoveOpenInterest, CollectFee, R.Quotes, R.Reduces, Outside, AddSettledPnl;
    var p := u.positions[at];
    if p.base != 0 && 0 < size <= Abs(p.base) {
      var priced := PriceTrade(m, feeBps, size, limit, p.base < 0);
      if priced.Err? {
        PriceReasons(m, feeBps, size, limit, p.base < 0);
      } else {
        var t := priced.value;
        QuoteIff(m, feeBps, size, limit, p.base < 0, t);
        QuoteParts(m, feeBps, size, limit, p.base < 0, t);
        ReduceOverflows(p, size, t.swap.quote);
        BookOverflows(u, m, p.base > 0, size, t);
        if Reduce(p, size, t.swap.quote).Ok? {
          var r := Reduce(p, size, t.swap.quote).value;
          var removed := ReduceGives(p, size, t.swap.quote, r);
          assert u.collateral + r.realized < t.fee ==>
            CloseReason(InsufficientCollateral, u, m, feeBps, at, size, limit);
          SettleOverflows(u.settledPnl, r.realized);
        }
      }
    }
  }

  lemma ReduceOverflows(p: PerpPosition, size: u64, quote: u128)
    requires 0 < size <= Abs(p.base)
    ensures Reduce(p, size, quote).Ok? || Reduce(p, size, quote) == Err(MathOverflow)
  {
    hide TruncDiv;
  }

  lemma SettleOverflows(settled: i64, realized: i128)
    ensures AddSettledPnl(settled, realized).Ok? || AddSettledPnl(settled, realized) == Err(MathOverflow)
  {
  }

  lemma BookOverflows(u: User, m: Market, wasLong: bool, size: u64, t: Priced)
    ensures var left := RemoveOpenInterest(WithReserves(m, t.swap), wasLong, size);
      && (left.Ok? || left == Err(MathOverflow))
      && (left.Ok? ==> CollectFee(left.value, AsI128(t.fee)).Ok? || CollectFee(left.value,
                                                                               AsI128(t.fee)) == Err(MathOverflow))
  {
  }

  // ------------------------------------------------------------ triggers

  /** The price is strictly short of the trigger price on the order's side. */
  predicate ShortOfTrigger(o: Order, price: int) {
    if o.triggerCondition == Above then price < o.triggerPrice else price > o.triggerPrice
  }

  predicate Triggerable(cfg: Config, u: User, m: Market, id: u32) {
    && !cfg.paused && (m.status == Active || m.status == ReduceOnly) && FindOrder(u.orders, id).Ok?
    && var o := u.orders[FindOrder(u.orders, id).value];
    (o.orderType == TriggerMarket || o.orderType == TriggerLimit) && o.reduceOnly && o.marketIndex == m.index
  }

  /** An open trigger order that passes the gates before it is turned down for its price if and
      only if the price is strictly short of it; otherwise it is accepted exactly when there is a
      position and the close of its size is accepted. */
  lemma TriggerAnswers(cfg: Config, u: User, m: Market, id: u32, price: u64)
    requires Triggerable(cfg, u, m, id)
    ensures var r, o := TriggerOrder(cfg, u, m, id, price), u.orders[FindOrder(u.orders, id).value];
      && (r == Err(TriggerConditionNotMet) <==> ShortOfTrigger(o, price))
      && (!ShortOfTrigger(o, price) ==>
            (r.Ok? <==>
               FindPosition(u.positions, m.index).Some? && o.amount > o.filled
               && var at := FindPosition(u.positions, m.index).value;
               var size: u64 := Min(o.Remaining(), Abs(u.positions[at].base));
               ExecuteAmmClose(u, m, cfg.takerFeeBps, at, size,
                               if o.orderType == TriggerLimit then o.price else 0).Ok?))
  {
    hide FindOrder, FindPosition, ExecuteAmmClose, R.Quotes, R.Reduces, Outside;
    if FindPosition(u.positions, m.index).Some? {
      var o, at := u.orders[FindOrder(u.orders, id).value], FindPosition(u.positions, m.index).value;
      var size: u64 := Min(o.Remaining(), Abs(u.positions[at].base));
      var limit: u64 := if o.orderType == TriggerLimit then o.price else 0;
      if ExecuteAmmClose(u, m, cfg.takerFeeBps, at, size, limit).Err? {
        CloseReasons(u, m, cfg.takerFeeBps, at, size, limit);
      }
    }
  }

  // ------------------------------------------------------------ matches, liquidations, cranks

  /** Why one leg of a match is refused. */
  ghost predicate LegReason(e: ErrorCode, u: User, m: Market, isLong: bool, size: int, quote: int, delta: int,
                            price: int) {
    match e
    case InsufficientCollateral => u.collateral + delta < 0
    case ReduceOnlyViolation =>
      exists at: nat :: R.Held(u.positions, m.index, at) && (u.positions[at].base > 0) != isLong
    case MaxPositionsReached =>
      forall i :: 0 <= i < |u.positions| ==> !R.Idle(u.positions[i]) && !R.Keeps(u.positions[i], m.index)
    case InsufficientFreeCollateral =>
      exists at: nat, ps :: R.Joins(u.positions, m, isLong, size, quote, at, ps) && at < |ps|
        && BelowInitial(u.collateral + delta, ps[at], price, m)
    case MathOverflow => true
    case _ => false
  }

  lemma LegReasons(u: User, m: Market, dir: Direction, size: u64, quote: u128, delta: i64, price: u64)
    requires quote <= I128_MAX && ApplyMatchLeg(u, m, dir, size, quote, delta, price).Err?
    ensures LegReason(ApplyMatchLeg(u, m, dir, size, quote, delta, price).error, u, m, dir == Long, size, quote, delta,
                      price)
  {
    hide AddToPosition, RequireInitial, SignedBase, R.Joins, R.Held, R.Keeps, R.Idle, BelowInitial;
    var isLong := dir == Long;
    SignedReasons(size, isLong);
    if R.InI64(quote) && SignedBase(size, isLong).Ok? {
      var signed := SignedBase(size, isLong).value;
      var added := AddToPosition(u.positions, m.index, isLong, signed, quote, m.amm.cumFundingLong);
      if added.Err? {
        JoinReasons(u.positions, m.index, isLong, signed, quote, m.amm.cumFundingLong);
      } else {
        var at := JoinGives(u.positions, m, isLong, size, quote, added.value.0, added.value.1);
        var market := AddOpenInterest(m, isLong, size);
        if R.InU64(u.collateral + delta) && market.Ok?
           && RequireInitial(u.collateral + delta, added.value.1, price, market.value).Err? {
          InitialReasons(u.collateral + delta, added.value.1, price, market.value);
          SameBelowInitial(u.collateral + delta, added.value.1, price, market.value, m);
        }
      }
    }
  }

  /** A liquidation that gets past its checks is refused only because the account, its funding
      settled, is at or above maintenance, or for an overflow. */
  lemma LiquidateReasons(u: User, m: Market, insurance: u64, maxBase: u64, price: u64)
    requires LiquidatePerp(u, m, insurance, maxBase, price).Err? && Has(u, m)
    ensures match LiquidatePerp(u, m, insurance, maxBase, price).error
      case NotLiquidatable =>
        exists at: nat, payment, v :: R.Held(u.positions, m.index, at)
          && R.Owes(u.positions[at], m.amm.cumFundingLong, payment) && R.Values(u.positions[at], price, m, v)
          && R.Positive(u.collateral - payment) + v.value + u.positions[at].entry >= v.maintenance
      case MathOverflow => true
      case _ => false
  {
    HasIff(u, m);
    var at := FindPosition(u.positions, m.index).value;
    var p := u.positions[at];
    HeldIff(u.positions, m.index, at);
    hide FindPosition, R.Held, PayFunding, FundingPayment, RequireLiquidatable, LiquidateClose, R.Owes, R.Values;
    PaymentOverflows(u, at, m);
    var payment := FundingPayment(p.base, m.amm.cumFundingLong, p.lastCumFunding);
    if payment.Ok? {
      OwesIff(p, m.amm.cumFundingLong, payment.value);
      OwedFits(p, m.amm.cumFundingLong, payment.value);
      PaidIs(u, at, payment.value, m.amm.cumFundingLong);
      var paid := PayFunding(u, at, payment.value, m.amm.cumFundingLong);
      if paid.Ok? {
        var v := GateReasons(paid.value, at, m, price);
        SamePosition(p, paid.value.positions[at], price, m, v);
        SeizeOverflows(paid.value, m, insurance, at, CloseSize(maxBase, Abs(p.base)), price);
      }
    }
  }

  lemma PaymentOverflows(u: User, at: nat, m: Market)
    requires at < |u.positions|
    ensures var r := FundingPayment(u.positions[at].base, m.amm.cumFundingLong, u.positions[at].lastCumFunding);
      && (r.Ok? || r == Err(MathOverflow))
      && (r.Ok? ==> var paid := PayFunding(u, at, r.value, m.amm.cumFundingLong); paid.Ok? || paid == Err(MathOverflow))
  {
    hide TruncDiv;
  }

  lemma GateReasons(u: User, at: nat, m: Market, price: u64) returns (v: R.Worth)
    requires at < |u.positions|
    ensures var r := RequireLiquidatable(u, at, m, price);
      && (r.Err? ==> r.error == MathOverflow || r.error == NotLiquidatable)
      && (r == Err(NotLiquidatable) ==>
            R.Values(u.positions[at], price, m, v) && u.collateral + v.value + u.positions[at].entry >= v.maintenance)
  {
    v := R.Worth(0, 0, 0, 0);
    if HealthOf(u.collateral, u.positions[at], price, m).Ok? {
      v := HealthGives(u.collateral, u.positions[at], price, m);
      HealthExact(u.collateral, u.positions[at], price, m);
      hide HealthOf, R.Values;
    }
  }

  lemma SeizeOverflows(u: User, m: Market, insurance: u64, at: nat, size: u64, price: u64)
    requires at < |u.positions| && 0 < size <= Abs(u.positions[at].base)
    ensures var r := LiquidateClose(u, m, insurance, at, size, price); r.Ok? || r == Err(MathOverflow)
  {
    var p := u.positions[at];
    var swap := SwapMarket(m, size, if p.base > 0 then Add else Remove);
    if swap.Err? {
      SwapReasons(m.amm, size, if p.base > 0 then Add else Remove);
    } else {
      ReduceOverflows(p, size, swap.value.quote);
      BookOverflows(u, m, p.base > 0, size, Priced(swap.value, 0, 0));
      hide CalculateSwap, Reduce, RemoveOpenInterest;
      if Reduce(p, size, swap.value.quote).Ok? {
        SettleOverflows(u.settledPnl, Reduce(p, size, swap.value.quote).value.realized);
      }
      hide AddSettledPnl, PositionNotional, LiquidationFee;
    }
  }

  /** Why a match is refused past its checks: a leg, the cap, or an overflow. */
  ghost predicate MatchReason(e: ErrorCode, cfg: Config, taker: User, maker: User, m: Market, long: bool, size: int,
                              fillPrice: int, price: int)
  {
    || e == MathOverflow
    || (e == MaxOpenInterestExceeded && 0 < m.maxOi < m.oiLong + m.oiShort + 2 * size)
    || (exists quote, fee, rebate ::
          && MatchPriced(cfg, size, fillPrice, quote, fee, rebate)
          && (LegReason(e, taker, m, long, size, quote, 0 - fee, price)
              || LegReason(e, maker, m, !long, size, quote, rebate, price)))
  }

  predicate MatchPriced(cfg: Config, size: int, fillPrice: int, quote: int, fee: int, rebate: int) {
    && R.RoundsDown(quote, size * fillPrice, 1_000_000_000)
    && R.RoundsUp(fee, quote * cfg.takerFeeBps, 10_000) && R.RoundsUp(rebate, quote * cfg.makerRebateBps, 10_000)
  }

  lemma MatchPriceReasons(size: u64, fillPrice: u64, feeBps: u16, rebateBps: u16)
    ensures var r := PriceMatch(size, fillPrice, feeBps, rebateBps); r.Ok? || r == Err(MathOverflow)
  {
    hide CeilDiv;
  }

  lemma SameLegReason(e: ErrorCode, u: User, m: Market, m1: Market, isLong: bool, size: u64, quote: int, delta: int,
                      price: u64)
    requires m1.index == m.index && m1.amm.cumFundingLong == m.amm.cumFundingLong
    requires m1.marginInitial == m.marginInitial && m1.marginMaintenance == m.marginMaintenance
    requires LegReason(e, u, m1, isLong, size, quote, delta, price)
    ensures LegReason(e, u, m, isLong, size, quote, delta, price)
  {
    hide R.Joins, R.Held, R.Idle, R.Keeps;
    if e == InsufficientFreeCollateral {
      var at: nat, ps: seq<PerpPosition> :| R.Joins(u.positions, m1, isLong, size, quote, at, ps) && at < |ps|
        && BelowInitial(u.collateral + delta, ps[at], price, m1);
      var v :| R.Values(ps[at], price, m1, v) && u.collateral + delta + v.value + ps[at].entry < v.initial;
      SameLeg(u, m, m1, isLong, size, quote, at, u.(positions := ps), price, v);
    }
  }

  lemma NetReasons(m: Market, fee: u128, rebate: u128)
    ensures var r := CollectNetFee(m, fee, rebate); r.Ok? || r == Err(MathOverflow)
    ensures var c := CheckOpenInterestCap(m);
      c.Ok? || c == Err(MathOverflow) || (c == Err(MaxOpenInterestExceeded) && 0 < m.maxOi < m.oiLong + m.oiShort)
  {
  }

  lemma MatchReasons(taker: User, maker: User, m: Market, cfg: Config, dir: Direction, size: u64, fillPrice: u64,
                     price: u64)
    requires size > 0
    requires ExecuteMakerMatch(taker, maker, m, cfg.takerFeeBps, cfg.makerRebateBps, dir, size, fillPrice, price).Err?
    ensures var e :=
        ExecuteMakerMatch(taker, maker, m, cfg.takerFeeBps, cfg.makerRebateBps, dir, size, fillPrice, price).error;
      MatchReason(e, cfg, taker, maker, m, dir == Long, size, fillPrice, price)
  {
    hide PriceMatch, ApplyMatchLeg, CollectNetFee, CheckOpenInterestCap, LegReason, MatchPriced;
    var priced := PriceMatch(size, fillPrice, cfg.takerFeeBps, cfg.makerRebateBps);
    MatchPriceReasons(size, fillPrice, cfg.takerFeeBps, cfg.makerRebateBps);
    if priced.Ok? {
      var q := priced.value;
      PricedIs(size, fillPrice, cfg, q);
      LegsReasons(taker, maker, m, cfg, dir, size, fillPrice, price, q);
    }
  }

  lemma PricedIs(size: u64, fillPrice: u64, cfg: Config, q: MatchPrice)
    requires PriceMatch(size, fillPrice, cfg.takerFeeBps, cfg.makerRebateBps) == Ok(q)
    ensures MatchPriced(cfg, size, fillPrice, q.quote, q.fee, q.rebate)
    ensures q.quote <= I128_MAX && AsI128(q.fee) == q.fee && AsI128(q.rebate) == q.rebate
  {
    MatchPriceIff(size, fillPrice, cfg.takerFeeBps, cfg.makerRebateBps, q);
    Steps.PriceMatchExact(size, fillPrice, cfg.takerFeeBps, cfg.makerRebateBps);
    hide PriceMatch, R.RoundsDown, R.RoundsUp;
  }

  lemma LegsReasons(taker: User, maker: User, m: Market, cfg: Config, dir: Direction, size: u64, fillPrice: u64,
                    price: u64, q: MatchPrice)
    requires size > 0 && PriceMatch(size, fillPrice, cfg.takerFeeBps, cfg.makerRebateBps) == Ok(q)
    requires MatchPriced(cfg, size, fillPrice, q.quote, q.fee, q.rebate)
    requires q.quote <= I128_MAX && AsI128(q.fee) == q.fee && AsI128(q.rebate) == q.rebate
    requires ExecuteMakerMatch(taker, maker, m, cfg.takerFeeBps, cfg.makerRebateBps, dir, size, fillPrice, price).Err?
    ensures var e :=
        ExecuteMakerMatch(taker, maker, m, cfg.takerFeeBps, cfg.makerRebateBps, dir, size, fillPrice, price).error;
      MatchReason(e, cfg, taker, maker, m, dir == Long, size, fillPrice, price)
  {
    hide PriceMatch, ApplyMatchLeg, CollectNetFee, CheckOpenInterestCap, AddOpenInterest, LegReason, MatchPriced;
    hide R.Joins, R.Margined;
    if R.InI64(q.fee) {
      var first := ApplyMatchLeg(taker, m, dir, size, q.quote, 0 - q.fee, price);
      if first.Err? {
        LegReasons(taker, m, dir, size, q.quote, 0 - q.fee, price);
      } else if R.InI64(q.rebate) {
        var m1 := first.value.1;
        var _, _ := LegGives(taker, m, dir, size, q.quote, 0 - q.fee, price, first.value.0, m1);
        Grown(m, dir == Long, size, m1);
        var second := ApplyMatchLeg(maker, m1, Opposite(dir), size, q.quote, q.rebate, price);
        if second.Err? {
          LegReasons(maker, m1, Opposite(dir), size, q.quote, q.rebate, price);
          SameLegReason(second.error, maker, m, m1, dir != Long, size, q.quote, q.rebate, price);
        } else {
          var m2 := second.value.1;
          var _, _ := LegGives(maker, m1, Opposite(dir), size, q.quote, q.rebate, price, second.value.0, m2);
          Grown(m1, dir != Long, size, m2);
          NetReasons(m2, q.fee, q.rebate);
          RecordReasons(q.quote, fillPrice, q.fee);
        }
      }
    }
  }

  lemma Grown(m: Market, isLong: bool, size: u64, m': Market)
    requires AddOpenInterest(m, isLong, size) == Ok(m')
    ensures m'.oiLong + m'.oiShort == m.oiLong + m.oiShort + size && m'.maxOi == m.maxOi && m'.index == m.index
    ensures m'.marginInitial == m.marginInitial && m'.marginMaintenance == m.marginMaintenance
    ensures m'.amm.cumFundingLong == m.amm.cumFundingLong
  {
  }

  lemma RecordReasons(quote: u128, avg: u128, fee: u128)
    ensures TradeRecord(quote, avg, fee).Ok? || TradeRecord(quote, avg, fee) == Err(MathOverflow)
  {
  }
}
