/** Funding and liquidations compute exactly the relation. */
module FundingAgreement {
  import opened Numbers
  import opened Sequences
  import opened State
  import opened Curve
  import opened Margin
  import opened Funding
  import opened Controller
  import opened Instructions
  import opened Protocol
  import Bookkeeping
  import Liquidations
  import opened TradeAgreement
  import R = Relation

  // ------------------------------------------------------------ funding

  lemma OwesIff(p: PerpPosition, cum: i128, payment: i128)
    ensures FundingPayment(p.base, cum, p.lastCumFunding) == Ok(payment) <==> R.Owes(p, cum, payment)
  {
    var scaled := p.base * (cum - p.lastCumFunding);
    ToZeroIs(payment, scaled, 1_000_000_000);
    TruncBounds(scaled, 1_000_000_000);
    hide TruncDiv, R.RoundsToZero;
  }

  lemma OwedFits(p: PerpPosition, cum: i128, payment: int)
    requires R.Owes(p, cum, payment)
    ensures R.InI128(payment * 1_000_000_000)
  {
    var scaled := p.base * (cum - p.lastCumFunding);
    ToZeroIs(payment, scaled, 1_000_000_000);
    TruncBounds(scaled, 1_000_000_000);
    hide TruncDiv, R.RoundsToZero;
  }

  /** Charging a payment: collateral, shortfall and checkpoint. */
  lemma PaidIs(u: User, at: nat, payment: i128, cum: i128)
    requires at < |u.positions| && R.InI128(payment * 1_000_000_000)
    ensures var r := PayFunding(u, at, payment, cum);
      && (r.Ok? <==> R.InU64(u.badDebt + R.Positive(payment - u.collateral)) && u.collateral - payment <= U64_MAX)
      && (r.Ok? ==>
            && r.value == u.(collateral := r.value.collateral, badDebt := r.value.badDebt,
                             positions := u.positions[at := u.positions[at].(lastCumFunding := cum)])
            && r.value.collateral == R.Positive(u.collateral - payment)
            && r.value.badDebt == u.badDebt + R.Positive(payment - u.collateral))
  {
  }

  lemma SettleGives(u: User, m: Market, u': User) returns (at: nat, payment: int)
    requires SettleFunding(u, m) == Ok(u')
    ensures R.Settles(u, m, u', at, payment)
  {
    at := FindPosition(u.positions, m.index).value;
    HeldIff(u.positions, m.index, at);
    hide FindPosition, R.Held, PayFunding, FundingPayment, R.Owes;
    payment := FundingPayment(u.positions[at].base, m.amm.cumFundingLong, u.positions[at].lastCumFunding).value;
    OwesIff(u.positions[at], m.amm.cumFundingLong, payment);
    OwedFits(u.positions[at], m.amm.cumFundingLong, payment);
    PaidIs(u, at, payment, m.amm.cumFundingLong);
  }

  lemma SettleTakes(u: User, m: Market, u': User, at: nat, payment: int)
    requires R.Settles(u, m, u', at, payment)
    ensures SettleFunding(u, m) == Ok(u')
  {
    HeldIff(u.positions, m.index, at);
    hide FindPosition, R.Held, PayFunding, FundingPayment, R.Owes;
    OwedFits(u.positions[at], m.amm.cumFundingLong, payment);
    OwesIff(u.positions[at], m.amm.cumFundingLong, payment);
    PaidIs(u, at, payment, m.amm.cumFundingLong);
  }

  lemma MarkIff(b: u128, q: u128, peg: u128, mark: u64)
    ensures ReservePrice(b, q, peg) == Ok(mark)
      <==> b > 0 && R.InU128(q * peg) && R.RoundsDown(mark, q * peg, b)
  {
    MulMono(0, q, peg);
    ReservePriceIff(b, q, peg, mark);
    hide ReservePrice;
    assert (mark + 1) * b == mark * b + b;
  }

  lemma AverageTwapIff(previous: u64, current: u64, elapsed: i64, window: i64, r: u64)
    requires window > 0
    ensures UpdateTwap(previous, current, elapsed, window) == Ok(r)
      <==> R.Averages(previous, current, elapsed, window, r)
  {
    if !(elapsed <= 0 || previous == 0) {
      var weight := R.Lesser(elapsed, window);
      var kept, added := previous * (window - weight), current * weight;
      Product(previous, window - weight);
      Product(current, weight);
      DownIs(r, kept + added, window);
      TwapSteps(previous, current, elapsed, window, weight, kept, added);
      Spread(previous, current, weight, window);
      hide UpdateTwap, R.RoundsDown;
    }
  }

  lemma Product(x: u64, y: nat)
    requires y <= I64_MAX
    ensures 0 <= x * y <= U64_MAX * I64_MAX
  {
    MulMono(0, x, y);
    MulMono(x, U64_MAX, y);
    MulMono(y, I64_MAX, U64_MAX);
  }

  lemma Spread(x: u64, y: u64, weight: nat, window: nat)
    requires 0 < weight <= window
    ensures 0 <= (x * (window - weight) + y * weight) / window <= U64_MAX
  {
    MulMono(x, U64_MAX, window - weight);
    MulMono(y, U64_MAX, weight);
    MulMono(0, x, window - weight);
    MulMono(0, y, weight);
    assert U64_MAX * (window - weight) + U64_MAX * weight == U64_MAX * window;
    FloorGalois(0, x * (window - weight) + y * weight, window);
    FloorGalois(U64_MAX + 1, x * (window - weight) + y * weight, window);
  }

  lemma TwapSteps(previous: u64, current: u64, elapsed: i64, window: i64, weight: int, kept: int, added: int)
    requires elapsed > 0 && previous != 0 && window > 0 && weight == R.Lesser(elapsed, window)
    requires kept == previous * (window - weight) && added == current * weight
    requires 0 <= kept <= U64_MAX * I64_MAX && 0 <= added <= U64_MAX * I64_MAX
    ensures UpdateTwap(previous, current, elapsed, window) == FitU64((kept + added) / window)
  {
  }

  /** The rate and the accrual of a crank. */
  lemma AccrualIff(mark: u64, index: u64, period: i64, c: R.Accrual)
    requires index > 0 && R.RoundsToZero(c.premium, (mark - index) * 1_000_000_000, index)
    requires R.InI128(c.premium * period) ==> R.RoundsToZero(c.rate, c.premium * period, 86_400)
    requires R.RoundsToZero(c.delta, R.Clamped(c.rate) * index, 1_000_000_000)
    ensures CalculateFundingRate(mark, index, period, MAX_FUNDING_RATE).Ok? <==> R.InI128(c.premium * period)
    ensures R.InI128(c.premium * period) ==>
      && CalculateFundingRate(mark, index, period, MAX_FUNDING_RATE) == Ok(R.Clamped(c.rate))
      && FundingDeltaPerBase(R.Clamped(c.rate), index).Ok?
      && FundingDeltaPerBase(R.Clamped(c.rate), index).value == c.delta
  {
    var diff := (mark - index) * 1_000_000_000;
    ToZeroIs(c.premium, diff, index);
    PremiumFits(diff, index, c.premium);
    var over := c.premium * period;
    ToZeroIs(c.rate, over, 86_400);
    TruncBounds(over, 86_400);
    var scaled := R.Clamped(c.rate) * index;
    ToZeroIs(c.delta, scaled, 1_000_000_000);
    ClampedFits(R.Clamped(c.rate), index);
    TruncBounds(scaled, 1_000_000_000);
    hide TruncDiv, R.RoundsToZero;
  }

  lemma PremiumFits(diff: int, index: u64, premium: int)
    requires index > 0 && premium == TruncDiv(diff, index)
    requires -U64_MAX * 1_000_000_000 <= diff <= U64_MAX * 1_000_000_000
    ensures R.InI128(premium) && R.InI128(diff)
  {
    TruncBounds(diff, index);
  }

  lemma ClampedFits(rate: int, index: u64)
    requires -5_000_000 <= rate <= 5_000_000
    ensures R.InI128(rate * index) && -5_000_000 * U64_MAX <= rate * index <= 5_000_000 * U64_MAX
  {
    MulMono(-5_000_000, rate, index);
    MulMono(rate, 5_000_000, index);
  }

  /** A crank computes the mark and both averages. */
  lemma CrankAverages(m: Market, price: u64, now: i64) returns (mark: u64, markTwap: u64, oracleTwap: u64)
    requires UpdateFundingRate(m, price, now).Ok?
    ensures var a, window := m.amm, if m.fundingPeriod > 1 then m.fundingPeriod else 1;
      var elapsed: int := now - a.lastTwapTs;
      && ReservePrice(a.base, a.quote, a.peg) == Ok(mark) && R.InI64(elapsed) && R.InI64(now - a.lastFundingTs)
      && UpdateTwap(a.markTwap, mark, elapsed, window) == Ok(markTwap)
      && UpdateTwap(a.oracleTwap, price, elapsed, window) == Ok(oracleTwap)
      && a.base > 0 && R.InU128(a.quote * a.peg) && R.RoundsDown(mark, a.quote * a.peg, a.base)
      && R.Averages(a.markTwap, mark, elapsed, window, markTwap)
      && R.Averages(a.oracleTwap, price, elapsed, window, oracleTwap)
  {
    var a := m.amm;
    var window: i64 := Max(m.fundingPeriod, 1);
    hide ReservePrice, UpdateTwap, R.Averages, R.RoundsDown, CalculateFundingRate, FundingDeltaPerBase;
    mark := ReservePrice(a.base, a.quote, a.peg).value;
    markTwap := UpdateTwap(a.markTwap, mark, now - a.lastTwapTs, window).value;
    oracleTwap := UpdateTwap(a.oracleTwap, price, now - a.lastTwapTs, window).value;
    MarkIff(a.base, a.quote, a.peg, mark);
    AverageTwapIff(a.markTwap, mark, now - a.lastTwapTs, window, markTwap);
    AverageTwapIff(a.oracleTwap, price, now - a.lastTwapTs, window, oracleTwap);
  }

  lemma CrankGives(m: Market, price: u64, now: i64, m': Market) returns (c: R.Accrual)
    requires UpdateFundingRate(m, price, now) == Ok(m')
    ensures R.Cranks(m, price, now, m', c)
  {
    var mark, markTwap, oracleTwap := CrankAverages(m, price, now);
    hide ReservePrice, UpdateTwap, R.Averages, R.RoundsDown, CalculateFundingRate, FundingDeltaPerBase, R.Accrues;
    if now - m.amm.lastFundingTs <= 0 {
      c := R.Accrual(mark, 0, 0, 0);
    } else {
      c := AccrualGives(markTwap, oracleTwap, Min(now - m.amm.lastFundingTs, m.fundingPeriod), mark);
    }
  }

  lemma AccrualGives(markTwap: u64, oracleTwap: u64, period: i64, mark: int) returns (c: R.Accrual)
    requires CalculateFundingRate(markTwap, oracleTwap, period, MAX_FUNDING_RATE).Ok?
    ensures R.Accrues(markTwap, oracleTwap, period, c) && c.mark == mark
    ensures CalculateFundingRate(markTwap, oracleTwap, period, MAX_FUNDING_RATE) == Ok(R.Clamped(c.rate))
    ensures var delta := FundingDeltaPerBase(R.Clamped(c.rate), oracleTwap); delta.Ok? && delta.value == c.delta
  {
    assert oracleTwap > 0;
    var premium := TruncDiv((markTwap - oracleTwap) * 1_000_000_000, oracleTwap);
    var rate := TruncDiv(premium * period, 86_400);
    var delta := TruncDiv(R.Clamped(rate) * oracleTwap, 1_000_000_000);
    c := R.Accrual(mark, premium, rate, delta);
    ToZeroIs(premium, (markTwap - oracleTwap) * 1_000_000_000, oracleTwap);
    ToZeroIs(rate, premium * period, 86_400);
    ToZeroIs(delta, R.Clamped(rate) * oracleTwap, 1_000_000_000);
    hide TruncDiv, R.RoundsToZero, CalculateFundingRate, FundingDeltaPerBase;
    AccrualIff(markTwap, oracleTwap, period, c);
  }

  lemma CrankTakes(m: Market, price: u64, now: i64, m': Market, c: R.Accrual)
    requires R.Cranks(m, price, now, m', c)
    ensures UpdateFundingRate(m, price, now) == Ok(m')
  {
    var a, a' := m.amm, m'.amm;
    var window: i64 := Max(m.fundingPeriod, 1);
    MarkIff(a.base, a.quote, a.peg, c.mark);
    AverageTwapIff(a.markTwap, c.mark, now - a.lastTwapTs, window, a'.markTwap);
    AverageTwapIff(a.oracleTwap, price, now - a.lastTwapTs, window, a'.oracleTwap);
    hide ReservePrice, UpdateTwap, R.Averages, R.RoundsDown, R.RoundsToZero, CalculateFundingRate, FundingDeltaPerBase;
    if now - a.lastFundingTs > 0 {
      AccrualIff(a'.markTwap, a'.oracleTwap, Min(now - a.lastFundingTs, m.fundingPeriod), c);
    }
  }

  // ------------------------------------------------------------ liquidation

  lemma LiquidatableGives(u: User, at: nat, m: Market, price: u64) returns (v: R.Worth)
    requires at < |u.positions| && RequireLiquidatable(u, at, m, price).Ok?
    ensures R.Values(u.positions[at], price, m, v)
    ensures u.collateral + v.value + u.positions[at].entry < v.maintenance
  {
    v := HealthGives(u.collateral, u.positions[at], price, m);
    HealthExact(u.collateral, u.positions[at], price, m);
    hide HealthOf, R.Values;
  }

  lemma LiquidatableTakes(u: User, at: nat, m: Market, price: u64, v: R.Worth)
    requires at < |u.positions| && R.Values(u.positions[at], price, m, v)
    requires u.collateral + v.value + u.positions[at].entry < v.maintenance
    ensures RequireLiquidatable(u, at, m, price).Ok?
  {
    HealthTakes(u.collateral, u.positions[at], price, m, v);
    HealthExact(u.collateral, u.positions[at], price, m);
    hide HealthOf, R.Values;
  }

  /** The fee of a liquidation always computes. */
  lemma ChargeIs(m: Market, size: u64, price: u64, left: i128)
    requires size <= I64_MAX
    ensures var r := ChargeLiquidation(m, size, price, left);
      r.Ok? && r.value == R.Lesser(size * price / 1_000_000_000 * m.liquidationFeeBps / 10_000, R.Positive(left))
    ensures size * price / 1_000_000_000 * m.liquidationFeeBps / 10_000 >= 0
  {
    MulMono(0, size, price);
    MulMono(size, I64_MAX, price);
    var scaled := size * price;
    FloorGalois(0, scaled, 1_000_000_000);
    FloorMono(scaled, I64_MAX * U64_MAX, 1_000_000_000);
    var notional := scaled / 1_000_000_000;
    MulMono(0, notional, m.liquidationFeeBps);
    MulMono(m.liquidationFeeBps, 0xFFFF, notional);
    Commute(m.liquidationFeeBps, notional);
    var target := notional * m.liquidationFeeBps;
    FloorGalois(0, target, 10_000);
    ChargeSteps(m, size, price, left, scaled, notional, target);
  }

  lemma ChargeSteps(m: Market, size: u64, price: u64, left: i128, scaled: int, notional: int, target: int)
    requires size <= I64_MAX && scaled == size * price && 0 <= scaled <= I64_MAX * U64_MAX
    requires notional == scaled / 1_000_000_000 && 0 <= notional <= I64_MAX * U64_MAX / 1_000_000_000
    requires target == notional * m.liquidationFeeBps && 0 <= target <= 0xFFFF * notional && target / 10_000 >= 0
    ensures var r := ChargeLiquidation(m, size, price, left);
      r.Ok? && r.value == R.Lesser(target / 10_000, R.Positive(left))
  {
  }

  lemma AskedIs(size: u64, base: i64)
    ensures CloseSize(size, Abs(base)) == R.Asked(size, base)
  {
  }

  /** The closing half, on the account as settled. */
  lemma SeizeGives(u: User, m: Market, insurance: u64, at: nat, size: u64, price: u64, l: Liquidation)
    returns (swap: SwapResult, removed: int, fee: int)
    requires at < |u.positions| && 0 < size <= Abs(u.positions[at].base)
    requires LiquidateClose(u, m, insurance, at, size, price) == Ok(l)
    ensures Seizes(u, m, insurance, at, size, price, l, swap, removed, fee)
  {
    var p := u.positions[at];
    var reduction;
    swap, reduction, fee := Liquidations.LiquidateShape(u, m, insurance, at, size, price);
    SeizeBooks(u, m, insurance, at, size, price);
    hide LiquidateClose, Reduce, ChargeLiquidation, RemoveOpenInterest, CalculateSwap;
    SwapIff(m.amm, size, p.base < 0, swap);
    QuoteSmall(m.amm, size, p.base < 0, swap);
    hide R.Swaps, R.Shrinks;
    removed := ReduceGives(p, size, swap.quote, reduction);
    assert size <= I64_MAX;
    hide R.Reduces;
    ChargeIs(m, size, price, u.collateral + reduction.realized);
    NoFee(m, p.base > 0, size, swap, l.market);
  }

  lemma NoFee(m: Market, wasLong: bool, size: u64, s: SwapResult, m': Market)
    ensures R.Shrinks(m, wasLong, size, s, 0, m') <==> RemoveOpenInterest(WithReserves(m, s), wasLong, size) == Ok(m')
  {
  }

  lemma SeizeBooks(u: User, m: Market, insurance: u64, at: nat, size: u64, price: u64)
    requires at < |u.positions| && LiquidateClose(u, m, insurance, at, size, price).Ok?
    ensures var l := LiquidateClose(u, m, insurance, at, size, price).value;
      R.InI64(l.user.settledPnl - u.settledPnl)
  {
    hide Reduce, ChargeLiquidation, RemoveOpenInterest, SwapMarket, Absorb, DepositInsurance;
  }

  predicate Seizes(u: User, m: Market, insurance: u64, at: nat, size: u64, price: u64, l: Liquidation,
                   swap: SwapResult, removed: int, fee: int)
    requires at < |u.positions|
  {
    var p := u.positions[at];
    var profit := R.Profit(p, swap.quote, removed);
    var left := u.collateral + profit;
    && at < |l.user.positions| == |u.positions|
    && R.Swaps(m.amm, size, p.base < 0, swap) && R.Reduces(p, size, removed, l.user.positions[at])
    && fee == R.Lesser(size * price / 1_000_000_000 * m.liquidationFeeBps / 10_000, R.Positive(left))
    && R.InU64(insurance + fee) && l.insurance == insurance + fee
    && l.user == u.(collateral := l.user.collateral, badDebt := l.user.badDebt,
                    bankrupt := u.bankrupt || left - fee < 0,
                    settledPnl := l.user.settledPnl, beingLiquidated := false,
                    positions := u.positions[at := l.user.positions[at]])
    && l.user.collateral == R.Positive(left - fee) && l.user.badDebt == u.badDebt + R.Positive(fee - left)
    && R.InI64(profit) && l.user.settledPnl == u.settledPnl + profit
    && R.Shrinks(m, p.base > 0, size, swap, 0, l.market)
  }

  lemma SeizeTakes(u: User, m: Market, insurance: u64, at: nat, size: u64, price: u64, l: Liquidation,
                   swap: SwapResult, removed: int, fee: int)
    requires at < |u.positions| && Seizes(u, m, insurance, at, size, price, l, swap, removed, fee)
    ensures LiquidateClose(u, m, insurance, at, size, price) == Ok(l)
  {
    var p := u.positions[at];
    hide LiquidateClose, Reduce, ChargeLiquidation, RemoveOpenInterest, CalculateSwap, R.Swaps, R.Shrinks;
    SwapIff(m.amm, size, p.base < 0, swap);
    QuoteSmall(m.amm, size, p.base < 0, swap);
    ReduceTakes(p, size, swap.quote, removed, l.user.positions[at]);
    assert 0 < size <= Abs(p.base) && size <= I64_MAX;
    ProfitFits(p, size, swap.quote, removed, l.user.positions[at]);
    hide R.Reduces;
    var profit := R.Profit(p, swap.quote, removed);
    ChargeIs(m, size, price, u.collateral + profit);
    NoFee(m, p.base > 0, size, swap, l.market);
    var reduction := Reduction(l.user.positions[at], profit);
    hide R.Profit;
    SeizeSteps(u, m, insurance, at, size, price, l, swap, reduction, fee);
  }

  /** The steps of the closing half, each with its result named. */
  lemma SeizeSteps(u: User, m: Market, insurance: u64, at: nat, size: u64, price: u64, l: Liquidation,
                   swap: SwapResult, reduction: Reduction, fee: int)
    requires at < |u.positions| && |l.user.positions| == |u.positions| && reduction.position == l.user.positions[at]
    requires SwapMarket(m, size, if u.positions[at].base > 0 then Add else Remove) == Ok(swap)
    requires Reduce(u.positions[at], size, swap.quote) == Ok(reduction)
    requires R.InI128(u.collateral + reduction.realized) && R.InI64(reduction.realized)
    requires var charged := ChargeLiquidation(m, size, price, u.collateral + reduction.realized);
      charged.Ok? && charged.value == fee && 0 <= fee <= R.Positive(u.collateral + reduction.realized)
    requires var final := u.collateral + reduction.realized - fee;
      && R.InU64(insurance + fee) && l.insurance == insurance + fee
      && l.user == u.(collateral := l.user.collateral, badDebt := l.user.badDebt, bankrupt := u.bankrupt || final < 0,
                      settledPnl := l.user.settledPnl, beingLiquidated := false,
                      positions := u.positions[at := l.user.positions[at]])
      && l.user.collateral == R.Positive(final) && l.user.badDebt == u.badDebt + R.Positive(0 - final)
      && l.user.settledPnl == u.settledPnl + reduction.realized
    requires RemoveOpenInterest(WithReserves(m, swap), u.positions[at].base > 0, size) == Ok(l.market)
    ensures LiquidateClose(u, m, insurance, at, size, price) == Ok(l)
  {
    hide SwapMarket, Reduce, ChargeLiquidation, RemoveOpenInterest;
  }

  lemma ProfitFits(p: PerpPosition, size: u64, quote: u128, removed: int, p': PerpPosition)
    requires quote <= U128_MAX / BASE_PRECISION && R.Reduces(p, size, removed, p')
    ensures Abs(R.Profit(p, quote, removed)) <= U128_MAX / BASE_PRECISION + U64_MAX
  {
    ToZeroIs(removed, p.entry * size, Abs(p.base));
    Bookkeeping.SignedShare(p.entry, size, Abs(p.base));
    hide TruncDiv, R.RoundsToZero;
  }

  lemma LiquidateGives(u: User, m: Market, insurance: u64, maxBase: u64, price: u64, l: Liquidation)
    returns (x: R.Seizure)
    requires LiquidatePerp(u, m, insurance, maxBase, price) == Ok(l)
    ensures R.Liquidates(u, m, insurance, maxBase, price, l.user, l.market, l.insurance, x)
  {
    var at := FindPosition(u.positions, m.index).value;
    var p := u.positions[at];
    HeldIff(u.positions, m.index, at);
    hide FindPosition, R.Held, PayFunding, FundingPayment, RequireLiquidatable, LiquidateClose;
    var payment := FundingPayment(p.base, m.amm.cumFundingLong, p.lastCumFunding).value;
    OwesIff(p, m.amm.cumFundingLong, payment);
    OwedFits(p, m.amm.cumFundingLong, payment);
    PaidIs(u, at, payment, m.amm.cumFundingLong);
    var paid := PayFunding(u, at, payment, m.amm.cumFundingLong).value;
    var q := paid.positions[at];
    hide R.Owes, R.Values, R.Swaps, R.Reduces, R.Shrinks;
    var worth := LiquidatableGives(paid, at, m, price);
    SamePosition(p, q, price, m, worth);
    AskedIs(maxBase, p.base);
    var swap, removed, fee := SeizeGives(paid, m, insurance, at, CloseSize(maxBase, Abs(p.base)), price, l);
    SameReduction(p, q, CloseSize(maxBase, Abs(p.base)), removed, l.user.positions[at]);
    x := R.Seizure(at, payment, worth, swap, removed, fee);
    SeizedIs(u, m, insurance, maxBase, price, l, x, paid);
  }

  /** The checkpoint of a position matters neither for its worth nor for what leaves it. */
  lemma SamePosition(p: PerpPosition, q: PerpPosition, price: u64, m: Market, v: R.Worth)
    requires q == p.(lastCumFunding := q.lastCumFunding)
    ensures R.Values(p, price, m, v) == R.Values(q, price, m, v)
  {
  }

  lemma SameReduction(p: PerpPosition, q: PerpPosition, size: int, removed: int, q': PerpPosition)
    requires q == p.(lastCumFunding := q.lastCumFunding)
    ensures R.Reduces(q, size, removed, q')
      <==> R.Reduces(p, size, removed, q'.(lastCumFunding := p.lastCumFunding)) && q'.lastCumFunding == q.lastCumFunding
  {
    hide R.RoundsToZero;
  }

  /** The settled account and its close, as one step. */
  lemma SeizedIs(u: User, m: Market, insurance: u64, maxBase: u64, price: u64, l: Liquidation, x: R.Seizure, paid: User)
    requires x.at < |u.positions|
    requires paid == u.(collateral := paid.collateral, badDebt := paid.badDebt,
                        positions := u.positions[x.at := u.positions[x.at].(lastCumFunding := m.amm.cumFundingLong)])
    requires paid.collateral == R.Positive(u.collateral - x.payment)
    requires paid.badDebt == u.badDebt + R.Positive(x.payment - u.collateral)
    ensures R.Liquidates(u, m, insurance, maxBase, price, l.user, l.market, l.insurance, x) <==>
      && R.Held(u.positions, m.index, x.at) && R.Owes(u.positions[x.at], m.amm.cumFundingLong, x.payment)
      && R.Values(paid.positions[x.at], price, m, x.worth)
      && paid.collateral + x.worth.value + paid.positions[x.at].entry < x.worth.maintenance
      && Seizes(paid, m, insurance, x.at, R.Asked(maxBase, u.positions[x.at].base), price, l, x.swap, x.removed, x.fee)
  {
  }

  /** The payment that is owed computes, and leaves the account it should. */
  lemma PaidTakes(u: User, at: nat, cum: i128, payment: int, paid: User)
    requires at < |u.positions| && R.Owes(u.positions[at], cum, payment)
    requires paid == u.(collateral := paid.collateral, badDebt := paid.badDebt,
                        positions := u.positions[at := u.positions[at].(lastCumFunding := cum)])
    requires paid.collateral == R.Positive(u.collateral - payment)
    requires paid.badDebt == u.badDebt + R.Positive(payment - u.collateral)
    ensures R.InI128(payment)
    ensures FundingPayment(u.positions[at].base, cum, u.positions[at].lastCumFunding) == Ok(payment)
    ensures PayFunding(u, at, payment, cum) == Ok(paid)
  {
    OwedFits(u.positions[at], cum, payment);
    OwesIff(u.positions[at], cum, payment);
    PaidIs(u, at, payment, cum);
    hide R.Owes, FundingPayment, PayFunding;
  }

  lemma LiquidateTakes(u: User, m: Market, insurance: u64, maxBase: u64, price: u64, l: Liquidation, x: R.Seizure)
    requires R.Liquidates(u, m, insurance, maxBase, price, l.user, l.market, l.insurance, x)
    ensures LiquidatePerp(u, m, insurance, maxBase, price) == Ok(l)
  {
    hide R.Liquidates;
    var collateral, badDebt := SettledFits(u, m, insurance, maxBase, price, l, x);
    var p := u.positions[x.at];
    var paid := u.(collateral := collateral, badDebt := badDebt,
                   positions := u.positions[x.at := p.(lastCumFunding := m.amm.cumFundingLong)]);
    SeizedIs(u, m, insurance, maxBase, price, l, x, paid);
    HeldIff(u.positions, m.index, x.at);
    PaidTakes(u, x.at, m.amm.cumFundingLong, x.payment, paid);
    AskedIs(maxBase, p.base);
    hide FindPosition, R.Held, PayFunding, FundingPayment, RequireLiquidatable, LiquidateClose;
    hide R.Owes, R.Values, Seizes, R.Asked, R.Positive, CloseSize;
    LiquidatableTakes(paid, x.at, m, price, x.worth);
    SeizeTakes(paid, m, insurance, x.at, CloseSize(maxBase, Abs(p.base)), price, l, x.swap, x.removed, x.fee);
  }

  lemma SettledFits(u: User, m: Market, insurance: u64, maxBase: u64, price: u64, l: Liquidation, x: R.Seizure)
    returns (collateral: u64, badDebt: u64)
    requires R.Liquidates(u, m, insurance, maxBase, price, l.user, l.market, l.insurance, x)
    ensures x.at < |u.positions| && collateral == R.Positive(u.collateral - x.payment)
    ensures badDebt == u.badDebt + R.Positive(x.payment - u.collateral)
  {
    hide R.Owes, R.Values, R.Swaps, R.Reduces, R.Shrinks, R.Lesser;
    collateral := R.Positive(u.collateral - x.payment);
    badDebt := u.badDebt + R.Positive(x.payment - u.collateral);
  }
}
