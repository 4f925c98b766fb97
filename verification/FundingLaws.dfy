/** Funding: payments, averages, rates, and their bounds over whole histories. */
module FundingLaws {
  import opened Numbers
  import opened Sequences
  import opened State
  import opened Curve
  import opened Funding
  import opened Instructions
  import opened Protocol
  import opened Bookkeeping
  import opened Ledger
  import opened Liquidations
  import opened Steps
  import opened Runs

  // ------------------------------------------------------------ payments

  /** A long and a short of one size pay each other exactly. */
  lemma PaymentAntisymmetric(base: i64, cumNow: i128, cumLast: i128)
    requires base > I64_MIN && FundingPayment(base, cumNow, cumLast).Ok?
    requires FundingPayment(0 - base, cumNow, cumLast).Ok?
    ensures FundingPayment(0 - base, cumNow, cumLast).value == 0 - FundingPayment(base, cumNow, cumLast).value
  {
    var delta := cumNow - cumLast;
    assert (0 - base) * delta == -(base * delta);
    TruncOdd(base * delta, BASE_PRECISION);
  }

  /** What one position pays in total when it settles after each of the accruals `deltas`. */
  ghost function PaidInSteps(base: int, deltas: seq<int>): int {
    if deltas == [] then 0
    else PaidInSteps(base, deltas[..|deltas| - 1]) + TruncDiv(base * deltas[|deltas| - 1], BASE_PRECISION)
  }

  ghost function Total(deltas: seq<int>): int {
    if deltas == [] then 0 else Total(deltas[..|deltas| - 1]) + deltas[|deltas| - 1]
  }

  lemma {:induction false} StepsNearExact(base: int, deltas: seq<int>)
    ensures Abs(BASE_PRECISION * PaidInSteps(base, deltas) - base * Total(deltas)) <= |deltas| * (BASE_PRECISION - 1)
  {
    if deltas == [] {
    } else {
      var n := |deltas| - 1;
      StepsNearExact(base, deltas[..n]);
      TruncBounds(base * deltas[n], BASE_PRECISION);
      assert base * Total(deltas) == base * Total(deltas[..n]) + base * deltas[n];
    }
  }

  /** Settling one fixed position in `m` steps differs from settling once by at most `m` units. */
  lemma {:induction false} SettlingOftenIsFair(base: int, deltas: seq<int>)
    requires deltas != []
    ensures Abs(PaidInSteps(base, deltas) - TruncDiv(base * Total(deltas), BASE_PRECISION)) <= |deltas|
  {
    StepsNearExact(base, deltas);
    TruncBounds(base * Total(deltas), BASE_PRECISION);
    var gap := PaidInSteps(base, deltas) - TruncDiv(base * Total(deltas), BASE_PRECISION);
    assert Abs(BASE_PRECISION * gap) <= (|deltas| + 1) * (BASE_PRECISION - 1);
    if gap > |deltas| { MulMono(|deltas| + 1, gap, BASE_PRECISION); }
    if gap < -|deltas| { MulMono(|deltas| + 1, -gap, BASE_PRECISION); }
  }

  /** An account that settles against a market at successive moments, trading nothing. */
  ghost function SettledAlong(u: User, ms: seq<Market>): Result<User> {
    if ms == [] then Ok(u)
    else
      var before :- SettledAlong(u, ms[..|ms| - 1]);
      SettleFunding(before, ms[|ms| - 1])
  }

  /** The cumulative figure a position has settled up to after those moments. */
  function Checkpoint(last: int, ms: seq<Market>): int {
    if ms == [] then last else ms[|ms| - 1].amm.cumFundingLong
  }

  ghost function Accruals(last: int, ms: seq<Market>): seq<int> {
    if ms == [] then []
    else
      var n := |ms| - 1;
      Accruals(last, ms[..n]) + [ms[n].amm.cumFundingLong - Checkpoint(last, ms[..n])]
  }

  lemma {:induction false} AccrualsTotal(last: int, ms: seq<Market>)
    ensures |Accruals(last, ms)| == |ms| && Total(Accruals(last, ms)) == Checkpoint(last, ms) - last
  {
    if ms == [] {
    } else {
      var n := |ms| - 1;
      AccrualsTotal(last, ms[..n]);
      assert Accruals(last, ms)[..n] == Accruals(last, ms[..n]);
    }
  }

  /** Each settlement takes its own rounded share. */
  lemma {:induction false} SettledAlongPays(u: User, ms: seq<Market>, k: u16, at: nat)
    requires UserOk(u) && FindPosition(u.positions, k) == Some(at)
    requires (forall n :: 0 <= n < |ms| ==> ms[n].index == k) && SettledAlong(u, ms).Ok?
    ensures var v, p := SettledAlong(u, ms).value, u.positions[at];
      && UserOk(v) && FindPosition(v.positions, k) == Some(at)
      && v.positions[at].base == p.base && v.positions[at].lastCumFunding == Checkpoint(p.lastCumFunding, ms)
      && UserCash()(v) == UserCash()(u) - PaidInSteps(p.base, Accruals(p.lastCumFunding, ms))
  {
    hide SettleFunding, UserOk, FindPosition, TruncDiv, UserCash;
    if ms == [] {
    } else {
      var n, p := |ms| - 1, u.positions[at];
      var last := Checkpoint(p.lastCumFunding, ms[..n]);
      SettledAlongPays(u, ms[..n], k, at);
      assert SettledAlong(u, ms) == SettleFunding(SettledAlong(u, ms[..n]).value, ms[n]);
      assert Accruals(p.lastCumFunding, ms) == Accruals(p.lastCumFunding, ms[..n]) + [ms[n].amm.cumFundingLong - last];
      assert Checkpoint(p.lastCumFunding, ms) == ms[n].amm.cumFundingLong;
      hide *;
      SettledOnce(SettledAlong(u, ms[..n]).value, ms[n], at);
      PaidMore(p.base, Accruals(p.lastCumFunding, ms[..n]), ms[n].amm.cumFundingLong - last);
    }
  }

  lemma {:induction false} PaidMore(base: int, deltas: seq<int>, delta: int)
    ensures PaidInSteps(base, deltas + [delta]) == PaidInSteps(base, deltas) + TruncDiv(base * delta, BASE_PRECISION)
  {
    assert (deltas + [delta])[..|deltas|] == deltas;
  }

  lemma SettledOnce(u: User, m: Market, at: nat)
    requires UserOk(u) && FindPosition(u.positions, m.index) == Some(at) && SettleFunding(u, m).Ok?
    ensures var v, p := SettleFunding(u, m).value, u.positions[at];
      && UserOk(v) && FindPosition(v.positions, m.index) == Some(at)
      && v.positions[at].base == p.base && v.positions[at].lastCumFunding == m.amm.cumFundingLong
      && UserCash()(v) == UserCash()(u) - TruncDiv(p.base * (m.amm.cumFundingLong - p.lastCumFunding), BASE_PRECISION)
  {
    var _, payment, paid := SettleShape(u, m);
    PayFundingFacts(u, at, payment, m.amm.cumFundingLong);
    PaidSlotFound(u, m.index, m.amm.cumFundingLong);
    hide PayFunding, SettleFunding;
  }

  /** Whenever and however often a fixed position settles, what it has paid is within one
      unit a settlement of what settling once would have taken. */
  lemma {:induction false} SettlingAlongIsFair(u: User, ms: seq<Market>, k: u16, at: nat)
    requires UserOk(u) && FindPosition(u.positions, k) == Some(at) && ms != []
    requires (forall n :: 0 <= n < |ms| ==> ms[n].index == k) && SettledAlong(u, ms).Ok?
    ensures var p := u.positions[at];
      var paid := UserCash()(u) - UserCash()(SettledAlong(u, ms).value);
      Abs(paid - TruncDiv(p.base * (ms[|ms| - 1].amm.cumFundingLong - p.lastCumFunding), BASE_PRECISION)) <= |ms|
  {
    var p := u.positions[at];
    SettledAlongPays(u, ms, k, at);
    AccrualsTotal(p.lastCumFunding, ms);
    assert Checkpoint(p.lastCumFunding, ms) == ms[|ms| - 1].amm.cumFundingLong;
    var deltas := Accruals(p.lastCumFunding, ms);
    hide *;
    SettlingOftenIsFair(p.base, deltas);
  }

  // ------------------------------------------------------------ net funding follows skew

  function BaseIn(k: int): PerpPosition -> int {
    (p: PerpPosition) => if p.marketIndex == k then p.base else 0
  }

  ghost function UserBase(k: int): User -> int { (u: User) => Sum(u.positions, BaseIn(k)) }

  function Due(m: Market): User -> int { (u: User) => PaymentDue(u, m) }

  function HoldsIn(k: u16): User -> int { (u: User) => if FindPosition(u.positions, k).Some? then 1 else 0 }

  lemma {:induction false} BaseIsLongPlusShort(ps: seq<PerpPosition>, k: int)
    ensures Sum(ps, BaseIn(k)) == Sum(ps, LongIn(k)) + Sum(ps, ShortIn(k))
  {
    if ps == [] {
    } else {
      BaseIsLongPlusShort(ps[..|ps| - 1], k);
    }
  }

  /** The base of a user in a market is that of the one position found there. */
  lemma UserBaseIsPosition(u: User, k: u16)
    requires UserOk(u)
    ensures UserBase(k)(u) == match FindPosition(u.positions, k) case Some(at) => u.positions[at].base case None => 0
  {
    var ps := u.positions;
    match FindPosition(ps, k)
    case None => ZeroSum(ps, BaseIn(k));
    case Some(at) =>
      FoundIsOnly(ps, k);
      var cleared := ps[at := EMPTY_POSITION];
      SumUpdate(ps, at, EMPTY_POSITION, BaseIn(k));
      ZeroSum(cleared, BaseIn(k));
  }

  /** Rounded terms stay close to exact ones in total. */
  lemma {:induction false} RoundedTotal<T>(s: seq<T>, pay: T -> int, exact: T -> int, count: T -> int, slack: nat)
    requires forall i :: 0 <= i < |s| ==> Abs(BASE_PRECISION * pay(s[i]) - exact(s[i])) <= slack * count(s[i])
    ensures Abs(BASE_PRECISION * Sum(s, pay) - Sum(s, exact)) <= slack * Sum(s, count)
  {
    if s == [] {
    } else {
      var n := |s| - 1;
      RoundedTotal(s[..n], pay, exact, count, slack);
      assert s[..n + 1] == s;
      assert slack * Sum(s, count) == slack * Sum(s[..n], count) + slack * count(s[n]);
    }
  }

  function Scaled(f: User -> int, delta: int): User -> int { (u: User) => f(u) * delta }

  lemma {:induction false} SumScaled(us: seq<User>, f: User -> int, delta: int)
    ensures Sum(us, Scaled(f, delta)) == Sum(us, f) * delta
  {
    if us == [] {
    } else {
      var n := |us| - 1;
      SumScaled(us[..n], f, delta);
      assert Sum(us, f) * delta == Sum(us[..n], f) * delta + f(us[n]) * delta;
    }
  }

  lemma {:induction false} SumOfSum(us: seq<User>, k: int)
    ensures Sum(us, UserBase(k)) == Sum(us, UserLong(k)) + Sum(us, UserShort(k))
  {
    if us == [] {
    } else {
      var n := |us| - 1;
      SumOfSum(us[..n], k);
      BaseIsLongPlusShort(us[n].positions, k);
    }
  }

  /** When the holders of a market all owe the same accrual `delta`, what they pay in total
      is the AMM's skew times `delta`, up to one rounding unit for each holder. */
  lemma NetFundingFollowsSkew(w: World, k: nat, delta: int)
    requires WorldOk(w) && k < |w.markets|
    requires forall i :: 0 <= i < |w.users| && FindPosition(w.users[i].positions, w.markets[k].index).Some? ==>
      w.users[i].positions[FindPosition(w.users[i].positions, w.markets[k].index).value].lastCumFunding
        == w.markets[k].amm.cumFundingLong - delta
    ensures var m := w.markets[k];
      Abs(BASE_PRECISION * Sum(w.users, Due(m)) - (m.amm.sqrtK - m.amm.base) * delta)
        <= (BASE_PRECISION - 1) * Sum(w.users, HoldsIn(m.index))
  {
    var m := w.markets[k];
    var exact := Scaled(UserBase(k), delta);
    forall i | 0 <= i < |w.users|
      ensures Abs(BASE_PRECISION * Due(m)(w.users[i]) - exact(w.users[i]))
        <= (BASE_PRECISION - 1) * HoldsIn(m.index)(w.users[i])
    {
      UserBaseIsPosition(w.users[i], m.index);
      TruncBounds(UserBase(k)(w.users[i]) * delta, BASE_PRECISION);
    }
    RoundedTotal(w.users, Due(m), exact, HoldsIn(m.index), BASE_PRECISION - 1);
    SumScaled(w.users, UserBase(k), delta);
    SumOfSum(w.users, k);
    assert TotalLong(w, k) == MarketLong(w, k) && TotalShort(w, k) == MarketShort(w, k);
  }

  // ------------------------------------------------------------ averages and rates

  predicate Within(x: int, lo: int, hi: int) { lo <= x <= hi }

  /** An average never leaves the range of what it averages. */
  lemma TwapInHull(previous: u64, current: u64, elapsed: i64, window: i64, lo: int, hi: int)
    requires UpdateTwap(previous, current, elapsed, window).Ok?
    requires Within(previous, lo, hi) && Within(current, lo, hi)
    ensures Within(UpdateTwap(previous, current, elapsed, window).value, lo, hi)
  {
    if !(elapsed <= 0 || previous == 0) {
      var w := Max(window, 1);
      var weight := Min(elapsed, w);
      hide Within;
      BlendInHull(previous, current, w - weight, weight, lo, hi);
    }
  }

  /** Over a window the new price weighs as much as has passed of it, the old average the rest. */
  lemma TwapWeights(previous: u64, current: u64, elapsed: i64, window: i64)
    requires elapsed > 0 && previous > 0 && window > 0 && UpdateTwap(previous, current, elapsed, window).Ok?
    ensures var r := UpdateTwap(previous, current, elapsed, window).value;
      var passed := Min(elapsed, window);
      r * window <= previous * (window - passed) + current * passed < (r + 1) * window
  {
    var r := UpdateTwap(previous, current, elapsed, window).value;
    var passed := Min(elapsed, window);
    FloorBounds(previous * (window - passed) + current * passed, window);
    assert (r + 1) * window == r * window + window;
  }

  lemma BlendInHull(x: int, y: int, kept: nat, added: nat, lo: int, hi: int)
    requires kept + added > 0 && Within(x, lo, hi) && Within(y, lo, hi)
    ensures Within((x * kept + y * added) / (kept + added), lo, hi)
  {
    var w := kept + added;
    MulMono(lo, x, kept);
    MulMono(lo, y, added);
    MulMono(x, hi, kept);
    MulMono(y, hi, added);
    assert lo * w == lo * kept + lo * added;
    assert (hi + 1) * w == hi * kept + hi * added + w;
    FloorGalois(lo, x * kept + y * added, w);
    FloorGalois(hi + 1, x * kept + y * added, w);
  }

  /** Multiplying by a factor and truncating keeps a sign, and flips it for a negative factor. */
  lemma ScaledSign(x: int, factor: int, d: int)
    requires d > 0
    ensures x >= 0 && factor >= 0 ==> TruncDiv(x * factor, d) >= 0
    ensures x <= 0 && factor >= 0 ==> TruncDiv(x * factor, d) <= 0
    ensures x >= 0 && factor <= 0 ==> TruncDiv(x * factor, d) <= 0
    ensures x <= 0 && factor <= 0 ==> TruncDiv(x * factor, d) >= 0
  {
    TruncBounds(x * factor, d);
    if factor >= 0 {
      if x >= 0 { MulMono(0, x, factor); } else { MulMono(x, 0, factor); }
    } else {
      assert x * factor == -(x * (-factor));
      if x >= 0 { MulMono(0, x, -factor); } else { MulMono(x, 0, -factor); }
    }
  }

  /** The accrual of one crank: bounded by the clamp, with the sign of the premium. */
  lemma DeltaFacts(markTwap: u64, oracleTwap: u64, period: i64)
    requires CalculateFundingRate(markTwap, oracleTwap, period, MAX_FUNDING_RATE).Ok?
    requires FundingDeltaPerBase(CalculateFundingRate(markTwap, oracleTwap, period, MAX_FUNDING_RATE).value,
                                 oracleTwap).Ok?
    ensures var rate := CalculateFundingRate(markTwap, oracleTwap, period, MAX_FUNDING_RATE).value;
      var delta := FundingDeltaPerBase(rate, oracleTwap).value;
      && Abs(rate) <= MAX_FUNDING_RATE
      && Abs(delta) <= MAX_FUNDING_RATE * oracleTwap / FUNDING_RATE_PRECISION
      && (period >= 0 && markTwap >= oracleTwap ==> delta >= 0)
      && (period >= 0 && markTwap <= oracleTwap ==> delta <= 0)
      && (period <= 0 && markTwap >= oracleTwap ==> delta <= 0)
      && (period <= 0 && markTwap <= oracleTwap ==> delta >= 0)
  {
    var rate := CalculateFundingRate(markTwap, oracleTwap, period, MAX_FUNDING_RATE).value;
    var diff := markTwap - oracleTwap;
    var raw := TruncDiv(diff * FUNDING_RATE_PRECISION, oracleTwap);
    ScaledSign(diff, FUNDING_RATE_PRECISION, oracleTwap);
    ScaledSign(raw, period, DAY_SECONDS);
    ScaledSign(rate, oracleTwap, FUNDING_RATE_PRECISION);
    DeltaBound(rate, oracleTwap);
  }

  /** The rate is the premium over the index price, for the part of a day that `period` is,
      each quotient rounded toward zero; the clamp only lowers it. */
  lemma RateBounds(markTwap: u64, oracleTwap: u64, period: i64)
    requires CalculateFundingRate(markTwap, oracleTwap, period, MAX_FUNDING_RATE).Ok?
    ensures var rate := Abs(CalculateFundingRate(markTwap, oracleTwap, period, MAX_FUNDING_RATE).value);
      var exact := Abs(markTwap - oracleTwap) * 1_000_000_000 * Abs(period);
      && rate <= 5_000_000 && rate * 86_400 * oracleTwap <= exact
      && (rate < 5_000_000 ==> exact < (rate + 1) * 86_400 * oracleTwap + oracleTwap * Abs(period))
  {
    var diff := (markTwap - oracleTwap) * FUNDING_RATE_PRECISION;
    var premium := TruncDiv(diff, oracleTwap);
    var raw := TruncDiv(premium * period, DAY_SECONDS);
    var p, x := Abs(period), Abs(premium);
    AbsProduct(premium, period);
    QuotientAbs(diff, oracleTwap);
    QuotientAbs(premium * period, DAY_SECONDS);
    RateClamps(markTwap, oracleTwap, period, raw);
    hide TruncDiv, CalculateFundingRate;
    RateArithmetic(Abs(diff), oracleTwap, p, x, Abs(raw));
    RateScales(Abs(CalculateFundingRate(markTwap, oracleTwap, period, MAX_FUNDING_RATE).value), Abs(raw), oracleTwap);
  }

  lemma RateClamps(markTwap: u64, oracleTwap: u64, period: i64, raw: int)
    requires CalculateFundingRate(markTwap, oracleTwap, period, MAX_FUNDING_RATE).Ok?
    requires oracleTwap > 0
    requires var premium := TruncDiv((markTwap - oracleTwap) * FUNDING_RATE_PRECISION, oracleTwap);
      raw == TruncDiv(premium * period, DAY_SECONDS)
    ensures var rate := Abs(CalculateFundingRate(markTwap, oracleTwap, period, MAX_FUNDING_RATE).value);
      rate <= 5_000_000 && rate <= Abs(raw) && (rate < 5_000_000 ==> rate == Abs(raw))
  {
    hide TruncDiv;
  }

  lemma RateScales(rate: nat, raw: nat, index: nat)
    requires rate <= raw
    ensures rate * 86_400 * index <= raw * 86_400 * index
  {
    MulMono(rate * 86_400, raw * 86_400, index);
  }

  lemma QuotientAbs(a: int, d: int)
    requires d > 0
    ensures Abs(TruncDiv(a, d)) * d <= Abs(a) < (Abs(TruncDiv(a, d)) + 1) * d
  {
    TruncAbs(a, d);
    QuotientRounds(Abs(a), d);
    hide TruncDiv;
  }

  lemma AbsProduct(x: int, y: int)
    ensures Abs(x * y) == Abs(x) * Abs(y)
  {
    MulMono(0, Abs(x), Abs(y));
    assert x * y == (if x < 0 then -1 else 1) * (if y < 0 then -1 else 1) * (Abs(x) * Abs(y));
  }

  lemma RateArithmetic(diff: nat, index: nat, p: nat, x: nat, raw: nat)
    requires index > 0 && x * index <= diff < (x + 1) * index && raw * 86_400 <= x * p < (raw + 1) * 86_400
    ensures raw * 86_400 * index <= diff * p < (raw + 1) * 86_400 * index + index * p
  {
    MulMono(raw * 86_400, x * p, index);
    MulMono(x * index, diff, p);
    MulMono(diff, (x + 1) * index - 1, p);
    MulMono(x * p + 1, (raw + 1) * 86_400, index);
    assert x * p * index == x * index * p;
    assert ((x + 1) * index - 1) * p == x * p * index + index * p - p;
    assert (x * p + 1) * index == x * p * index + index;
  }

  lemma DeltaBound(rate: int, price: nat)
    requires Abs(rate) <= MAX_FUNDING_RATE
    ensures Abs(TruncDiv(rate * price, FUNDING_RATE_PRECISION)) <= MAX_FUNDING_RATE * price / FUNDING_RATE_PRECISION
  {
    MulMono(Abs(rate), MAX_FUNDING_RATE, price);
    FloorMono(Abs(rate) * price, MAX_FUNDING_RATE * price, FUNDING_RATE_PRECISION);
    TruncOdd(Abs(rate) * price, FUNDING_RATE_PRECISION);
    assert rate < 0 ==> rate * price == -(Abs(rate) * price);
    MulMono(0, Abs(rate), price);
  }

  /** Mark at twice the index over a negative period: longs are paid instead of paying. */
  lemma ReversedRate(period: i64)
    requires period < 0
    ensures var rate := CalculateFundingRate(2_000_000_000, 1_000_000_000, period, MAX_FUNDING_RATE);
      && rate.Ok?
      && FundingDeltaPerBase(rate.value, 1_000_000_000).Ok?
      && -MAX_FUNDING_RATE <= FundingDeltaPerBase(rate.value, 1_000_000_000).value < 0
  {
    var raw := TruncDiv(1_000_000_000 * FUNDING_RATE_PRECISION, 1_000_000_000);
    assert raw == FUNDING_RATE_PRECISION;
    TruncMono(raw * period, -FUNDING_RATE_PRECISION, DAY_SECONDS);
    var rate := CalculateFundingRate(2_000_000_000, 1_000_000_000, period, MAX_FUNDING_RATE);
    TruncBounds(raw * period, DAY_SECONDS);
    assert rate.Ok? && rate.value < 0;
    assert FundingDeltaPerBase(rate.value, 1_000_000_000).value == rate.value;
  }
}
