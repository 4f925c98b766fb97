/** Funding stays bounded over any history of cranks. */
module FundingRuns {
  import opened Numbers
  import opened State
  import opened Curve
  import opened Funding
  import opened Instructions
  import opened Protocol
  import opened Bookkeeping
  import opened FundingLaws
  import opened Frames
  import opened Scenario

  /** Ranges for the index prices and the marks a market is fed. */
  datatype Hull = Hull(lo: int, hi: int, markLo: int, markHi: int)

  /** What a step feeds market `k`: the peg when it is created, price and mark when cranked. */
  predicate Feeds(w: World, ix: Instruction, k: nat, h: Hull) {
    && (ix.InitMarket? && ix.params.index == k ==>
          Within(ix.params.peg, h.lo, h.hi) && Within(ix.params.peg, h.markLo, h.markHi))
    && (ix.CrankFunding? && ix.market == k && k < |w.markets| ==>
          && Within(ix.price, h.lo, h.hi)
          && var a := w.markets[k].amm;
          var mark := ReservePrice(a.base, a.quote, a.peg);
          mark.Ok? ==> Within(mark.value, h.markLo, h.markHi))
  }

  ghost predicate FedWithin(cfg: Config, history: seq<Instruction>, k: nat, h: Hull) {
    history != [] ==>
    && FedWithin(cfg, history[..|history| - 1], k, h)
    && Feeds(Run(cfg, history[..|history| - 1]), history[|history| - 1], k, h)
  }

  function CranksAt(k: nat): (World, Instruction, World) -> int {
    (w: World, ix: Instruction, w': World) => if ix.CrankFunding? && ix.market == k then 1 else 0
  }

  /** The most one crank can accrue while the index stays at or below `hi`. */
  function MaxAccrual(hi: nat): nat { MAX_FUNDING_RATE * hi / FUNDING_RATE_PRECISION }

  predicate FundingBounded(w: World, k: nat, h: Hull, cranks: int)
    requires h.hi >= 0
  {
    k < |w.markets| ==>
      && Within(w.markets[k].amm.oracleTwap, h.lo, h.hi)
      && Within(w.markets[k].amm.markTwap, h.markLo, h.markHi)
      && Abs(w.markets[k].amm.cumFundingLong) <= cranks * MaxAccrual(h.hi)
  }

  /** One crank moves the cumulative figure by one bounded accrual. */
  lemma CrankBounded(m: Market, price: u64, now: i64, h: Hull)
    requires UpdateFundingRate(m, price, now).Ok? && h.hi >= 0
    requires Within(m.amm.oracleTwap, h.lo, h.hi) && Within(price, h.lo, h.hi)
    requires Within(m.amm.markTwap, h.markLo, h.markHi)
    requires ReservePrice(m.amm.base, m.amm.quote, m.amm.peg).Ok?
    requires Within(ReservePrice(m.amm.base, m.amm.quote, m.amm.peg).value, h.markLo, h.markHi)
    ensures var m' := UpdateFundingRate(m, price, now).value;
      && Within(m'.amm.oracleTwap, h.lo, h.hi)
      && Within(m'.amm.markTwap, h.markLo, h.markHi)
      && Abs(m'.amm.cumFundingLong - m.amm.cumFundingLong) <= MaxAccrual(h.hi)
      && (m.fundingPeriod >= 0 && m'.amm.markTwap >= m'.amm.oracleTwap ==>
            m'.amm.cumFundingLong >= m.amm.cumFundingLong)
      && (m.fundingPeriod >= 0 && m'.amm.markTwap <= m'.amm.oracleTwap ==>
            m'.amm.cumFundingLong <= m.amm.cumFundingLong)
  {
    var m' := UpdateFundingRate(m, price, now).value;
    var mark := ReservePrice(m.amm.base, m.amm.quote, m.amm.peg).value;
    var window := Max(m.fundingPeriod, 1);
    var elapsedTwap := now - m.amm.lastTwapTs;
    TwapInHull(m.amm.markTwap, mark, elapsedTwap, window, h.markLo, h.markHi);
    TwapInHull(m.amm.oracleTwap, price, elapsedTwap, window, h.lo, h.hi);
    var elapsed := now - m.amm.lastFundingTs;
    if elapsed > 0 {
      DeltaFacts(m'.amm.markTwap, m'.amm.oracleTwap, Min(elapsed, m.fundingPeriod));
      MulMono(m'.amm.oracleTwap, h.hi, MAX_FUNDING_RATE);
      FloorMono(MAX_FUNDING_RATE * m'.amm.oracleTwap, MAX_FUNDING_RATE * h.hi, FUNDING_RATE_PRECISION);
    }
  }

  lemma StepBounded(w: World, ix: Instruction, w': World, k: nat, h: Hull, cranks: nat)
    requires Step(w, ix) == Ok(w') && Feeds(w, ix, k, h) && h.hi >= 0
    requires FundingBounded(w, k, h, cranks)
    ensures FundingBounded(w', k, h, cranks + CranksAt(k)(w, ix, w'))
  {
    if k < |w.markets| {
      MarketFrame(w, ix, w', k);
      if ix.CrankFunding? && ix.market == k {
        assert UpdateFundingRate(w.markets[k], ix.price, ix.now).Ok?;
        CrankBounded(w.markets[k], ix.price, ix.now, h);
        hide UpdateFundingRate;
        assert (cranks + 1) * MaxAccrual(h.hi) == cranks * MaxAccrual(h.hi) + MaxAccrual(h.hi);
      }
    } else if k < |w'.markets| {
      assert ix.InitMarket?;
      MulMono(0, cranks, MaxAccrual(h.hi));
    }
  }

  lemma {:induction false} CranksNatural(cfg: Config, history: seq<Instruction>, k: nat)
    ensures Accumulated(cfg, history, CranksAt(k)) >= 0
  {
    if history == [] {
    } else {
      CranksNatural(cfg, history[..|history| - 1], k);
    }
  }

  lemma NothingYet(cfg: Config, k: nat, h: Hull)
    requires h.hi >= 0
    ensures FundingBounded(Genesis(cfg), k, h, 0)
  {
  }

  /** Over any history, both averages of a market stay within the range of its peg and all
      it was fed, and after `n` cranks the cumulative funding is at most `n` accruals. */
  lemma {:induction false} FundingStaysBounded(cfg: Config, history: seq<Instruction>, k: nat, h: Hull)
    requires FedWithin(cfg, history, k, h) && h.hi >= 0
    ensures FundingBounded(Run(cfg, history), k, h, Accumulated(cfg, history, CranksAt(k)))
  {
    hide Step, FundingBounded, Feeds;
    if history == [] {
      NothingYet(cfg, k, h);
    } else {
      var n := |history| - 1;
      FundingStaysBounded(cfg, history[..n], k, h);
      CranksNatural(cfg, history[..n], k);
      var w := Run(cfg, history[..n]);
      if Step(w, history[n]).Ok? {
        StepBounded(w, history[n], Step(w, history[n]).value, k, h, Accumulated(cfg, history[..n], CranksAt(k)));
      }
    }
  }

  /** Fed only positive prices, a market's index average stays positive, so its crank is
      never rejected for an invalid oracle price. */
  lemma {:induction false} RateGuardNeverFires(cfg: Config, history: seq<Instruction>, k: nat, h: Hull, price: u64,
                                               now: i64)
    requires FedWithin(cfg, history, k, h) && 1 <= h.lo <= price <= h.hi
    requires k < |Run(cfg, history).markets|
    ensures UpdateFundingRate(Run(cfg, history).markets[k], price, now) != Err(InvalidOraclePrice)
  {
    FundingStaysBounded(cfg, history, k, h);
    hide Run;
    CrankAccepted(Run(cfg, history).markets[k], price, now);
  }

  lemma CrankAccepted(m: Market, price: u64, now: i64)
    requires m.amm.oracleTwap >= 1 && price >= 1
    ensures UpdateFundingRate(m, price, now) != Err(InvalidOraclePrice)
  {
    var elapsed := FitI64(now - m.amm.lastTwapTs);
    var window := Max(m.fundingPeriod, 1);
    if elapsed.Ok? && UpdateTwap(m.amm.oracleTwap, price, elapsed.value, window).Ok? {
      TwapInHull(m.amm.oracleTwap, price, elapsed.value, window, 1, U64_MAX);
    }
    hide UpdateTwap, ReservePrice, FundingDeltaPerBase, FitI128, FitI64;
  }

  // ------------------------------------------------------------ the direction of funding

  /** A crank moves the cumulative figure from the index toward the mark. */
  predicate TowardMark(a: Amm, a': Amm) {
    && (a'.markTwap >= a'.oracleTwap ==> a'.cumFundingLong >= a.cumFundingLong)
    && (a'.markTwap <= a'.oracleTwap ==> a'.cumFundingLong <= a.cumFundingLong)
  }

  /** Every first crank of every market that creation accepts with this period does so. */
  ghost predicate CreatedWithDirection(period: i64) {
    forall n: nat, p: MarketParams, start: i64, price: u64, now: i64 ::
      p.fundingPeriod == period && InitializeMarket(n, p, start).Ok?
      && UpdateFundingRate(InitializeMarket(n, p, start).value, price, now).Ok? ==>
        TowardMark(InitializeMarket(n, p, start).value.amm,
                   UpdateFundingRate(InitializeMarket(n, p, start).value, price, now).value.amm)
  }

  /** Creation accepts any funding period; longs pay above the index if and only if it is not
      negative. */
  lemma FundingDirectionIff(period: i64)
    ensures CreatedWithDirection(period) <==> period >= 0
  {
    if period >= 0 {
      forall n: nat, p: MarketParams, start: i64, price: u64, now: i64 |
        p.fundingPeriod == period && InitializeMarket(n, p, start).Ok?
        && UpdateFundingRate(InitializeMarket(n, p, start).value, price, now).Ok?
        ensures TowardMark(InitializeMarket(n, p, start).value.amm,
                           UpdateFundingRate(InitializeMarket(n, p, start).value, price, now).value.amm)
      {
        var m := InitializeMarket(n, p, start).value;
        assert m.fundingPeriod == period;
        hide InitializeMarket;
        CrankTowardMark(m, price, now);
      }
    } else {
      ReversedCrank(period);
      assert InitializeMarket(0, Reversed(period), 0) == Ok(Created(Reversed(period)));
    }
  }

  lemma CrankTowardMark(m: Market, price: u64, now: i64)
    requires m.fundingPeriod >= 0 && UpdateFundingRate(m, price, now).Ok?
    ensures TowardMark(m.amm, UpdateFundingRate(m, price, now).value.amm)
  {
    var m' := UpdateFundingRate(m, price, now).value;
    var elapsed := now - m.amm.lastFundingTs;
    if elapsed > 0 {
      DeltaFacts(m'.amm.markTwap, m'.amm.oracleTwap, Min(elapsed, m.fundingPeriod));
    }
    hide ReservePrice, UpdateTwap, CalculateFundingRate, FundingDeltaPerBase;
  }

  /** Parameters with a negative funding period. */
  function Reversed(period: i64): MarketParams { MarketParams(0, 2_000_000_000, 1, 2, 1, 1, 1, 0, 0, period) }

  lemma ReversedCrank(period: i64)
    requires period < 0
    ensures var m := Created(Reversed(period));
      var cranked := UpdateFundingRate(m, 1_000_000_000, 1);
      && cranked.Ok? && m.amm.cumFundingLong == 0
      && cranked.value.amm.markTwap == 2_000_000_000 && cranked.value.amm.oracleTwap == 1_000_000_000
      && cranked.value.amm.cumFundingLong < 0
  {
    var m := Created(Reversed(period));
    assert ReservePrice(1, 1, 2_000_000_000) == Ok(2_000_000_000);
    assert UpdateTwap(2_000_000_000, 2_000_000_000, 1, 1) == Ok(2_000_000_000);
    assert UpdateTwap(2_000_000_000, 1_000_000_000, 1, 1) == Ok(1_000_000_000);
    ReversedRate(period);
    hide ReservePrice, UpdateTwap, CalculateFundingRate, FundingDeltaPerBase;
  }

  /** For every negative period a history creates such a market and cranks it, with the mark
      above the index, the wrong way. */
  lemma ReversedFundingReached(period: i64)
    requires period < 0
    ensures var history := Opening(Reversed(period)) + [CrankFunding(0, 1_000_000_000, 1)];
      var markets := Run(PLAIN, history).markets;
      && |markets| == 1 && markets[0].amm.markTwap > markets[0].amm.oracleTwap && markets[0].amm.cumFundingLong < 0
  {
    OpeningReaches(Reversed(period));
    RunMore(PLAIN, Opening(Reversed(period)), CrankFunding(0, 1_000_000_000, 1));
    ReversedCrank(period);
    hide Run, UpdateFundingRate;
  }

  // ------------------------------------------------------------ when a crank is sent

  /** Cranked again at the same instant, a market accrues nothing more. */
  lemma CrankTwiceAccruesOnce(m: Market, price: u64, again: u64, now: i64)
    requires UpdateFundingRate(m, price, now).Ok? && now >= m.amm.lastFundingTs
    requires UpdateFundingRate(UpdateFundingRate(m, price, now).value, again, now).Ok?
    ensures var once := UpdateFundingRate(m, price, now).value;
      UpdateFundingRate(once, again, now).value.amm.cumFundingLong == once.amm.cumFundingLong
  {
    hide ReservePrice, UpdateTwap, CalculateFundingRate, FundingDeltaPerBase;
  }

  lemma ExactQuotient(c: nat, w: nat)
    requires w > 0
    ensures c * w / w == c
  {
    FloorGalois(c, c * w, w);
    FloorGalois(c + 1, c * w, w);
    Distribute(c, 1, w);
  }

  /** With a full window behind it an average forgets the past. */
  lemma FullWindow(previous: u64, current: u64, elapsed: i64, window: i64)
    requires window >= 1 && elapsed >= window && UpdateTwap(previous, current, elapsed, window).Ok?
    ensures UpdateTwap(previous, current, elapsed, window).value == current
  {
    ExactQuotient(current, window);
    assert previous * (window - window) == 0;
  }

  /** A crank that comes a full period late accrues one period at the current mark and index. */
  lemma LateCrank(m: Market, price: u64, now: i64)
    requires m.fundingPeriod >= 1
    requires now >= m.amm.lastTwapTs + m.fundingPeriod && now >= m.amm.lastFundingTs + m.fundingPeriod
    requires UpdateFundingRate(m, price, now).Ok?
    ensures ReservePrice(m.amm.base, m.amm.quote, m.amm.peg).Ok?
    ensures var a := UpdateFundingRate(m, price, now).value.amm;
      && a.markTwap == ReservePrice(m.amm.base, m.amm.quote, m.amm.peg).value && a.oracleTwap == price
      && CalculateFundingRate(a.markTwap, price, m.fundingPeriod, MAX_FUNDING_RATE) == Ok(a.lastFundingRate)
      && FundingDeltaPerBase(a.lastFundingRate, price) == Ok(a.cumFundingLong as int - m.amm.cumFundingLong)
  {
    hide ReservePrice, UpdateTwap, CalculateFundingRate, FundingDeltaPerBase;
    var mark := ReservePrice(m.amm.base, m.amm.quote, m.amm.peg).value;
    FullWindow(m.amm.markTwap, mark, now - m.amm.lastTwapTs, m.fundingPeriod);
    FullWindow(m.amm.oracleTwap, price, now - m.amm.lastTwapTs, m.fundingPeriod);
  }

  /** After a full window, with a period that is not negative, longs pay while the reserves at the
      peg are worth at least the index, and are paid while they are worth less than one unit more. */
  lemma FullWindowDirection(m: Market, price: u64, now: i64, m': Market)
    requires UpdateFundingRate(m, price, now) == Ok(m') && m.fundingPeriod >= 0
    requires now - m.amm.lastTwapTs >= Max(m.fundingPeriod, 1)
    ensures m.amm.base > 0
    ensures m.amm.quote * m.amm.peg >= price * m.amm.base ==> m'.amm.cumFundingLong >= m.amm.cumFundingLong
    ensures m.amm.quote * m.amm.peg < (price + 1) * m.amm.base ==> m'.amm.cumFundingLong <= m.amm.cumFundingLong
  {
    var a := m.amm;
    var mark := ReservePrice(a.base, a.quote, a.peg).value;
    ReservePriceIff(a.base, a.quote, a.peg, mark);
    hide ReservePrice;
    FullWindow(a.markTwap, mark, now - a.lastTwapTs, Max(m.fundingPeriod, 1));
    FullWindow(a.oracleTwap, price, now - a.lastTwapTs, Max(m.fundingPeriod, 1));
    hide UpdateTwap;
    if price > mark { MulMono(mark + 1, price, a.base); }
    if mark > price { MulMono(price + 1, mark, a.base); }
    if now > a.lastFundingTs { DeltaFacts(mark, price, Min(now - a.lastFundingTs, m.fundingPeriod)); }
    hide CalculateFundingRate, FundingDeltaPerBase;
  }

  lemma BelowRoot(b: nat, q: nat, k: nat)
    requires b < k && b * q >= k * k
    ensures q > b
  {
    MulMono(b, k, b);
    MulMono(b + 1, k, k);
    Commute(q, b);
    Commute(k, b);
    Distribute(b, 1, k);
    if q <= b { MulMono(q, b, b); }
  }

  /** While traders are net long the mark is at or above the peg: after a full window longs do
      not earn funding at an index at or below the peg. */
  lemma NetLongsPay(m: Market, price: u64, now: i64, m': Market)
    requires MarketOk(m) && m.amm.long + m.amm.short > 0 && price <= m.amm.peg
    requires UpdateFundingRate(m, price, now) == Ok(m') && m.fundingPeriod >= 0
    requires now - m.amm.lastTwapTs >= Max(m.fundingPeriod, 1)
    ensures m.amm.quote > m.amm.base && m'.amm.cumFundingLong >= m.amm.cumFundingLong
  {
    var a := m.amm;
    hide UpdateFundingRate;
    BelowRoot(a.base, a.quote, a.sqrtK);
    hide CurveOk;
    MulMono(a.base, a.quote, a.peg);
    MulMono(price, a.peg, a.base);
    FullWindowDirection(m, price, now, m');
  }

  /** However late a crank comes, it accrues no more than one period. */
  lemma LateCrankAccruesOnePeriod(m: Market, price: u64, now: i64, later: i64)
    requires m.fundingPeriod >= 1
    requires now >= m.amm.lastTwapTs + m.fundingPeriod && now >= m.amm.lastFundingTs + m.fundingPeriod && later >= now
    requires UpdateFundingRate(m, price, now).Ok? && UpdateFundingRate(m, price, later).Ok?
    ensures var soon, late := UpdateFundingRate(m, price, now).value.amm, UpdateFundingRate(m, price, later).value.amm;
      && late.cumFundingLong == soon.cumFundingLong && late.lastFundingRate == soon.lastFundingRate
      && late.markTwap == soon.markTwap && late.oracleTwap == soon.oracleTwap == price
  {
    hide *;
    LateCrank(m, price, now);
    LateCrank(m, price, later);
  }
}
