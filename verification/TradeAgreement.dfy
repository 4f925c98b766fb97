/** Trades against the AMM compute exactly the relation: swaps, margin, slots, opens and closes. */
module TradeAgreement {
  import opened Numbers
  import opened Sequences
  import opened State
  import opened Curve
  import opened Margin
  import opened Funding
  import opened Controller
  import opened Instructions
  import opened Protocol
  import Bookkeeping
  import R = Relation

  // ------------------------------------------------------------ roundings

  lemma DownIs(r: int, a: int, d: int)
    requires d > 0
    ensures R.RoundsDown(r, a, d) <==> r == a / d
  {
    FloorGalois(r, a, d);
    FloorGalois(r + 1, a, d);
    assert (r + 1) * d == r * d + d;
  }

  lemma UpIs(r: int, a: nat, d: int)
    requires d > 0
    ensures R.RoundsUp(r, a, d) <==> r == CeilDiv(a, d)
  {
    CeilGalois(r, a, d);
    CeilGalois(r - 1, a, d);
    assert (r - 1) * d == r * d - d;
  }

  lemma ToZeroIs(r: int, a: int, d: int)
    requires d > 0
    ensures R.RoundsToZero(r, a, d) <==> r == TruncDiv(a, d)
  {
    if a >= 0 {
      DownIs(r, a, d);
    } else {
      DownIs(0 - r, 0 - a, d);
      assert (0 - r) * d == 0 - r * d;
    }
  }

  // ------------------------------------------------------------ trades with the AMM

  lemma SwapIff(a: Amm, size: u128, buys: bool, s: SwapResult)
    ensures CalculateSwap(a.base, a.quote, a.peg, size, if buys then Remove else Add) == Ok(s)
      <==> R.Swaps(a, size, buys, s)
  {
    var newBase := if buys then a.base - size else a.base + size;
    if size > 0 && newBase > 0 {
      hide CalculateSwap, R.Swaps, CeilDiv;
      var k, newQuote, moved, scaled := SwapNumbers(a, size, buys, newBase);
      SwapAnswer(a, size, buys, k, newBase, newQuote, moved, scaled);
      SwapRelation(a, size, buys, s, k, newBase, newQuote, moved, scaled);
    } else {
      hide DivCeil;
    }
  }

  lemma SwapNumbers(a: Amm, size: u128, buys: bool, newBase: int)
    returns (k: nat, newQuote: nat, moved: int, scaled: int)
    requires size > 0 && newBase == (if buys then a.base - size else a.base + size) > 0
    ensures k == a.base * a.quote && newQuote == CeilDiv(k, newBase) <= k
    ensures moved == (if buys then newQuote - a.quote else a.quote - newQuote) >= 0
    ensures scaled == moved * a.peg >= 0
  {
    MulMono(0, a.base, a.quote);
    k := a.base * a.quote;
    newQuote := CeilDiv(k, newBase);
    RequoteDirection(a.base, a.quote, newBase);
    CeilShrinks(k, newBase);
    moved := if buys then newQuote - a.quote else a.quote - newQuote;
    MulMono(0, moved, a.peg);
    scaled := moved * a.peg;
  }

  lemma SwapRelation(a: Amm, size: u128, buys: bool, s: SwapResult, k: nat, newBase: int, newQuote: nat, moved: nat,
                     scaled: nat)
    requires k == a.base * a.quote && size > 0 && newBase == (if buys then a.base - size else a.base + size) > 0
    requires newQuote == CeilDiv(k, newBase) && moved == (if buys then newQuote - a.quote else a.quote - newQuote)
    requires scaled == moved * a.peg
    ensures R.Swaps(a, size, buys, s)
      <==> R.InU128(k) && R.InU128(scaled)
           && s.newBase == newBase && s.newQuote == newQuote && s.quote == scaled / 1_000_000_000
  {
    UpIs(s.newQuote, k, newBase);
    DownIs(s.quote, scaled, 1_000_000_000);
    hide CeilDiv, R.RoundsUp, R.RoundsDown;
  }

  /** The checks of a swap with its products named. */
  lemma SwapAnswer(a: Amm, size: u128, buys: bool, k: int, newBase: int, newQuote: int, moved: int, scaled: int)
    requires k == a.base * a.quote && size > 0 && newBase == (if buys then a.base - size else a.base + size) > 0
    requires 0 <= newQuote == CeilDiv(k, newBase) <= k
    requires moved == (if buys then newQuote - a.quote else a.quote - newQuote) >= 0
    requires scaled == moved * a.peg >= 0
    ensures var r := CalculateSwap(a.base, a.quote, a.peg, size, if buys then Remove else Add);
      && (r.Ok? <==> R.InU128(k) && R.InU128(newBase) && R.InU128(scaled))
      && (r.Ok? ==> r == Ok(SwapResult(newBase, newQuote, scaled / 1_000_000_000)))
  {
    hide CeilDiv;
  }

  lemma AverageIff(quote: u128, size: u64, avg: u128)
    requires size > 0
    ensures AveragePrice(quote, size) == Ok(avg)
      <==> R.InU128(quote * 1_000_000_000) && R.RoundsDown(avg, quote * 1_000_000_000, size)
  {
    var scaled := quote * 1_000_000_000;
    DownIs(avg, scaled, size);
    FloorGalois(0, scaled, size);
    MulMono(1, size, scaled / size);
    FloorBounds(scaled, size);
  }

  lemma FeeIff(notional: u128, bps: u16, fee: u128)
    ensures FeeAmount(notional, bps) == Ok(fee)
      <==> R.InU128(notional * bps) && R.RoundsUp(fee, notional * bps, 10_000)
  {
    MulMono(0, notional, bps);
    var scaled := notional * bps;
    UpIs(fee, scaled, 10_000);
    CeilShrinks(scaled, 10_000);
    hide CeilDiv;
  }

  lemma QuoteIff(m: Market, feeBps: u16, size: u64, limit: u64, buys: bool, t: Priced)
    ensures PriceTrade(m, feeBps, size, limit, buys) == Ok(t) <==> R.Quotes(m, feeBps, size, limit, buys, t)
  {
    SwapIff(m.amm, size, buys, t.swap);
    hide CalculateSwap, AveragePrice, FeeAmount, R.RoundsDown, R.RoundsUp;
    if CalculateSwap(m.amm.base, m.amm.quote, m.amm.peg, size, if buys then Remove else Add) == Ok(t.swap) {
      assert size > 0;
      AverageIff(t.swap.quote, size, t.avg);
      FeeIff(t.swap.quote, feeBps, t.fee);
      hide R.Swaps;
    }
  }

  // ------------------------------------------------------------ margin

  /** A position is valued as the relation says; only its two requirements can overflow. */
  lemma HealthGives(collateral: u64, p: PerpPosition, price: u64, m: Market) returns (v: R.Worth)
    requires HealthOf(collateral, p, price, m).Ok?
    ensures R.Values(p, price, m, v)
    ensures var h := HealthOf(collateral, p, price, m).value;
      h == Health(collateral + v.value + p.entry, v.initial, v.maintenance)
  {
    var notional := Abs(p.base) * price / 1_000_000_000;
    v := R.Worth(TruncDiv(p.base * price, 1_000_000_000), notional,
                 notional * m.marginInitial / 10_000, notional * m.marginMaintenance / 10_000);
    WorthIs(p, price, m, v);
    HealthExact(collateral, p, price, m);
    hide R.Values;
  }

  lemma WorthIs(p: PerpPosition, price: u64, m: Market, v: R.Worth)
    ensures R.Values(p, price, m, v) <==>
      && v.value == TruncDiv(p.base * price, 1_000_000_000)
      && v.notional == Abs(p.base) * price / 1_000_000_000
      && R.InU128(v.notional * m.marginInitial) && v.initial == v.notional * m.marginInitial / 10_000
      && R.InU128(v.notional * m.marginMaintenance) && v.maintenance == v.notional * m.marginMaintenance / 10_000
  {
    ToZeroIs(v.value, p.base * price, 1_000_000_000);
    DownIs(v.notional, R.Magnitude(p.base) * price, 1_000_000_000);
    DownIs(v.initial, v.notional * m.marginInitial, 10_000);
    DownIs(v.maintenance, v.notional * m.marginMaintenance, 10_000);
    hide R.RoundsDown, R.RoundsToZero, TruncDiv;
  }

  lemma HealthTakes(collateral: u64, p: PerpPosition, price: u64, m: Market, v: R.Worth)
    requires R.Values(p, price, m, v)
    ensures var h := HealthOf(collateral, p, price, m);
      && h.Ok? && h.value.total == collateral + v.value + p.entry
      && h.value.initial == v.initial && h.value.maintenance == v.maintenance
  {
    WorthIs(p, price, m, v);
    hide R.Values;
    Bounded(p.base, price);
    var x := p.base * price;
    var n := Abs(p.base) * price;
    TruncBounds(x, BASE_PRECISION);
    FloorGalois(0, n, BASE_PRECISION);
    FloorMono(n, 0x8000_0000_0000_0000 * U64_MAX, BASE_PRECISION);
    hide TruncDiv;
    NonNegative(v.notional, m.marginInitial);
    NonNegative(v.notional, m.marginMaintenance);
    HealthSteps(collateral, p, price, m, x, n, v);
  }

  lemma NonNegative(notional: nat, ratio: nat)
    ensures notional * ratio >= 0 && notional * ratio / 10_000 >= 0
  {
    MulMono(0, notional, ratio);
    FloorGalois(0, notional * ratio, 10_000);
  }

  lemma Bounded(base: i64, price: u64)
    ensures Abs(base) * price <= 0x8000_0000_0000_0000 * U64_MAX
    ensures Abs(base * price) == Abs(base) * price
  {
    MulMono(0, Abs(base), price);
    MulMono(Abs(base), 0x8000_0000_0000_0000, price);
    assert base < 0 ==> base * price == 0 - Abs(base) * price;
  }

  lemma HealthSteps(collateral: u64, p: PerpPosition, price: u64, m: Market, x: int, n: nat, v: R.Worth)
    requires x == p.base * price && n == Abs(p.base) * price && Abs(x) == n <= 0x8000_0000_0000_0000 * U64_MAX
    requires v.value == TruncDiv(x, BASE_PRECISION) && Abs(v.value) * BASE_PRECISION <= Abs(x)
    requires v.notional == n / BASE_PRECISION && 0 <= v.notional <= U128_MAX
    requires R.InU128(v.notional * m.marginInitial) && v.initial == v.notional * m.marginInitial / 10_000
    requires R.InU128(v.notional * m.marginMaintenance) && v.maintenance == v.notional * m.marginMaintenance / 10_000
    ensures var h := HealthOf(collateral, p, price, m);
      && h.Ok? && h.value.total == collateral + v.value + p.entry
      && h.value.initial == v.initial && h.value.maintenance == v.maintenance
  {
    hide TruncDiv;
  }

  /** The initial margin gate passes exactly when the account covers the requirement. */
  lemma InitialGives(collateral: u64, p: PerpPosition, price: u64, m: Market) returns (v: R.Worth)
    requires RequireInitial(collateral, p, price, m).Ok?
    ensures R.Margined(collateral, p, price, m, v)
  {
    v := HealthGives(collateral, p, price, m);
    HealthExact(collateral, p, price, m);
    hide HealthOf, R.Values;
  }

  lemma InitialTakes(collateral: u64, p: PerpPosition, price: u64, m: Market, v: R.Worth)
    requires R.Margined(collateral, p, price, m, v)
    ensures RequireInitial(collateral, p, price, m).Ok?
  {
    HealthTakes(collateral, p, price, m, v);
    HealthExact(collateral, p, price, m);
    hide HealthOf, R.Values;
  }

  // ------------------------------------------------------------ slots

  lemma HeldIff(ps: seq<PerpPosition>, k: u16, at: nat)
    ensures FindPosition(ps, k) == Some(at) <==> R.Held(ps, k, at)
  {
    var r := Position(ps, OpenIn(k));
    if r.Some? {
      assert OpenIn(k)(ps[r.value]);
      assert forall i :: 0 <= i < r.value ==> !OpenIn(k)(ps[i]);
    } else {
      assert forall i :: 0 <= i < |ps| ==> !OpenIn(k)(ps[i]);
    }
  }

  lemma OpensInIff(ps: seq<PerpPosition>, k: u16, isLong: bool, at: nat)
    ensures R.OpensIn(ps, k, at) <==>
      match FindPosition(ps, k)
      case Some(i) => i == at
      case None => PositionSlot(ps, k).Ok? && PositionSlot(ps, k).value.index == at
  {
    var found, kept, idle := Position(ps, OpenIn(k)), Position(ps, TakenFor(k)), Position(ps, Vacant());
    assert found.Some? ==> OpenIn(k)(ps[found.value]);
    assert forall i :: 0 <= i < |ps| ==> (OpenIn(k)(ps[i]) <==> R.Holds(ps[i], k));
    assert forall i :: 0 <= i < |ps| ==> (TakenFor(k)(ps[i]) <==> R.Keeps(ps[i], k));
    assert forall i :: 0 <= i < |ps| ==> (Vacant()(ps[i]) <==> R.Idle(ps[i]));
  }

  // ------------------------------------------------------------ opening

  lemma SignedIff(size: u64, isLong: bool, signed: i64)
    ensures SignedBase(size, isLong) == Ok(signed)
      <==> R.InI64(R.Signed(isLong, size)) && signed == R.Signed(isLong, size)
  {
  }

  /** Base enters the slot the relation names, with the relation's figures. */
  lemma JoinGives(ps: seq<PerpPosition>, m: Market, isLong: bool, size: u64, quote: i64,
                  after: seq<PerpPosition>, p': PerpPosition) returns (at: nat)
    requires SignedBase(size, isLong).Ok?
    requires AddToPosition(ps, m.index, isLong, SignedBase(size, isLong).value, quote, m.amm.cumFundingLong)
      == Ok((after, p'))
    ensures R.Joins(ps, m, isLong, size, quote, at, after) && at < |after| && after[at] == p'
  {
    at := TargetPosition(ps, m.index, isLong).value.1;
    OpensInIff(ps, m.index, isLong, at);
    SignedIff(size, isLong, SignedBase(size, isLong).value);
    hide R.OpensIn;
    TargetIs(ps, m.index, isLong, at);
    hide TargetPosition, R.Wrapped, R.Signed, SignedBase;
  }

  /** The target of an opening trade, slot by slot. */
  lemma TargetIs(ps: seq<PerpPosition>, k: u16, isLong: bool, at: nat)
    requires R.OpensIn(ps, k, at)
    ensures var p := if R.Idle(ps[at]) then PerpPosition(k, 0, 0, 0, 0) else ps[at];
      if p.base != 0 && (p.base > 0) != isLong then TargetPosition(ps, k, isLong).Err?
      else TargetPosition(ps, k, isLong) == Ok((ps[at := p], at))
  {
    OpensInIff(ps, k, isLong, at);
    assert ps[at := ps[at]] == ps;
  }

  lemma JoinTakes(ps: seq<PerpPosition>, m: Market, isLong: bool, size: u64, quote: i64, at: nat,
                  after: seq<PerpPosition>)
    requires R.Joins(ps, m, isLong, size, quote, at, after)
    ensures SignedBase(size, isLong) == Ok(R.Signed(isLong, size)) && at < |after|
    ensures AddToPosition(ps, m.index, isLong, SignedBase(size, isLong).value, quote, m.amm.cumFundingLong)
      == Ok((after, after[at]))
  {
    SignedIff(size, isLong, R.Signed(isLong, size));
    TargetIs(ps, m.index, isLong, at);
    hide TargetPosition, R.Wrapped, R.Signed, SignedBase, R.OpensIn;
    var p := if R.Idle(ps[at]) then PerpPosition(m.index, 0, 0, 0, 0) else ps[at];
    assert ps[at := p][at := after[at]] == after;
  }

  /** What an AMM trade moves always fits the casts. */
  lemma QuoteSmall(a: Amm, size: u128, buys: bool, s: SwapResult)
    requires R.Swaps(a, size, buys, s)
    ensures AsI128(s.quote) == s.quote <= U128_MAX / BASE_PRECISION
  {
    var moved := if buys then s.newQuote - a.quote else a.quote - s.newQuote;
    DownIs(s.quote, moved * a.peg, 1_000_000_000);
    FloorMono(moved * a.peg, U128_MAX, BASE_PRECISION);
  }

  lemma FeeSmall(quote: u128, bps: u16, fee: u128)
    requires R.InU128(quote * bps) && R.RoundsUp(fee, quote * bps, 10_000)
    ensures AsI128(fee) == fee
  {
    FeeIff(quote, bps, fee);
    FeeExact(quote, bps);
  }

  lemma OpenMarketIff(m: Market, priced: Priced, isLong: bool, size: u64, m': Market)
    requires AsI128(priced.fee) == priced.fee
    ensures OpenMarket(m, priced, isLong, size) == Ok(m') <==> R.Grows(m, isLong, size, priced, m')
  {
  }

  lemma OpenRecorded(u: User, m: Market, feeBps: u16, dir: Direction, size: u64, limit: u64, price: u64)
    requires ExecuteAmmOpen(u, m, feeBps, dir, size, limit, price).Ok?
    ensures PriceTrade(m, feeBps, size, limit, dir == Long).Ok?
    ensures R.Records(PriceTrade(m, feeBps, size, limit, dir == Long).value)
  {
    hide PriceTrade, AddToPosition, OpenMarket, RequireInitial;
  }

  lemma OpenGives(u: User, m: Market, feeBps: u16, dir: Direction, size: u64, limit: u64, price: u64, f: OpenFill)
    returns (o: R.Opening)
    requires ExecuteAmmOpen(u, m, feeBps, dir, size, limit, price) == Ok(f)
    ensures R.Opens(u, m, feeBps, dir == Long, size, limit, price, f.user, f.market, o)
    ensures f.quote == o.priced.swap.quote
  {
    hide ExecuteAmmOpen, PriceTrade, AddToPosition, RequireInitial, OpenMarket;
    hide R.Quotes, R.Joins, R.Values, R.Grows, R.Records;
    var isLong := dir == Long;
    var priced, added := Bookkeeping.OpenShape(u, m, feeBps, dir, size, limit, price);
    OpenRecorded(u, m, feeBps, dir, size, limit, price);
    QuoteIff(m, feeBps, size, limit, isLong, priced);
    QuoteParts(m, feeBps, size, limit, isLong, priced);
    OpenMarketIff(m, priced, isLong, size, f.market);
    var at := JoinGives(u.positions, m, isLong, size, priced.swap.quote, f.user.positions, added.1);
    var worth := InitialGives(f.user.collateral, added.1, price, f.market);
    GrowsRatios(m, isLong, size, priced, f.market);
    SameWorth(added.1, price, f.market, m, worth);
    o := R.Opening(priced, at, worth);
  }

  /** Only the ratios of a market matter for the worth of a position. */
  lemma SameWorth(p: PerpPosition, price: u64, m: Market, m': Market, v: R.Worth)
    requires m'.marginInitial == m.marginInitial && m'.marginMaintenance == m.marginMaintenance
    ensures R.Values(p, price, m, v) == R.Values(p, price, m', v)
  {
  }

  lemma GrowsRatios(m: Market, isLong: bool, size: int, t: Priced, m': Market)
    requires R.Grows(m, isLong, size, t, m')
    ensures m'.marginInitial == m.marginInitial && m'.marginMaintenance == m.marginMaintenance
  {
  }

  /** A priced trade always fits the casts to signed integers. */
  lemma QuoteParts(m: Market, feeBps: u16, size: u64, limit: u64, buys: bool, t: Priced)
    requires R.Quotes(m, feeBps, size, limit, buys, t)
    ensures size > 0 && AsI128(t.swap.quote) == t.swap.quote <= U128_MAX / BASE_PRECISION && AsI128(t.fee) == t.fee
  {
    QuoteSmall(m.amm, size, buys, t.swap);
    FeeSmall(t.swap.quote, feeBps, t.fee);
    hide R.RoundsDown, R.RoundsUp;
  }

  lemma OpenTakes(u: User, m: Market, feeBps: u16, dir: Direction, size: u64, limit: u64, price: u64,
                  u': User, m': Market, o: R.Opening)
    requires R.Opens(u, m, feeBps, dir == Long, size, limit, price, u', m', o)
    ensures ExecuteAmmOpen(u, m, feeBps, dir, size, limit, price) == Ok(OpenFill(u', m', o.priced.swap.quote))
  {
    hide PriceTrade, AddToPosition, RequireInitial, OpenMarket, SignedBase;
    hide R.Quotes, R.Joins, R.Values, R.Grows;
    var isLong := dir == Long;
    QuoteIff(m, feeBps, size, limit, isLong, o.priced);
    QuoteParts(m, feeBps, size, limit, isLong, o.priced);
    JoinQuote(u.positions, m, isLong, size, o.priced.swap.quote, o.at, u'.positions);
    JoinTakes(u.positions, m, isLong, size, o.priced.swap.quote, o.at, u'.positions);
    OpenMarketIff(m, o.priced, isLong, size, m');
    GrowsRatios(m, isLong, size, o.priced, m');
    SameWorth(u'.positions[o.at], price, m', m, o.worth);
    InitialTakes(u'.collateral, u'.positions[o.at], price, m', o.worth);
  }

  lemma JoinQuote(ps: seq<PerpPosition>, m: Market, isLong: bool, size: int, quote: int, at: nat,
                  after: seq<PerpPosition>)
    requires R.Joins(ps, m, isLong, size, quote, at, after)
    ensures R.InI64(quote)
  {
  }

  // ------------------------------------------------------------ closing

  /** Reducing a position realizes the relation's profit. */
  lemma ReduceGives(p: PerpPosition, size: u64, quote: u128, r: Reduction) returns (removed: int)
    requires 0 < size <= Abs(p.base) && AsI128(quote) == quote && Reduce(p, size, quote) == Ok(r)
    ensures R.Reduces(p, size, removed, r.position) && r.realized == R.Profit(p, quote, removed)
  {
    removed := TruncDiv(p.entry * size, Abs(p.base));
    ToZeroIs(removed, p.entry * size, Abs(p.base));
    Bookkeeping.SignedShare(p.entry, size, Abs(p.base));
    hide TruncDiv, R.RoundsToZero;
  }

  lemma ReduceTakes(p: PerpPosition, size: u64, quote: u128, removed: int, p': PerpPosition)
    requires AsI128(quote) == quote <= U128_MAX / BASE_PRECISION && R.Reduces(p, size, removed, p')
    ensures var r := Reduce(p, size, quote);
      r.Ok? && r.value.position == p' && r.value.realized == R.Profit(p, quote, removed)
  {
    ToZeroIs(removed, p.entry * size, Abs(p.base));
    Bookkeeping.SignedShare(p.entry, size, Abs(p.base));
    EntryFits(p.entry, size);
    hide TruncDiv, R.RoundsToZero;
  }

  lemma EntryFits(entry: i64, size: u64)
    requires size <= I64_MAX
    ensures R.InI128(entry * size)
  {
    MulMono(0, Abs(entry), size);
    MulMono(Abs(entry), 0x8000_0000_0000_0000, size);
    assert entry < 0 ==> entry * size == 0 - Abs(entry) * size;
  }

  lemma ShrinkIff(m: Market, wasLong: bool, size: u64, s: SwapResult, fee: i128, m': Market)
    ensures R.Shrinks(m, wasLong, size, s, fee, m') <==>
      var left := RemoveOpenInterest(WithReserves(m, s), wasLong, size);
      left.Ok? && CollectFee(left.value, fee) == Ok(m')
  {
  }

  lemma CloseRecorded(u: User, m: Market, feeBps: u16, at: nat, size: u64, limit: u64)
    requires at < |u.positions| && ExecuteAmmClose(u, m, feeBps, at, size, limit).Ok?
    ensures PriceTrade(m, feeBps, size, limit, u.positions[at].base < 0).Ok?
    ensures R.Records(PriceTrade(m, feeBps, size, limit, u.positions[at].base < 0).value)
    ensures R.InI64(ExecuteAmmClose(u, m, feeBps, at, size, limit).value.realized)
  {
    hide PriceTrade, Reduce, RemoveOpenInterest, CollectFee, CreditClose;
    assert !(u.positions[at].base > 0) == (u.positions[at].base < 0) by { assert u.positions[at].base != 0; }
  }

  lemma CloseGives(u: User, m: Market, feeBps: u16, at: nat, size: u64, limit: u64, f: CloseFill) returns (c: R.Closing)
    requires at < |u.positions| && ExecuteAmmClose(u, m, feeBps, at, size, limit) == Ok(f)
    ensures R.Closes(u, m, feeBps, at, size, limit, f.user, f.market, c)
    ensures f.realized == R.Profit(u.positions[at], c.priced.swap.quote, c.removed)
  {
    hide ExecuteAmmClose, PriceTrade, Reduce, RemoveOpenInterest, CollectFee;
    hide R.Quotes, R.Reduces, R.Shrinks, R.Records;
    var p := u.positions[at];
    var priced, reduction := Bookkeeping.CloseShape(u, m, feeBps, at, size, limit);
    CloseRecorded(u, m, feeBps, at, size, limit);
    QuoteIff(m, feeBps, size, limit, p.base < 0, priced);
    QuoteParts(m, feeBps, size, limit, p.base < 0, priced);
    var removed := ReduceGives(p, size, priced.swap.quote, reduction);
    ShrinkIff(m, p.base > 0, size, priced.swap, priced.fee, f.market);
    c := R.Closing(priced, removed);
  }

  lemma CloseTakes(u: User, m: Market, feeBps: u16, at: nat, size: u64, limit: u64, u': User, m': Market, c: R.Closing)
    requires R.Closes(u, m, feeBps, at, size, limit, u', m', c)
    ensures var r := ExecuteAmmClose(u, m, feeBps, at, size, limit);
      && r.Ok? && r.value.user == u' && r.value.market == m'
      && r.value.realized == R.Profit(u.positions[at], c.priced.swap.quote, c.removed)
  {
    hide PriceTrade, Reduce, RemoveOpenInterest, CollectFee;
    hide R.Quotes, R.Shrinks;
    var p := u.positions[at];
    QuoteIff(m, feeBps, size, limit, p.base < 0, c.priced);
    QuoteParts(m, feeBps, size, limit, p.base < 0, c.priced);
    ReduceTakes(p, size, c.priced.swap.quote, c.removed, u'.positions[at]);
    assert 0 < size <= Abs(p.base);
    hide R.Reduces;
    ShrinkIff(m, p.base > 0, size, c.priced.swap, c.priced.fee, m');
  }
}
