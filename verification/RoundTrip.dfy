/** Opening a position and closing all of it, with no trade in that market in between,
    never pays: what is lost is fees and bounded rounding. */
module RoundTrip {
  import opened Numbers
  import opened Sequences
  import opened State
  import opened Curve
  import opened Controller
  import opened Instructions
  import opened Protocol
  import opened Bookkeeping
  import opened Ledger
  import opened Steps
  import opened Frames

  predicate Flat(u: User, k: u16) { FindPosition(u.positions, k).None? }

  lemma FlatHasNoEntry(u: User, k: u16)
    requires UserOk(u) && Flat(u, k)
    ensures UserEntry(k)(u) == 0
  {
    forall i | 0 <= i < |u.positions|
      ensures EntryIn(k)(u.positions[i]) == 0
    {
      assert SlotOk(u.positions[i]);
    }
    ZeroSum(u.positions, EntryIn(k));
  }

  /** The most quote a round trip of `size` can lose beyond its fees. */
  function WorstLoss(base: nat, peg: nat, dir: Direction, size: nat): nat
    requires base > 0 && size > 0
  {
    if dir == Long then CeilDiv(peg, BASE_PRECISION)
    else CeilDiv(CeilDiv(base + size - 1, base) * peg, BASE_PRECISION)
  }

  /** Floors of two amounts differ by at most the rounded-up difference. */
  lemma FloorGap(x: nat, y: nat, gap: nat, d: nat)
    requires d > 0 && y <= x <= y + gap
    ensures 0 <= x / d - y / d <= CeilDiv(gap, d)
  {
    FloorMono(y, x, d);
    FloorBounds(x, d);
    FloorBounds(y, d);
    CeilBounds(gap, d);
    var c := CeilDiv(gap, d);
    Distribute(y / d, c, d);
    Distribute(y / d + c, 1, d);
    FloorLimit(x / d, y / d + c + 1, d);
  }

  /** What leaves and what comes back over the curve. */
  lemma QuoteRoundTrip(b: nat, q: nat, peg: nat, dir: Direction, size: nat)
    requires b > 0 && size > 0 && (dir == Long ==> size < b)
    ensures var away := if dir == Long then b - size else b + size;
      var q1 := Requote(b, q, away);
      var q2 := Requote(away, q1, b);
      var out := TruncDiv((q1 - q) * peg, BASE_PRECISION);
      var back := TruncDiv((q2 - q1) * peg, BASE_PRECISION);
      && q2 >= q
      && 0 <= out + back <= WorstLoss(b, peg, dir, size)
  {
    var away := if dir == Long then b - size else b + size;
    var q1 := Requote(b, q, away);
    var q2 := Requote(away, q1, b);
    RequoteDirection(b, q, away);
    RequoteDirection(away, q1, b);
    RoundTripReserve(b, q, away);
    SignedQuote(q, q1, peg);
    SignedQuote(q1, q2, peg);
    var steps := CeilDiv(away - 1, b);
    MulMono(0, Abs(q1 - q), peg);
    MulMono(0, Abs(q2 - q1), peg);
    if dir == Long {
      CeilGalois(1, away - 1, b);
      Distribute(q1 - q2, q2 - q, peg);
      MulMono(q2 - q, 1, peg);
      MulMono(0, q2 - q, peg);
      FloorGap((q1 - q) * peg, (q1 - q2) * peg, peg, BASE_PRECISION);
    } else {
      Distribute(q - q1, q2 - q, peg);
      MulMono(q2 - q, steps, peg);
      MulMono(0, q2 - q, peg);
      FloorGap((q2 - q1) * peg, (q - q1) * peg, steps * peg, BASE_PRECISION);
    }
  }

  /** An open trade moves the quote reserve to what the curve asks for. */
  lemma OpenReserve(u: User, m: Market, feeBps: u16, dir: Direction, size: u64, limit: u64, price: u64)
    requires CurveOk(m.amm)
    requires ExecuteAmmOpen(u, m, feeBps, dir, size, limit, price).Ok?
    ensures var r := ExecuteAmmOpen(u, m, feeBps, dir, size, limit, price).value;
      && size > 0
      && r.market.amm.base == (if dir == Long then m.amm.base - size else m.amm.base + size)
      && r.market.amm.base > 0
      && r.market.amm.quote == Requote(m.amm.base, m.amm.quote, r.market.amm.base)
      && r.market.amm.totalFee >= m.amm.totalFee
      && size <= (if dir == Long then r.market.oiLong else r.market.oiShort)
  {
    var priced, added := OpenShape(u, m, feeBps, dir, size, limit, price);
    hide ExecuteAmmOpen, AddToPosition;
    PriceFacts(m, feeBps, size, limit, dir == Long);
    SwapMovesAlongCurve(m.amm.base, m.amm.quote, m.amm.peg, size, if dir == Long then Remove else Add);
    OpenMarketFacts(m, priced, dir == Long, size);
  }

  /** The first open trade of a flat account leaves one position of exactly its size. */
  lemma OpenSlot(u: User, m: Market, feeBps: u16, dir: Direction, size: u64, limit: u64, price: u64)
    requires UserOk(u) && CurveOk(m.amm) && size <= I64_MAX && Flat(u, m.index)
    requires ExecuteAmmOpen(u, m, feeBps, dir, size, limit, price).Ok?
    ensures var r := ExecuteAmmOpen(u, m, feeBps, dir, size, limit, price).value;
      && UserOk(r.user)
      && FindPosition(r.user.positions, m.index).Some?
      && r.user.positions[FindPosition(r.user.positions, m.index).value].base == if dir == Long then size else 0 - size
  {
    hide ExecuteAmmOpen, OpenMarket, AddToPosition, PriceTrade;
    var priced, added := OpenShape(u, m, feeBps, dir, size, limit, price);
    PriceFacts(m, feeBps, size, limit, dir == Long);
    FirstPosition(u.positions, m.index, dir == Long, size, priced.swap.quote, m.amm.cumFundingLong);
  }

  /** Adding to an account flat in the market claims a slot and fills it with the trade. */
  lemma FirstPosition(ps: seq<PerpPosition>, k: u16, isLong: bool, size: u64, quote: u64, cum: i128)
    requires SlotsOk(ps) && FindPosition(ps, k).None? && 0 < size <= I64_MAX && quote <= I64_MAX
    requires AddToPosition(ps, k, isLong, if isLong then size else 0 - size, quote, cum).Ok?
    ensures var qs := AddToPosition(ps, k, isLong, if isLong then size else 0 - size, quote, cum).value.0;
      && SlotsOk(qs) && FindPosition(qs, k).Some?
      && qs[FindPosition(qs, k).value].base == if isLong then size else 0 - size
  {
    var signed: i64 := if isLong then size else 0 - size;
    var at := AddToPositionFacts(ps, k, isLong, signed, quote, cum);
    var (qs, p) := AddToPosition(ps, k, isLong, signed, quote, cum).value;
    hide AddToPosition;
    ReplaceSlot(ps, at, p, 0);
    assert ps[at].base == 0;
    WrittenFound(qs, at, k);
  }

  /** The only open slot of a market is the one a search finds. */
  lemma WrittenFound(ps: seq<PerpPosition>, at: nat, k: u16)
    requires at < |ps| && ps[at].IsOpen() && ps[at].marketIndex == k && SlotsOk(ps)
    ensures FindPosition(ps, k) == Some(at)
  {
    assert FindPosition(ps, k) != None;
  }

  /** A full close empties the market's slot and requotes the curve. */
  lemma CloseReserve(u: User, m: Market, feeBps: u16, at: nat, size: u64, limit: u64)
    requires UserOk(u) && CurveOk(m.amm) && FindPosition(u.positions, m.index) == Some(at)
    requires size == Abs(u.positions[at].base) <= if u.positions[at].base > 0 then m.oiLong else m.oiShort
    requires ExecuteAmmClose(u, m, feeBps, at, size, limit).Ok?
    ensures var r := ExecuteAmmClose(u, m, feeBps, at, size, limit).value;
      && r.market.amm.base == m.amm.base + u.positions[at].base
      && r.market.amm.quote == Requote(m.amm.base, m.amm.quote, r.market.amm.base)
      && r.market.amm.totalFee >= m.amm.totalFee
      && UserOk(r.user) && Flat(r.user, m.index)
  {
    var priced, reduction := CloseShape(u, m, feeBps, at, size, limit);
    FoundIsOnly(u.positions, m.index);
    CloseFacts(u, m, feeBps, at, size, limit);
    var r := ExecuteAmmClose(u, m, feeBps, at, size, limit).value;
    hide ExecuteAmmClose;
    var p := u.positions[at];
    PriceFacts(m, feeBps, size, limit, p.base < 0);
    SwapMovesAlongCurve(m.amm.base, m.amm.quote, m.amm.peg, size, if p.base < 0 then Remove else Add);
    ReduceFacts(p, size, priced.swap.quote);
    RemoveOpenInterestFacts(WithReserves(m, priced.swap), p.base > 0, size);
    assert r.user.positions == u.positions[at := reduction.position];
  }

  /** Reserves that go away by `size` and come all the way back. */
  predicate Closed(a: Amm, a1: Amm, late: Amm, a2: Amm, dir: Direction, size: nat) {
    && a.base > 0 && size > 0 && a1.base > 0
    && a1.base == (if dir == Long then a.base - size else a.base + size)
    && a1.quote == Requote(a.base, a.quote, a1.base)
    && late.base == a1.base && late.quote == a1.quote && late.peg == a.peg
    && a2.base == a.base
    && a2.quote == Requote(late.base, late.quote, a2.base)
  }

  /** Between two flat accounts the profit is exactly what the curve took, both ways. */
  lemma FlatLegs(u: User, m: Market, u1: User, m1: Market, later: Market, u2: User, m2: Market, realized: int,
                 fee1: int, fee2: int, dir: Direction, size: nat)
    requires UserOk(u) && Flat(u, m.index) && later.index == m.index
    requires Leg(u, m, u1, m1, QuoteIn(m.amm, m1.amm), 0, fee1)
    requires Leg(u1, later, u2, m2, QuoteIn(later.amm, m2.amm), realized, fee2)
    requires UserOk(u2) && Flat(u2, m.index) && u2.badDebt == u.badDebt
    requires Closed(m.amm, m1.amm, later.amm, m2.amm, dir, size)
    ensures 0 - WorstLoss(m.amm.base, m.amm.peg, dir, size) <= realized <= 0
    ensures u2.collateral == u.collateral + realized - fee1 - fee2
    ensures m2.amm.base == m.amm.base && m2.amm.quote >= m.amm.quote
  {
    FlatHasNoEntry(u, m.index);
    FlatHasNoEntry(u2, m.index);
    var k := m.index as int;
    assert UserEntry(k)(u1) == UserEntry(k)(u) - QuoteIn(m.amm, m1.amm);
    assert UserEntry(k)(u2) == UserEntry(k)(u1) - QuoteIn(later.amm, m2.amm) - realized;
    hide Leg, UserOk, Flat;
    QuoteRoundTrip(m.amm.base, m.amm.quote, m.amm.peg, dir, size);
  }

  /** Opening flat and closing all of it on the reserves the open left never profits; the
      collateral falls by both fees and a bounded rounding loss, and the base reserve is
      back where it was. */
  lemma OpenThenClose(u: User, m: Market, feeBps: u16, dir: Direction, size: u64, limit: u64, price: u64,
                      later: Market, closeBps: u16, floor: u64)
    requires UserOk(u) && CurveOk(m.amm) && size <= I64_MAX && Flat(u, m.index)
    requires ExecuteAmmOpen(u, m, feeBps, dir, size, limit, price).Ok?
    requires var start := ExecuteAmmOpen(u, m, feeBps, dir, size, limit, price).value;
      && CurveOk(later.amm) && later.index == m.index
      && later.amm.base == start.market.amm.base && later.amm.quote == start.market.amm.quote
      && later.amm.peg == m.amm.peg
      && size <= (if dir == Long then later.oiLong else later.oiShort)
      && FindPosition(start.user.positions, m.index).Some?
      && ExecuteAmmClose(start.user, later, closeBps, FindPosition(start.user.positions, m.index).value, size,
                         floor).Ok?
    ensures size > 0
    ensures var start := ExecuteAmmOpen(u, m, feeBps, dir, size, limit, price).value;
      var closed := ExecuteAmmClose(start.user, later, closeBps, FindPosition(start.user.positions, m.index).value,
                                    size, floor).value;
      var fees := start.market.amm.totalFee - m.amm.totalFee + closed.market.amm.totalFee - later.amm.totalFee;
      && 0 - WorstLoss(m.amm.base, m.amm.peg, dir, size) <= closed.realized <= 0
      && closed.user.collateral == u.collateral + closed.realized - fees && fees >= 0
      && closed.market.amm.base == m.amm.base && closed.market.amm.quote >= m.amm.quote
      && Flat(closed.user, m.index)
  {
    OpenReserve(u, m, feeBps, dir, size, limit, price);
    OpenSlot(u, m, feeBps, dir, size, limit, price);
    OpenFacts(u, m, feeBps, dir, size, limit, price);
    var start := ExecuteAmmOpen(u, m, feeBps, dir, size, limit, price).value;
    hide ExecuteAmmOpen;
    var at := FindPosition(start.user.positions, m.index).value;
    CloseReserve(start.user, later, closeBps, at, size, floor);
    FoundIsOnly(start.user.positions, m.index);
    CloseFacts(start.user, later, closeBps, at, size, floor);
    var closed := ExecuteAmmClose(start.user, later, closeBps, at, size, floor).value;
    assert Closed(m.amm, start.market.amm, later.amm, closed.market.amm, dir, size);
    hide *;
    FlatLegs(u, m, start.user, start.market, later, closed.user, closed.market, closed.realized,
             start.market.amm.totalFee - m.amm.totalFee, closed.market.amm.totalFee - later.amm.totalFee, dir, size);
  }

  // ------------------------------------------------------------ in the world

  /** Nobody touches the account or trades in the market. */
  predicate NoTrade(history: seq<Instruction>, i: nat, k: nat) {
    forall j :: 0 <= j < |history| ==>
      && i !in UsersOf(history[j])
      && (MarketOf(history[j]) == Some(k) ==> history[j].CrankFunding? || history[j].SetParams?)
  }

  lemma {:induction false} NoTradeFrame(w: World, history: seq<Instruction>, i: nat, k: nat)
    requires i < |w.users| && k < |w.markets| && NoTrade(history, i, k)
    ensures var w' := RunFrom(w, history);
      && i < |w'.users| && k < |w'.markets| && w'.users[i] == w.users[i]
      && w'.markets[k].index == w.markets[k].index
      && w'.markets[k].oiLong == w.markets[k].oiLong && w'.markets[k].oiShort == w.markets[k].oiShort
      && w'.markets[k].amm.base == w.markets[k].amm.base && w'.markets[k].amm.quote == w.markets[k].amm.quote
      && w'.markets[k].amm.sqrtK == w.markets[k].amm.sqrtK && w'.markets[k].amm.peg == w.markets[k].amm.peg
      && w'.markets[k].amm.long == w.markets[k].amm.long && w'.markets[k].amm.short == w.markets[k].amm.short
  {
    hide Step;
    if history == [] {
    } else {
      var n := |history| - 1;
      NoTradeFrame(w, history[..n], i, k);
      var w1 := RunFrom(w, history[..n]);
      if Step(w1, history[n]).Ok? {
        UserFrame(w1, history[n], Step(w1, history[n]).value, i);
        MarketFrame(w1, history[n], Step(w1, history[n]).value, k);
        if MarketOf(history[n]) == Some(k) { TermsOnly(w1, history[n], Step(w1, history[n]).value, k); }
      }
    }
  }

  lemma TermsOnly(w: World, ix: Instruction, w': World, k: nat)
    requires Step(w, ix) == Ok(w') && k < |w.markets| && MarketOf(ix) == Some(k) && (ix.CrankFunding? || ix.SetParams?)
    ensures var m, m' := w.markets[k], w'.markets[k];
      && m'.index == m.index && m'.oiLong == m.oiLong && m'.oiShort == m.oiShort
      && m'.amm.base == m.amm.base && m'.amm.quote == m.amm.quote && m'.amm.sqrtK == m.amm.sqrtK
      && m'.amm.peg == m.amm.peg && m'.amm.long == m.amm.long && m'.amm.short == m.amm.short
  {
    if ix.CrankFunding? {
      FundingRateKeeps(w.markets[k], ix.price, ix.now);
      hide UpdateFundingRate;
    }
  }

  /** A round trip of one account through a market nobody else trades in meanwhile: the
      collateral never rises, and falls by more than the fees only by bounded rounding. */
  lemma {:induction false} RoundTripNeverProfits(w: World, i: nat, k: u16, dir: Direction, size: u64, limit: u64,
                                                 price: u64,
                              w1: World, rest: seq<Instruction>, floor: u64, w2: World)
    requires WorldOk(w) && i < |w.users| && k < |w.markets| && size <= I64_MAX && Flat(w.users[i], k)
    requires Step(w, OpenTrade(i, k, dir, size, limit, price)) == Ok(w1)
    requires NoTrade(rest, i, k)
    requires Step(RunFrom(w1, rest), Close(i, k, 0, floor)) == Ok(w2)
    ensures size > 0 && i < |w2.users| && k < |w2.markets|
    ensures var late := RunFrom(w1, rest);
      var fees := w1.markets[k].amm.totalFee - w.markets[k].amm.totalFee
                  + w2.markets[k].amm.totalFee - late.markets[k].amm.totalFee;
      var change := w2.users[i].collateral - w.users[i].collateral;
      && fees >= 0
      && 0 - fees - WorstLoss(w.markets[k].amm.base, w.markets[k].amm.peg, dir, size) <= change <= 0 - fees
      && w2.markets[k].amm.base == w.markets[k].amm.base && w2.markets[k].amm.quote >= w.markets[k].amm.quote
      && Flat(w2.users[i], k)
  {
    var u, m, bps := w.users[i], w.markets[k], w.config.takerFeeBps;
    var late := RunFrom(w1, rest);
    FirstOpen(w, i, k, dir, size, limit, price, w1);
    NoTradeFrame(w1, rest, i, k);
    assert CurveOk(late.markets[k].amm);
    FullClose(late, i, k, floor, w2);
    hide *;
    OpenThenClose(u, m, bps, dir, size, limit, price, late.markets[k], late.config.takerFeeBps, floor);
  }

  lemma FirstOpen(w: World, i: nat, k: u16, dir: Direction, size: u64, limit: u64, price: u64, w1: World)
    requires WorldOk(w) && i < |w.users| && k < |w.markets| && size <= I64_MAX && Flat(w.users[i], k)
    requires Step(w, OpenTrade(i, k, dir, size, limit, price)) == Ok(w1)
    ensures UserOk(w.users[i]) && CurveOk(w.markets[k].amm) && w.markets[k].index == k && size > 0
    ensures var r := ExecuteAmmOpen(w.users[i], w.markets[k], w.config.takerFeeBps, dir, size, limit, price);
      && r.Ok? && w1 == WithTrade(w, i, k, (r.value.user, r.value.market))
      && CurveOk(r.value.market.amm) && r.value.market.index == k && r.value.market.amm.peg == w.markets[k].amm.peg
      && size <= (if dir == Long then r.value.market.oiLong else r.value.market.oiShort)
      && FindPosition(r.value.user.positions, k).Some?
      && Abs(r.value.user.positions[FindPosition(r.value.user.positions, k).value].base) == size
  {
    hide ExecuteAmmOpen;
    var u, m := w.users[i], w.markets[k];
    assert UserOk(u) && MarketOk(m) && m.index == k;
    OpenReserve(u, m, w.config.takerFeeBps, dir, size, limit, price);
    OpenSlot(u, m, w.config.takerFeeBps, dir, size, limit, price);
    OpenFacts(u, m, w.config.takerFeeBps, dir, size, limit, price);
  }

  /** A close request of zero closes everything. */
  lemma FullClose(w: World, i: nat, k: u16, floor: u64, w': World)
    requires i < |w.users| && k < |w.markets| && w.markets[k].index == k
    requires Step(w, Close(i, k, 0, floor)) == Ok(w')
    ensures FindPosition(w.users[i].positions, k).Some?
    ensures var at := FindPosition(w.users[i].positions, k).value;
      var r := ExecuteAmmClose(w.users[i], w.markets[k], w.config.takerFeeBps, at, Abs(w.users[i].positions[at].base),
                               floor);
      r.Ok? && w' == WithTrade(w, i, k, (r.value.user, r.value.market))
  {
    hide ExecuteAmmClose;
  }
}
