/** What one trade does to one user and one market, in exact amounts.  Everything said
    about whole runs rests on these facts. */
module Bookkeeping {
  import opened Numbers
  import opened Sequences
  import opened State
  import opened Curve
  import opened Margin
  import opened Controller

  // ------------------------------------------------------------ measures

  function LongIn(k: int): PerpPosition -> int {
    (p: PerpPosition) => if p.marketIndex == k then Max(p.base, 0) else 0
  }

  function ShortIn(k: int): PerpPosition -> int {
    (p: PerpPosition) => if p.marketIndex == k then Min(p.base, 0) else 0
  }

  function EntryIn(k: int): PerpPosition -> int {
    (p: PerpPosition) => if p.marketIndex == k then p.entry else 0
  }

  function EntryOf(): PerpPosition -> int {
    (p: PerpPosition) => p.entry
  }

  ghost function UserLong(k: int): User -> int { (u: User) => Sum(u.positions, LongIn(k)) }
  ghost function UserShort(k: int): User -> int { (u: User) => Sum(u.positions, ShortIn(k)) }
  ghost function UserEntry(k: int): User -> int { (u: User) => Sum(u.positions, EntryIn(k)) }
  ghost function UserEntries(): User -> int { (u: User) => Sum(u.positions, EntryOf()) }
  function UserCash(): User -> int { (u: User) => u.collateral - u.badDebt }

  // ------------------------------------------------------------ invariants of accounts

  /** A closed slot is clean; an open one carries a cost basis of the right sign. */
  predicate SlotOk(p: PerpPosition) {
    && p.openOrders == 0
    && (p.base > 0 ==> p.entry <= 0)
    && (p.base < 0 ==> p.entry >= 0)
    && (p.base == 0 ==> p.entry == 0)
  }

  /** At most one open slot a market. */
  ghost predicate SlotsOk(ps: seq<PerpPosition>) {
    && |ps| == MAX_POSITIONS
    && (forall i :: 0 <= i < |ps| ==> SlotOk(ps[i]))
    && (forall i, j :: 0 <= i < j < |ps| && ps[i].IsOpen() && ps[j].IsOpen() ==> ps[i].marketIndex != ps[j].marketIndex)
  }

  ghost predicate UserOk(u: User) {
    && SlotsOk(u.positions)
    && |u.orders| == MAX_ORDERS
    && (forall i :: 0 <= i < |u.orders| ==> u.orders[i].amount <= I64_MAX)
    && (u.bankrupt ==> u.badDebt > 0)
  }

  /** The reserves stay on or above the starting curve and hold exactly the base the
      traders do not. */
  predicate CurveOk(a: Amm) {
    && a.base > 0 && a.quote > 0 && a.sqrtK > 0 && a.peg > 0
    && a.base * a.quote >= a.sqrtK * a.sqrtK
    && a.base + a.long + a.short == a.sqrtK
  }

  predicate MarketOk(m: Market) {
    && CurveOk(m.amm)
    && m.oiLong == m.amm.long
    && m.oiShort + m.amm.short == 0
    && m.amm.cumFundingLong == m.amm.cumFundingShort
    && m.marginInitial > m.marginMaintenance > 0
  }

  // ------------------------------------------------------------ one slot

  /** Only slot `at` may hold an open position of market `k`. */
  predicate OnlySlot(ps: seq<PerpPosition>, at: nat, k: int)
  {
    && at < |ps|
    && (ps[at].marketIndex == k || ps[at].base == 0)
    && forall i :: 0 <= i < |ps| && i != at && ps[i].IsOpen() ==> ps[i].marketIndex != k
  }

  /** Writing a position of market `k` into its slot moves the totals of `k` only. */
  lemma ReplaceSlot(ps: seq<PerpPosition>, at: nat, p: PerpPosition, j: int)
    requires SlotsOk(ps) && OnlySlot(ps, at, p.marketIndex) && SlotOk(p)
    ensures SlotsOk(ps[at := p])
    ensures var hit := if j == p.marketIndex then 1 else 0;
      var after := ps[at := p];
      && Sum(after, LongIn(j)) == Sum(ps, LongIn(j)) + hit * (Max(p.base, 0) - Max(ps[at].base, 0))
      && Sum(after, ShortIn(j)) == Sum(ps, ShortIn(j)) + hit * (Min(p.base, 0) - Min(ps[at].base, 0))
      && Sum(after, EntryIn(j)) == Sum(ps, EntryIn(j)) + hit * (p.entry - ps[at].entry)
      && Sum(after, EntryOf()) == Sum(ps, EntryOf()) + p.entry - ps[at].entry
  {
    SumUpdate(ps, at, p, LongIn(j));
    SumUpdate(ps, at, p, ShortIn(j));
    SumUpdate(ps, at, p, EntryIn(j));
    SumUpdate(ps, at, p, EntryOf());
  }

  /** In a sound account the search for a position finds the only slot of that market. */
  lemma FoundIsOnly(ps: seq<PerpPosition>, k: u16)
    requires SlotsOk(ps) && FindPosition(ps, k).Some?
    ensures OnlySlot(ps, FindPosition(ps, k).value, k)
  {
  }

  /** An open trade writes either the existing position of the market or a clean slot. */
  lemma TargetIsOnly(ps: seq<PerpPosition>, k: u16, isLong: bool, p: PerpPosition)
    requires SlotsOk(ps) && TargetPosition(ps, k, isLong).Ok?
    ensures var (target, at) := TargetPosition(ps, k, isLong).value;
      && OnlySlot(ps, at, k)
      && target[at := p] == ps[at := p]
      && target[at].marketIndex == k
      && target[at].base == ps[at].base && target[at].entry == ps[at].entry && SlotOk(target[at])
      && (target[at].base != 0 ==> target[at] == ps[at] && (ps[at].base > 0) == isLong)
  {
    if FindPosition(ps, k).None? {
      var taken := Position(ps, TakenFor(k));
      if taken.Some? {
        assert TakenFor(k)(ps[taken.value]);
        assert ps[taken.value].IsOpen();
      }
      assert PositionSlot(ps, k).value.reset;
    }
  }

  /** Writing the only slot of a market makes it the one that is found. */
  lemma WrittenSlotFound(ps: seq<PerpPosition>, at: nat, p: PerpPosition, k: u16)
    requires OnlySlot(ps, at, k) && p.marketIndex == k && p.IsOpen()
    ensures FindPosition(ps[at := p], k) == Some(at)
  {
    var qs := ps[at := p];
    var found := FindPosition(qs, k);
    assert OpenIn(k)(qs[at]);
    assert found.Some?;
    assert forall i :: 0 <= i < |qs| && i != at && qs[i].IsOpen() ==> qs[i].marketIndex != k;
  }

  // ------------------------------------------------------------ legs

  /** A trade leg between user `u` and market `m`: `paid` is the quote the position pays
      (negative when it receives), `realized` the profit credited, `charge` what leaves the
      collateral besides. */
  ghost predicate Leg(u: User, m: Market, u': User, m': Market, paid: int, realized: int, charge: int)
  {
    && SlotsOk(u'.positions)
    && (forall j :: UserLong(j)(u') == UserLong(j)(u) + (if j == m.index then m'.amm.long - m.amm.long else 0))
    && (forall j :: UserShort(j)(u') == UserShort(j)(u) + (if j == m.index then m'.amm.short - m.amm.short else 0))
    && (forall j :: UserEntry(j)(u') == UserEntry(j)(u) - (if j == m.index then paid + realized else 0))
    && UserEntries()(u') == UserEntries()(u) - paid - realized
    && UserCash()(u') == UserCash()(u) + realized - charge
    && m'.oiLong - m.oiLong == m'.amm.long - m.amm.long
    && m'.oiShort - m.oiShort == m.amm.short - m'.amm.short
  }

  /** Trades leave everything in a market alone but reserves, totals and fees. */
  predicate OnlyTraded(m: Market, m': Market) {
    m' == m.(oiLong := m'.oiLong, oiShort := m'.oiShort,
             amm := m.amm.(base := m'.amm.base, quote := m'.amm.quote, long := m'.amm.long,
                           short := m'.amm.short, totalFee := m'.amm.totalFee))
  }

  /** The quote that a move of the quote reserve is worth: positive when traders paid it in. */
  function QuoteIn(a: Amm, a': Amm): int {
    TruncDiv((a'.quote - a.quote) * a.peg, BASE_PRECISION)
  }

  lemma SignedQuote(q: int, q': int, peg: nat)
    ensures q' >= q ==> TruncDiv((q' - q) * peg, BASE_PRECISION) == Abs(q' - q) * peg / BASE_PRECISION
    ensures q' <= q ==> TruncDiv((q' - q) * peg, BASE_PRECISION) == -(Abs(q' - q) * peg / BASE_PRECISION)
  {
    if q' <= q {
      var d := (q - q') * peg;
      assert (q' - q) * peg == -d;
      assert d >= 0 by { MulMono(0, q - q', peg); }
      TruncOdd(d, BASE_PRECISION);
    } else {
      MulMono(0, q' - q, peg);
    }
  }

  /** The reserves after a trade that kept the curve. */
  predicate Kept(a: Amm, a': Amm) {
    && a'.base > 0 && a'.quote > 0
    && a'.base * a'.quote >= a.base * a.quote
    && a'.base + a'.long + a'.short == a.base + a.long + a.short
    && CurveMoved(a, a')
  }

  /** The quote reserve moves against the base reserve; the curve's constants never move. */
  predicate CurveMoved(a: Amm, a': Amm) {
    && a'.sqrtK == a.sqrtK && a'.peg == a.peg
    && (a'.base >= a.base ==> a'.quote <= a.quote)
    && (a'.base <= a.base ==> a'.quote >= a.quote)
  }

  /** An AMM trade keeps the curve sound and charges what the reserves moved. */
  lemma SwapKeepsCurve(m: Market, size: u64, dir: SwapDirection)
    requires CurveOk(m.amm)
    requires SwapMarket(m, size, dir).Ok?
    ensures var s := SwapMarket(m, size, dir).value;
      && s.newBase > 0 && s.newQuote > 0
      && s.newBase * s.newQuote >= m.amm.base * m.amm.quote
      && s.newBase == (if dir.Add? then m.amm.base + size else m.amm.base - size)
      && TruncDiv((s.newQuote - m.amm.quote) * m.amm.peg, BASE_PRECISION)
        == (if dir.Remove? then s.quote else 0 - s.quote)
      && AsI128(s.quote) == s.quote
      && (if dir.Remove? then s.newQuote >= m.amm.quote else s.newQuote <= m.amm.quote)
  {
    var a := m.amm;
    SwapMovesAlongCurve(a.base, a.quote, a.peg, size, dir);
    var s := SwapMarket(m, size, dir).value;
    assert U128_MAX / BASE_PRECISION <= I128_MAX;
    SignedQuote(a.quote, s.newQuote, a.peg);
  }

  /** From a slot written by a trade to the totals of the user. */
  lemma SlotLeg(u: User, m: Market, u': User, m': Market, at: nat, p: PerpPosition, paid: int, realized: int,
                charge: int)
    requires SlotsOk(u.positions) && OnlySlot(u.positions, at, m.index) && SlotOk(p) && p.marketIndex == m.index
    requires u'.positions == u.positions[at := p]
    requires p.entry == u.positions[at].entry - paid - realized
    requires Max(p.base, 0) - Max(u.positions[at].base, 0) == m'.amm.long - m.amm.long
    requires Min(p.base, 0) - Min(u.positions[at].base, 0) == m'.amm.short - m.amm.short
    requires UserCash()(u') == UserCash()(u) + realized - charge
    requires m'.oiLong - m.oiLong == m'.amm.long - m.amm.long
    requires m'.oiShort - m.oiShort == m.amm.short - m'.amm.short
    ensures Leg(u, m, u', m', paid, realized, charge)
  {
    forall j
      ensures UserLong(j)(u') == UserLong(j)(u) + (if j == m.index then m'.amm.long - m.amm.long else 0)
      ensures UserShort(j)(u') == UserShort(j)(u) + (if j == m.index then m'.amm.short - m.amm.short else 0)
      ensures UserEntry(j)(u') == UserEntry(j)(u) - (if j == m.index then paid + realized else 0)
    {
      ReplaceSlot(u.positions, at, p, j);
    }
    ReplaceSlot(u.positions, at, p, 0);
  }

  /** A priced trade is a swap on the curve with an exact fee. */
  lemma PriceFacts(m: Market, feeBps: u16, size: u64, limit: u64, isBuy: bool)
    requires CurveOk(m.amm) && PriceTrade(m, feeBps, size, limit, isBuy).Ok?
    ensures var priced := PriceTrade(m, feeBps, size, limit, isBuy).value;
      && size > 0
      && priced.swap.newBase > 0 && priced.swap.newQuote > 0
      && priced.swap.newBase * priced.swap.newQuote >= m.amm.base * m.amm.quote
      && priced.swap.newBase == (if isBuy then m.amm.base - size else m.amm.base + size)
      && TruncDiv((priced.swap.newQuote - m.amm.quote) * m.amm.peg, BASE_PRECISION)
         == (if isBuy then priced.swap.quote else 0 - priced.swap.quote)
      && AsI128(priced.swap.quote) == priced.swap.quote
      && (if isBuy then priced.swap.newQuote >= m.amm.quote else priced.swap.newQuote <= m.amm.quote)
      && AsI128(priced.fee) == priced.fee
  {
    var dir := if isBuy then Remove else Add;
    SwapKeepsCurve(m, size, dir);
    FeeExact(SwapMarket(m, size, dir).value.quote, feeBps);
  }

  /** Adding to a position writes one slot, on the side of the trade. */
  lemma AddToPositionFacts(ps: seq<PerpPosition>, k: u16, isLong: bool, signed: i64, quote: i64, cum: i128)
    returns (at: nat)
    requires SlotsOk(ps) && AddToPosition(ps, k, isLong, signed, quote, cum).Ok?
    requires quote >= 0 && signed != 0 && (signed > 0) == isLong
    ensures at < |ps| && OnlySlot(ps, at, k)
    ensures var (after, p) := AddToPosition(ps, k, isLong, signed, quote, cum).value;
      && after == ps[at := p]
      && p.marketIndex == k && SlotOk(p)
      && p.base == ps[at].base + signed
      && p.entry == ps[at].entry - (if isLong then quote else 0 - quote)
      && (ps[at].base != 0 ==> (ps[at].base > 0) == isLong)
      && p.lastCumFunding == (if ps[at].base == 0 then cum else ps[at].lastCumFunding)
  {
    at := TargetPosition(ps, k, isLong).value.1;
    TargetIsOnly(ps, k, isLong, AddToPosition(ps, k, isLong, signed, quote, cum).value.1);
  }

  lemma OpenMarketFacts(m: Market, priced: Priced, isLong: bool, size: u64)
    requires OpenMarket(m, priced, isLong, size).Ok? && AsI128(priced.fee) == priced.fee
    ensures OpenMarket(m, priced, isLong, size).value ==
      if isLong then m.(oiLong := m.oiLong + size,
                        amm := m.amm.(base := priced.swap.newBase, quote := priced.swap.newQuote,
                                      long := m.amm.long + size,
                                      totalFee := m.amm.totalFee + priced.fee))
      else m.(oiShort := m.oiShort + size,
              amm := m.amm.(base := priced.swap.newBase, quote := priced.swap.newQuote, short := m.amm.short - size,
                            totalFee := m.amm.totalFee + priced.fee))
  {
  }

  /** The accounts an open trade leaves, stage by stage. */
  lemma OpenShape(u: User, m: Market, feeBps: u16, dir: Direction, size: u64, limit: u64, price: u64)
    returns (priced: Priced, added: (seq<PerpPosition>, PerpPosition))
    requires ExecuteAmmOpen(u, m, feeBps, dir, size, limit, price).Ok?
    ensures size > 0
    ensures PriceTrade(m, feeBps, size, limit, dir == Long) == Ok(priced)
    ensures I64_MIN <= AsI128(priced.swap.quote) <= I64_MAX && SignedBase(size, dir == Long).Ok?
    ensures AddToPosition(u.positions, m.index, dir == Long, SignedBase(size, dir == Long).value,
                          AsI128(priced.swap.quote), m.amm.cumFundingLong) == Ok(added)
    ensures OpenMarket(m, priced, dir == Long, size).Ok?
    ensures var r := ExecuteAmmOpen(u, m, feeBps, dir, size, limit, price).value;
      && r.market == OpenMarket(m, priced, dir == Long, size).value && r.quote == priced.swap.quote
      && priced.fee <= u.collateral
      && r.user == u.(collateral := u.collateral - priced.fee, positions := added.0)
      && RequireInitial(r.user.collateral, added.1, price, r.market).Ok?
  {
    priced := PriceTrade(m, feeBps, size, limit, dir == Long).value;
    added := AddToPosition(u.positions, m.index, dir == Long, SignedBase(size, dir == Long).value,
                           AsI128(priced.swap.quote), m.amm.cumFundingLong).value;
  }

  /** Opening against the AMM. */
  lemma OpenFacts(u: User, m: Market, feeBps: u16, dir: Direction, size: u64, limit: u64, price: u64)
    requires SlotsOk(u.positions) && CurveOk(m.amm) && size <= I64_MAX
    requires ExecuteAmmOpen(u, m, feeBps, dir, size, limit, price).Ok?
    ensures var r := ExecuteAmmOpen(u, m, feeBps, dir, size, limit, price).value;
      && Leg(u, m, r.user, r.market, QuoteIn(m.amm, r.market.amm), 0, r.market.amm.totalFee - m.amm.totalFee)
      && OnlyTraded(m, r.market)
      && Kept(m.amm, r.market.amm)
      && r.user == u.(collateral := r.user.collateral, positions := r.user.positions)
      && (r.market.amm.base < m.amm.base <==> dir == Long)
  {
    hide Leg, ExecuteAmmOpen, PriceTrade, AddToPosition, OpenMarket, RequireInitial, SlotsOk, AsI128;
    var priced, added := OpenShape(u, m, feeBps, dir, size, limit, price);
    var r := ExecuteAmmOpen(u, m, feeBps, dir, size, limit, price).value;
    PriceFacts(m, feeBps, size, limit, dir == Long);
    OpenMarketFacts(m, priced, dir == Long, size);
    OpenLeg(u, m, r.user, r.market, priced, dir == Long, size);
  }

  lemma OpenLeg(u: User, m: Market, u': User, m': Market, priced: Priced, isLong: bool, size: u64)
    requires SlotsOk(u.positions) && CurveOk(m.amm) && 0 < size <= I64_MAX && priced.swap.quote <= I64_MAX
    requires TruncDiv((priced.swap.newQuote - m.amm.quote) * m.amm.peg, BASE_PRECISION)
      == (if isLong then priced.swap.quote else 0 - priced.swap.quote)
    requires var signed := if isLong then size else 0 - size;
      var added := AddToPosition(u.positions, m.index, isLong, signed, priced.swap.quote, m.amm.cumFundingLong);
      added.Ok? && u' == u.(collateral := u'.collateral, positions := added.value.0)
    requires u'.collateral == u.collateral - priced.fee
    requires OnlyTraded(m, m') && m'.amm.quote == priced.swap.newQuote && m'.amm.totalFee == m.amm.totalFee + priced.fee
    requires m'.oiLong == m.oiLong + (if isLong then size else 0)
    requires m'.amm.long == m.amm.long + (if isLong then size else 0)
    requires m'.oiShort == m.oiShort + (if isLong then 0 else size)
    requires m'.amm.short == m.amm.short - (if isLong then 0 else size)
    ensures Leg(u, m, u', m', QuoteIn(m.amm, m'.amm), 0, m'.amm.totalFee - m.amm.totalFee)
  {
    var signed := if isLong then size else 0 - size;
    var at := AddToPositionFacts(u.positions, m.index, isLong, signed, priced.swap.quote, m.amm.cumFundingLong);
    SlotLeg(u, m, u', m', at, u'.positions[at], QuoteIn(m.amm, m'.amm), 0, m'.amm.totalFee - m.amm.totalFee);
  }

  /** A share of the cost basis has its sign, is proportional to the size up to less than one
      unit, and never exceeds it; the whole share is all. */
  lemma CostBasisShare(entry: i64, size: u64, whole: u64)
    requires 0 < size <= whole && CostBasisClosed(entry, size, whole).Ok?
    ensures var c := CostBasisClosed(entry, size, whole).value;
      && Abs(c) * whole <= Abs(entry) * size < (Abs(c) + 1) * whole
      && (entry <= 0 ==> entry <= c <= 0)
      && (entry >= 0 ==> 0 <= c <= entry)
      && (size == whole ==> c == entry)
  {
    SignedShare(entry, size, whole);
    ShareRounds(entry, size, whole);
    hide TruncDiv;
  }

  lemma ShareRounds(e: int, size: nat, whole: nat)
    requires 0 < whole
    ensures var c := TruncDiv(e * size, whole);
      Abs(c) * whole <= Abs(e) * size < (Abs(c) + 1) * whole
  {
    var x := Abs(e) * size;
    MulMono(0, Abs(e), size);
    assert e * size == if e < 0 then 0 - x else x by { assert e < 0 ==> e * size == 0 - x; }
    TruncAbs(e * size, whole);
    hide TruncDiv;
    QuotientRounds(x, whole);
  }

  lemma QuotientRounds(x: nat, d: nat)
    requires d > 0
    ensures x / d * d <= x < (x / d + 1) * d
  {
    FloorBounds(x, d);
    var f := x / d;
    assert (f + 1) * d == f * d + d;
  }

  lemma SignedShare(e: int, size: nat, whole: nat)
    requires 0 < size <= whole
    ensures var c := TruncDiv(e * size, whole);
      && (e <= 0 ==> e <= c <= 0)
      && (e >= 0 ==> 0 <= c <= e)
      && (size == whole ==> c == e)
  {
    ShareBounds(Abs(e), size, whole);
    TruncOdd(Abs(e) * size, whole);
    assert e < 0 ==> e * size == 0 - Abs(e) * size;
  }

  lemma ShareBounds(e: nat, size: nat, whole: nat)
    requires 0 < size <= whole
    ensures 0 <= e * size / whole <= e
    ensures size == whole ==> e * size / whole == e
  {
    MulMono(size, whole, e);
    assert e * size <= e * whole by { assert e * size == size * e; assert e * whole == whole * e; }
    FloorGalois(0, e * size, whole);
    FloorGalois(e, e * size, whole);
    FloorGalois(e + 1, e * size, whole);
    assert (e + 1) * whole == e * whole + whole;
  }

  /** A reduced position keeps its market, its side and the sign of its cost basis. */
  lemma DecreaseFacts(p: PerpPosition, size: u64, closed: i128)
    requires SlotOk(p) && p.base != 0 && 0 < size <= Abs(p.base)
    requires CostBasisClosed(p.entry, size, Abs(p.base)).Ok?
    requires closed == CostBasisClosed(p.entry, size, Abs(p.base)).value
    requires Decrease(p, p.base > 0, size, closed).Ok?
    ensures var p' := Decrease(p, p.base > 0, size, closed).value;
      && p' == p.(base := p'.base, entry := p'.entry)
      && p'.base == (if p.base > 0 then p.base - size else p.base + size)
      && p'.entry == p.entry - closed
      && Abs(p'.entry) <= Abs(p.entry)
      && SlotOk(p')
  {
    CostBasisShare(p.entry, size, Abs(p.base));
  }

  /** A reduction pays out what the swap moved plus the cost basis it removes. */
  lemma ReduceFacts(p: PerpPosition, size: u64, quote: u128)
    requires SlotOk(p) && p.base != 0 && 0 < size <= Abs(p.base)
    requires AsI128(quote) == quote && Reduce(p, size, quote).Ok?
    ensures var r := Reduce(p, size, quote).value;
      && r.position == p.(base := r.position.base, entry := r.position.entry)
      && r.position.base == (if p.base > 0 then p.base - size else p.base + size)
      && r.realized == (if p.base > 0 then quote else 0 - quote) + p.entry - r.position.entry
      && Abs(r.position.entry) <= Abs(p.entry)
      && SlotOk(r.position)
  {
    DecreaseFacts(p, size, CostBasisClosed(p.entry, size, Abs(p.base)).value);
  }

  /** Removing open interest never saturates while the position is part of it. */
  lemma RemoveOpenInterestFacts(m: Market, isLong: bool, size: u64)
    requires RemoveOpenInterest(m, isLong, size).Ok?
    requires size <= if isLong then m.oiLong else m.oiShort
    ensures RemoveOpenInterest(m, isLong, size).value ==
      if isLong then m.(oiLong := m.oiLong - size, amm := m.amm.(long := m.amm.long - size))
      else m.(oiShort := m.oiShort - size, amm := m.amm.(short := m.amm.short + size))
  {
  }

  /** The accounts a close leaves, stage by stage. */
  lemma CloseShape(u: User, m: Market, feeBps: u16, at: nat, size: u64, limit: u64)
    returns (priced: Priced, reduction: Reduction)
    requires at < |u.positions| && ExecuteAmmClose(u, m, feeBps, at, size, limit).Ok?
    ensures var p := u.positions[at];
      && p.base != 0 && 0 < size <= Abs(p.base)
      && PriceTrade(m, feeBps, size, limit, p.base < 0) == Ok(priced)
      && Reduce(p, size, priced.swap.quote) == Ok(reduction)
      && RemoveOpenInterest(WithReserves(m, priced.swap), p.base > 0, size).Ok?
    ensures var r := ExecuteAmmClose(u, m, feeBps, at, size, limit).value;
      && var collateral := u.collateral + reduction.realized - AsI128(priced.fee);
      && 0 <= collateral <= U64_MAX
      && I64_MIN <= u.settledPnl + reduction.realized <= I64_MAX
      && r.realized == reduction.realized
      && r.user == u.(collateral := collateral, settledPnl := u.settledPnl + reduction.realized,
                      positions := u.positions[at := reduction.position])
      && CollectFee(RemoveOpenInterest(WithReserves(m, priced.swap), u.positions[at].base > 0, size).value,
                    AsI128(priced.fee)) == Ok(r.market)
  {
    var p := u.positions[at];
    priced := PriceTrade(m, feeBps, size, limit, !(p.base > 0)).value;
    reduction := Reduce(p, size, priced.swap.quote).value;
  }

  /** Closing against the AMM. */
  lemma CloseFacts(u: User, m: Market, feeBps: u16, at: nat, size: u64, limit: u64)
    requires SlotsOk(u.positions) && CurveOk(m.amm) && OnlySlot(u.positions, at, m.index)
    requires u.positions[at].marketIndex == m.index
    requires Abs(u.positions[at].base) <= if u.positions[at].base > 0 then m.oiLong else m.oiShort
    requires ExecuteAmmClose(u, m, feeBps, at, size, limit).Ok?
    ensures var r := ExecuteAmmClose(u, m, feeBps, at, size, limit).value;
      && Leg(u, m, r.user, r.market, QuoteIn(m.amm, r.market.amm), r.realized, r.market.amm.totalFee - m.amm.totalFee)
      && OnlyTraded(m, r.market)
      && Kept(m.amm, r.market.amm)
      && r.user == u.(collateral := r.user.collateral, positions := r.user.positions,
                      settledPnl := u.settledPnl + r.realized)
      && (r.market.amm.base < m.amm.base <==> u.positions[at].base < 0)
  {
    var priced, reduction := CloseShape(u, m, feeBps, at, size, limit);
    var r := ExecuteAmmClose(u, m, feeBps, at, size, limit).value;
    var p := u.positions[at];
    PriceFacts(m, feeBps, size, limit, p.base < 0);
    ReduceFacts(p, size, priced.swap.quote);
    RemoveOpenInterestFacts(WithReserves(m, priced.swap), p.base > 0, size);
    CloseLeg(u, m, r.user, r.market, at, r.realized, r.market.amm.totalFee - m.amm.totalFee);
  }

  lemma CloseLeg(u: User, m: Market, u': User, m': Market, at: nat, realized: int, charge: int)
    requires SlotsOk(u.positions) && OnlySlot(u.positions, at, m.index) && u.positions[at].marketIndex == m.index
    requires u.positions[at].base != 0 && |u'.positions| == |u.positions|
    requires var p := u.positions[at]; var p' := u'.positions[at];
      && u'.positions == u.positions[at := p'] && SlotOk(p') && p'.marketIndex == m.index
      && (if p.base > 0 then p'.base >= 0 else p'.base <= 0)
      && m'.amm.long - m.amm.long == (if p.base > 0 then p'.base - p.base else 0)
      && m'.amm.short - m.amm.short == (if p.base > 0 then 0 else p'.base - p.base)
      && realized == p.entry - p'.entry - QuoteIn(m.amm, m'.amm)
    requires UserCash()(u') == UserCash()(u) + realized - charge
    requires m'.oiLong - m.oiLong == m'.amm.long - m.amm.long
    requires m'.oiShort - m.oiShort == m.amm.short - m'.amm.short
    ensures Leg(u, m, u', m', QuoteIn(m.amm, m'.amm), realized, charge)
  {
    SlotLeg(u, m, u', m', at, u'.positions[at], QuoteIn(m.amm, m'.amm), realized, charge);
  }

  /** The accounts a match leg leaves, stage by stage. */
  lemma MatchLegShape(u: User, m: Market, dir: Direction, size: u64, quote: u128, delta: i64, price: u64)
    returns (added: (seq<PerpPosition>, PerpPosition))
    requires quote <= I128_MAX
    requires ApplyMatchLeg(u, m, dir, size, quote, delta, price).Ok?
    ensures SignedBase(size, dir == Long).Ok? && quote <= I64_MAX && 0 <= u.collateral + delta <= U64_MAX
    ensures AddToPosition(u.positions, m.index, dir == Long, SignedBase(size, dir == Long).value, quote,
                          m.amm.cumFundingLong) == Ok(added)
    ensures var (u', m') := ApplyMatchLeg(u, m, dir, size, quote, delta, price).value;
      && AddOpenInterest(m, dir == Long, size) == Ok(m')
      && u' == u.(collateral := u.collateral + delta, positions := added.0)
      && RequireInitial(u'.collateral, added.1, price, m').Ok?
  {
    added := AddToPosition(u.positions, m.index, dir == Long, SignedBase(size, dir == Long).value, quote,
                           m.amm.cumFundingLong).value;
  }

  /** One leg of a peer match: the quote changes hands outside the AMM. */
  lemma MatchLegFacts(u: User, m: Market, dir: Direction, size: u64, quote: u128, delta: i64, price: u64)
    requires SlotsOk(u.positions) && 0 < size <= I64_MAX && quote <= I128_MAX
    requires ApplyMatchLeg(u, m, dir, size, quote, delta, price).Ok?
    ensures var (u', m') := ApplyMatchLeg(u, m, dir, size, quote, delta, price).value;
      && Leg(u, m, u', m', if dir == Long then quote else 0 - quote, 0, 0 - delta)
      && OnlyTraded(m, m')
      && m'.amm == m.amm.(long := m'.amm.long, short := m'.amm.short)
      && m'.amm.long == m.amm.long + (if dir == Long then size else 0)
      && m'.amm.short == m.amm.short - (if dir == Long then 0 else size)
      && u' == u.(collateral := u'.collateral, positions := u'.positions)
  {
    var _ := MatchLegShape(u, m, dir, size, quote, delta, price);
    var (u', m') := ApplyMatchLeg(u, m, dir, size, quote, delta, price).value;
    MatchLeg(u, m, u', m', dir == Long, size, quote, delta);
  }

  lemma MatchLeg(u: User, m: Market, u': User, m': Market, isLong: bool, size: u64, quote: i64, delta: i64)
    requires SlotsOk(u.positions) && 0 < size <= I64_MAX && quote >= 0
    requires var signed := if isLong then size else 0 - size;
      var added := AddToPosition(u.positions, m.index, isLong, signed, quote, m.amm.cumFundingLong);
      added.Ok? && u' == u.(collateral := u'.collateral, positions := added.value.0)
    requires u'.collateral == u.collateral + delta
    requires m'.oiLong == m.oiLong + (if isLong then size else 0)
    requires m'.amm.long == m.amm.long + (if isLong then size else 0)
    requires m'.oiShort == m.oiShort + (if isLong then 0 else size)
    requires m'.amm.short == m.amm.short - (if isLong then 0 else size)
    ensures Leg(u, m, u', m', if isLong then quote else 0 - quote, 0, 0 - delta)
  {
    var signed := if isLong then size else 0 - size;
    var at := AddToPositionFacts(u.positions, m.index, isLong, signed, quote, m.amm.cumFundingLong);
    SlotLeg(u, m, u', m', at, u'.positions[at], if isLong then quote else 0 - quote, 0, 0 - delta);
  }
}
