/** What a caller can read off the accounts after an instruction: profits, fills, triggers,
    each from what the caller had before it. */
module Outcomes {
  import opened Numbers
  import opened State
  import opened Curve
  import opened Margin
  import opened Funding
  import opened Controller
  import opened Instructions
  import Bookkeeping
  import opened TradeAgreement
  import opened FundingAgreement
  import R = Relation

  // ------------------------------------------------------------ profit

  /** A share rounded toward zero has the sign of the whole and misses its proportion by less than one. */
  predicate Proportional(share: int, entry: int, size: nat, whole: nat) {
    && Abs(share) * whole <= Abs(entry) * size < (Abs(share) + 1) * whole
    && (entry >= 0 ==> share >= 0) && (entry <= 0 ==> share <= 0)
  }

  lemma ShareProportional(share: int, entry: int, size: nat, whole: nat)
    requires 0 < size <= whole && R.RoundsToZero(share, entry * size, whole)
    ensures Proportional(share, entry, size, whole)
    ensures size == whole ==> share == entry
  {
    ToZeroIs(share, entry * size, whole);
    Bookkeeping.SignedShare(entry, size, whole);
    Bookkeeping.ShareRounds(entry, size, whole);
    hide TruncDiv, R.RoundsToZero;
  }

  /** What the AMM pays for `size` base, or is paid: the move of its quote reserve at the peg. */
  function Proceeds(m: Market, m': Market): int
  {
    (m.amm.quote - m'.amm.quote) * m.amm.peg
  }

  /** The entry that leaves slot `at`, the reserves and the profit, from the inputs. */
  predicate Realizes(u: User, m: Market, at: nat, size: int, u': User, m': Market) {
    && at < |u.positions| == |u'.positions|
    && var p, p' := u.positions[at], u'.positions[at];
    var removed := p.entry - p'.entry;
    && size == Abs(p.base) - Abs(p'.base) > 0 && Proportional(removed, p.entry, size, Abs(p.base))
    && m'.amm.base == (if p.base > 0 then m.amm.base + size else m.amm.base - size) > 0
    && R.RoundsUp(m'.amm.quote, m.amm.base * m.amm.quote, m'.amm.base)
    && R.RoundsToZero(u'.settledPnl - u.settledPnl - removed, Proceeds(m, m'), 1_000_000_000)
  }

  /** A close realizes what the AMM moves plus the share of the cost basis that leaves with it. */
  lemma CloseProfit(u: User, m: Market, feeBps: u16, at: nat, size: u64, limit: u64)
    requires at < |u.positions| && ExecuteAmmClose(u, m, feeBps, at, size, limit).Ok?
    ensures var r := ExecuteAmmClose(u, m, feeBps, at, size, limit).value;
      Realizes(u, m, at, size, r.user, r.market) && r.user.settledPnl == u.settledPnl + r.realized
  {
    var f := ExecuteAmmClose(u, m, feeBps, at, size, limit).value;
    var c := CloseGives(u, m, feeBps, at, size, limit, f);
    ShareProportional(c.removed, u.positions[at].entry, size, Abs(u.positions[at].base));
    ProceedsSign(m, f.market, u.positions[at].base > 0, size, c.priced.swap);
    hide ExecuteAmmClose, Proportional, Proceeds, R.RoundsToZero, R.RoundsUp, R.RoundsDown;
  }

  lemma ProceedsSign(m: Market, m': Market, sells: bool, size: u64, s: SwapResult)
    requires R.Swaps(m.amm, size, !sells, s) && m'.amm.quote == s.newQuote
    ensures R.RoundsToZero(if sells then s.quote else 0 - s.quote, Proceeds(m, m'), 1_000_000_000)
  {
    var moved := if sells then m.amm.quote - s.newQuote else s.newQuote - m.amm.quote;
    assert Proceeds(m, m') == if sells then moved * m.amm.peg else 0 - moved * m.amm.peg;
    hide Proceeds;
  }

  /** What the relation of a liquidation says of the close in it. */
  lemma SeizedParts(u: User, m: Market, insurance: int, maxBase: int, price: int, u': User, m': Market,
                    insurance': int, x: R.Seizure)
    requires R.Liquidates(u, m, insurance, maxBase, price, u', m', insurance', x)
    ensures x.at < |u.positions| == |u'.positions| && R.Held(u.positions, m.index, x.at)
    ensures var p, p' := u.positions[x.at], u'.positions[x.at];
      var size := R.Asked(maxBase, p.base);
      && 0 < size <= Abs(p.base) && size == Abs(p.base) - Abs(p'.base)
      && R.RoundsToZero(x.removed, p.entry * size, Abs(p.base))
      && p'.entry == (if size == Abs(p.base) then 0 else p.entry - x.removed)
      && R.Swaps(m.amm, size, p.base < 0, x.swap) && m'.amm.base == x.swap.newBase && m'.amm.quote == x.swap.newQuote
      && u'.settledPnl == u.settledPnl + R.Profit(p, x.swap.quote, x.removed)
  {
    hide R.Holds, R.Owes, R.Values, R.RoundsToZero, R.Swaps, R.Profit, R.Lesser, R.Positive;
  }

  lemma SeizedRealizes(u: User, m: Market, insurance: int, maxBase: int, price: int, u': User, m': Market,
                       insurance': int, x: R.Seizure)
    requires R.Liquidates(u, m, insurance, maxBase, price, u', m', insurance', x)
    ensures x.at < |u.positions| && Realizes(u, m, x.at, R.Asked(maxBase, u.positions[x.at].base), u', m')
  {
    SeizedParts(u, m, insurance, maxBase, price, u', m', insurance', x);
    hide R.Liquidates, R.Held;
    var p := u.positions[x.at];
    var size: u64 := R.Asked(maxBase, p.base);
    ShareProportional(x.removed, p.entry, size, Abs(p.base));
    ProceedsSign(m, m', p.base > 0, size, x.swap);
    hide Proportional, Proceeds, R.RoundsToZero, R.RoundsUp, R.RoundsDown, R.Asked;
  }

  /** A liquidation realizes the same on what it closes. */
  lemma LiquidationProfit(u: User, m: Market, insurance: u64, maxBase: u64, price: u64)
    requires LiquidatePerp(u, m, insurance, maxBase, price).Ok?
    ensures FindPosition(u.positions, m.index).Some?
    ensures var l, at := LiquidatePerp(u, m, insurance, maxBase, price).value, FindPosition(u.positions, m.index).value;
      Realizes(u, m, at, R.Asked(maxBase, u.positions[at].base), l.user, l.market)
  {
    var l := LiquidatePerp(u, m, insurance, maxBase, price).value;
    var x := LiquidateGives(u, m, insurance, maxBase, price, l);
    SeizedRealizes(u, m, insurance, maxBase, price, l.user, l.market, l.insurance, x);
    HeldIff(u.positions, m.index, x.at);
    assert R.Held(u.positions, m.index, x.at);
    hide LiquidatePerp, FindPosition, R.Liquidates, Realizes, R.Held;
  }
}
