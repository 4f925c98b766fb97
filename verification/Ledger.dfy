/** Totals over the whole world, the ledgers kept over a history, and how one trade leg
    moves them. */
module Ledger {
  import opened Numbers
  import opened Sequences
  import opened State
  import opened Funding
  import opened Controller
  import opened Instructions
  import opened Protocol
  import opened Bookkeeping

  // ------------------------------------------------------------ totals

  function FeeOf(): Market -> int { (m: Market) => m.amm.totalFee }

  ghost function TotalLong(w: World, k: int): int { Sum(w.users, UserLong(k)) }
  ghost function TotalShort(w: World, k: int): int { Sum(w.users, UserShort(k)) }
  ghost function EntriesIn(w: World, k: int): int { Sum(w.users, UserEntry(k)) }
  ghost function Entries(w: World): int { Sum(w.users, UserEntries()) }
  ghost function Cash(w: World): int { Sum(w.users, UserCash()) }
  ghost function Fees(w: World): int { Sum(w.markets, FeeOf()) }

  function MarketLong(w: World, k: int): int { if 0 <= k < |w.markets| then w.markets[k].amm.long else 0 }
  function MarketShort(w: World, k: int): int { if 0 <= k < |w.markets| then w.markets[k].amm.short else 0 }

  /** Everything owned: collateral net of debt, cost bases, the insurance fund and fees. */
  ghost function Wealth(w: World): int { Cash(w) + Entries(w) + w.insurance + Fees(w) }

  // ------------------------------------------------------------ invariants

  /** The per-market totals are the sums over the users' positions. */
  ghost predicate TotalsOk(w: World) {
    forall k :: TotalLong(w, k) == MarketLong(w, k) && TotalShort(w, k) == MarketShort(w, k)
  }

  ghost predicate BooksOk(w: World) {
    && (forall i :: 0 <= i < |w.users| ==> UserOk(w.users[i]))
    && (forall k :: 0 <= k < |w.markets| ==> w.markets[k].index == k)
    && TotalsOk(w)
  }

  ghost predicate WorldOk(w: World) {
    && BooksOk(w)
    && (forall k :: 0 <= k < |w.markets| ==> MarketOk(w.markets[k]))
  }

  // ------------------------------------------------------------ ledgers

  /** Quote the AMM of market `k` takes in over a step. */
  function QuoteAt(k: nat): (World, Instruction, World) -> int {
    (w: World, ix: Instruction, w': World) =>
      if k < |w.markets| && k < |w'.markets| then QuoteIn(w.markets[k].amm, w'.markets[k].amm) else 0
  }

  /** Whether a step buys base from the AMM of market `k`. */
  function BuysAt(k: nat): (World, Instruction, World) -> int {
    (w: World, ix: Instruction, w': World) =>
      if k < |w.markets| && k < |w'.markets| && w'.markets[k].amm.base < w.markets[k].amm.base then 1 else 0
  }

  predicate ClosesIn(ix: Instruction) { ix.Close? || ix.Fill? || ix.Trigger? || ix.Liquidate? }

  /** Profit a step realizes in market `k`, as the closing paths book it. */
  function RealizedAt(k: nat): (World, Instruction, World) -> int {
    (w: World, ix: Instruction, w': World) =>
      if ClosesIn(ix) && MarketOf(ix) == Some(k) && ix.user < |w.users| && ix.user < |w'.users|
      then w'.users[ix.user].settledPnl - w.users[ix.user].settledPnl else 0
  }

  /** Quote all AMMs take in over a step. */
  function AmmQuote(): (World, Instruction, World) -> int {
    (w: World, ix: Instruction, w': World) =>
      if MarketOf(ix).Some? then QuoteAt(MarketOf(ix).value)(w, ix, w') else 0
  }

  /** What the position of `u` in `m` owes for funding. */
  function PaymentDue(u: User, m: Market): int {
    match FindPosition(u.positions, m.index)
    case Some(i) =>
      TruncDiv(u.positions[i].base * (m.amm.cumFundingLong - u.positions[i].lastCumFunding), BASE_PRECISION)
    case None => 0
  }

  function FundingPaid(): (World, Instruction, World) -> int {
    (w: World, ix: Instruction, w': World) =>
      if (ix.Settle? || ix.Liquidate?) && ix.user < |w.users| && ix.market < |w.markets|
      then PaymentDue(w.users[ix.user], w.markets[ix.market]) else 0
  }

  function Deposited(): (World, Instruction, World) -> int {
    (w: World, ix: Instruction, w': World) => if ix.Deposit? then ix.amount else 0
  }

  function Withdrawn(): (World, Instruction, World) -> int {
    (w: World, ix: Instruction, w': World) => if ix.Withdraw? then ix.amount else 0
  }

  // ------------------------------------------------------------ one leg moves the totals

  /** The totals of one market number after a leg in market `k`. */
  lemma LegTotalsAt(w: World, i: nat, k: nat, u: User, m: Market, paid: int, realized: int, charge: int, j: int)
    requires i < |w.users| && k < |w.markets| && m.index == k && w.markets[k].index == k
    requires TotalLong(w, j) == MarketLong(w, j) && TotalShort(w, j) == MarketShort(w, j)
    requires Leg(w.users[i], w.markets[k], u, m, paid, realized, charge)
    ensures var w' := WithTrade(w, i, k, (u, m));
      && TotalLong(w', j) == MarketLong(w', j) && TotalShort(w', j) == MarketShort(w', j)
      && EntriesIn(w', j) == EntriesIn(w, j) - (if j == k then paid + realized else 0)
  {
    hide SlotsOk, UserEntries, UserCash;
    var before := w.users[i];
    assert UserLong(j)(u) == UserLong(j)(before) + (if j == k then m.amm.long - w.markets[k].amm.long else 0);
    assert UserShort(j)(u) == UserShort(j)(before) + (if j == k then m.amm.short - w.markets[k].amm.short else 0);
    assert UserEntry(j)(u) == UserEntry(j)(before) - (if j == k then paid + realized else 0);
    hide Leg, UserLong, UserShort, UserEntry;
    SumUpdate(w.users, i, u, UserLong(j));
    SumUpdate(w.users, i, u, UserShort(j));
    SumUpdate(w.users, i, u, UserEntry(j));
  }

  lemma LegTotals(w: World, i: nat, k: nat, u: User, m: Market, paid: int, realized: int, charge: int)
    requires TotalsOk(w) && i < |w.users| && k < |w.markets| && m.index == k && w.markets[k].index == k
    requires Leg(w.users[i], w.markets[k], u, m, paid, realized, charge)
    ensures var w' := WithTrade(w, i, k, (u, m));
      && TotalsOk(w')
      && (forall j :: EntriesIn(w', j) == EntriesIn(w, j) - (if j == k then paid + realized else 0))
      && Entries(w') == Entries(w) - paid - realized
      && Cash(w') == Cash(w) + realized - charge
      && Fees(w') == Fees(w) + m.amm.totalFee - w.markets[k].amm.totalFee
  {
    var w' := WithTrade(w, i, k, (u, m));
    forall j
      ensures TotalLong(w', j) == MarketLong(w', j) && TotalShort(w', j) == MarketShort(w', j)
      ensures EntriesIn(w', j) == EntriesIn(w, j) - (if j == k then paid + realized else 0)
    {
      assert TotalLong(w, j) == MarketLong(w, j) && TotalShort(w, j) == MarketShort(w, j);
      hide *;
      LegTotalsAt(w, i, k, u, m, paid, realized, charge, j);
    }
    hide SlotsOk, TotalLong, TotalShort, EntriesIn, UserLong, UserShort, UserEntry;
    SumUpdate(w.users, i, u, UserEntries());
    SumUpdate(w.users, i, u, UserCash());
    SumUpdate(w.markets, k, m, FeeOf());
  }

  /** No single position exceeds the open interest of its side. */
  lemma PositionWithinOpenInterest(w: World, i: nat, k: nat, at: nat)
    requires TotalsOk(w) && i < |w.users| && k < |w.markets| && at < |w.users[i].positions|
    requires MarketOk(w.markets[k])
    requires w.users[i].positions[at].marketIndex == k
    ensures var p := w.users[i].positions[at];
      Abs(p.base) <= if p.base > 0 then w.markets[k].oiLong else w.markets[k].oiShort
  {
    var ps := w.users[i].positions;
    SumBound(ps, at, LongIn(k));
    NegatedBound(ps, at, ShortIn(k));
    forall j | 0 <= j < |w.users|
      ensures UserLong(k)(w.users[j]) >= 0 && UserShort(k)(w.users[j]) <= 0
    {
      SideSigns(w.users[j].positions, k);
    }
    SumBound(w.users, i, UserLong(k));
    NegatedBound(w.users, i, UserShort(k));
    assert TotalLong(w, k) == MarketLong(w, k) && TotalShort(w, k) == MarketShort(w, k);
  }

  lemma {:induction false} SideSigns(ps: seq<PerpPosition>, k: int)
    ensures Sum(ps, LongIn(k)) >= 0 && Sum(ps, ShortIn(k)) <= 0
  {
    if ps == [] {
    } else {
      SideSigns(ps[..|ps| - 1], k);
    }
  }

  /** Positions that differ at most in when they last settled funding. */
  predicate SameExposure(ps: seq<PerpPosition>, qs: seq<PerpPosition>) {
    && |ps| == |qs|
    && forall at :: 0 <= at < |ps| ==> qs[at] == ps[at].(lastCumFunding := qs[at].lastCumFunding)
  }

  /** A change to one user that moves no exposure moves only its cash. */
  lemma UserTotals(w: World, i: nat, u: User)
    requires BooksOk(w) && i < |w.users| && SameExposure(w.users[i].positions, u.positions)
    ensures var w' := WithUser(w, i, u);
      && TotalsOk(w') && SlotsOk(u.positions)
      && (forall j :: EntriesIn(w', j) == EntriesIn(w, j))
      && Wealth(w') == Wealth(w) + UserCash()(u) - UserCash()(w.users[i])
  {
    var w' := WithUser(w, i, u);
    var ps := w.users[i].positions;
    forall j
      ensures TotalLong(w', j) == MarketLong(w', j) && TotalShort(w', j) == MarketShort(w', j)
      ensures EntriesIn(w', j) == EntriesIn(w, j)
    {
      SumUpdate(w.users, i, u, UserLong(j));
      SumUpdate(w.users, i, u, UserShort(j));
      SumUpdate(w.users, i, u, UserEntry(j));
      SameSum(ps, u.positions, LongIn(j));
      SameSum(ps, u.positions, ShortIn(j));
      SameSum(ps, u.positions, EntryIn(j));
      assert TotalLong(w, j) == MarketLong(w, j) && TotalShort(w, j) == MarketShort(w, j);
    }
    SumUpdate(w.users, i, u, UserEntries());
    SumUpdate(w.users, i, u, UserCash());
    SameSum(ps, u.positions, EntryOf());
  }

  /** A change to one market that moves no position total and no fee. */
  lemma MarketTotals(w: World, k: nat, m: Market)
    requires BooksOk(w) && k < |w.markets|
    requires m.amm.long == w.markets[k].amm.long && m.amm.short == w.markets[k].amm.short
    requires m.amm.totalFee == w.markets[k].amm.totalFee
    ensures var w' := w.(markets := w.markets[k := m]);
      && TotalsOk(w')
      && (forall j :: EntriesIn(w', j) == EntriesIn(w, j))
      && Wealth(w') == Wealth(w)
  {
    var w' := w.(markets := w.markets[k := m]);
    forall j
      ensures TotalLong(w', j) == MarketLong(w', j) && TotalShort(w', j) == MarketShort(w', j)
    {
      assert TotalLong(w, j) == MarketLong(w, j) && TotalShort(w, j) == MarketShort(w, j);
    }
    SumUpdate(w.markets, k, m, FeeOf());
  }

  /** A fresh market has no totals. */
  lemma NewMarketTotals(w: World, m: Market)
    requires BooksOk(w) && m.amm.long == 0 && m.amm.short == 0 && m.amm.totalFee == 0
    ensures var w' := w.(markets := w.markets + [m]);
      && TotalsOk(w')
      && (forall j :: EntriesIn(w', j) == EntriesIn(w, j))
      && Wealth(w') == Wealth(w)
  {
    var w' := w.(markets := w.markets + [m]);
    forall j
      ensures TotalLong(w', j) == MarketLong(w', j) && TotalShort(w', j) == MarketShort(w', j)
    {
      assert TotalLong(w, j) == MarketLong(w, j) && TotalShort(w, j) == MarketShort(w, j);
    }
    SumAppend(w.markets, m, FeeOf());
  }

  /** A fresh account owns nothing. */
  lemma NewUserTotals(w: World)
    requires BooksOk(w)
    ensures var w' := w.(users := w.users + [NewUser()]);
      && TotalsOk(w') && UserOk(NewUser())
      && (forall j :: EntriesIn(w', j) == EntriesIn(w, j))
      && Wealth(w') == Wealth(w)
  {
    var w' := w.(users := w.users + [NewUser()]);
    var ps := NewUser().positions;
    forall j
      ensures TotalLong(w', j) == MarketLong(w', j) && TotalShort(w', j) == MarketShort(w', j)
      ensures EntriesIn(w', j) == EntriesIn(w, j)
    {
      SumAppend(w.users, NewUser(), UserLong(j));
      SumAppend(w.users, NewUser(), UserShort(j));
      SumAppend(w.users, NewUser(), UserEntry(j));
      ZeroSum(ps, LongIn(j));
      ZeroSum(ps, ShortIn(j));
      ZeroSum(ps, EntryIn(j));
      assert TotalLong(w, j) == MarketLong(w, j) && TotalShort(w, j) == MarketShort(w, j);
    }
    SumAppend(w.users, NewUser(), UserEntries());
    SumAppend(w.users, NewUser(), UserCash());
    ZeroSum(ps, EntryOf());
  }
}
