/** Safety over whole histories: sound books, conserved quote, a solvent curve. */
module Runs {
  import opened Numbers
  import opened Sequences
  import opened State
  import opened Curve
  import opened Instructions
  import opened Protocol
  import opened Bookkeeping
  import opened Ledger
  import opened Steps

  ghost predicate AllWellSized(history: seq<Instruction>) {
    forall i :: 0 <= i < |history| ==> WellSized(history[i])
  }

  /** Soundness is kept by every history, from any sound world. */
  lemma {:induction false} SoundFrom(w: World, history: seq<Instruction>)
    requires WorldOk(w) && AllWellSized(history)
    ensures WorldOk(RunFrom(w, history))
  {
    if history == [] {
    } else {
      var n := |history| - 1;
      SoundFrom(w, history[..n]);
      var before := RunFrom(w, history[..n]);
      if Step(before, history[n]).Ok? {
        StepAccounted(before, history[n], Step(before, history[n]).value);
      }
    }
  }

  /** In every reachable state each user has at most one clean slot a market, every total
      of a market is the sum over its positions, and base is neither made nor lost. */
  lemma RunSound(cfg: Config, history: seq<Instruction>)
    requires AllWellSized(history)
    ensures WorldOk(Run(cfg, history))
  {
    SoundFrom(Genesis(cfg), history);
  }

  /** The invariants, unfolded: aggregates agree with positions. */
  lemma AggregatesAgree(cfg: Config, history: seq<Instruction>, k: nat)
    requires AllWellSized(history) && k < |Run(cfg, history).markets|
    ensures var w := Run(cfg, history);
      var m := w.markets[k];
      && m.amm.base + m.amm.long + m.amm.short == m.amm.sqrtK
      && m.oiLong == m.amm.long == Sum(w.users, UserLong(k))
      && m.oiShort == 0 - m.amm.short == 0 - Sum(w.users, UserShort(k))
      && m.amm.base * m.amm.quote >= m.amm.sqrtK * m.amm.sqrtK
  {
    RunSound(cfg, history);
    var w := Run(cfg, history);
    assert TotalLong(w, k) == MarketLong(w, k) && TotalShort(w, k) == MarketShort(w, k);
  }

  /** Each user has at most one open position in a market, and closed slots are clean. */
  lemma OneSlotPerMarket(cfg: Config, history: seq<Instruction>, i: nat, a: nat, b: nat)
    requires AllWellSized(history) && i < |Run(cfg, history).users|
    requires a < MAX_POSITIONS && b < MAX_POSITIONS
    ensures var ps := Run(cfg, history).users[i].positions;
      && |ps| == MAX_POSITIONS
      && (ps[a].IsOpen() && ps[b].IsOpen() && ps[a].marketIndex == ps[b].marketIndex ==> a == b)
      && (!ps[a].IsOpen() ==> ps[a].entry == 0)
      && (ps[a].base > 0 ==> ps[a].entry <= 0) && (ps[a].base < 0 ==> ps[a].entry >= 0)
  {
    RunSound(cfg, history);
    var ps := Run(cfg, history).users[i].positions;
    assert SlotOk(ps[a]);
  }

  // ------------------------------------------------------------ conservation

  /** Quote is conserved exactly: what users, positions, the insurance fund and the markets
      own, plus what the AMMs took in and funding moved out, is deposits less withdrawals. */
  lemma {:induction false} QuoteConserved(cfg: Config, history: seq<Instruction>)
    requires AllWellSized(history)
    ensures Wealth(Run(cfg, history)) + Accumulated(cfg, history, AmmQuote()) + Accumulated(cfg, history, FundingPaid())
      == Accumulated(cfg, history, Deposited()) - Accumulated(cfg, history, Withdrawn())
  {
    if history == [] {
    } else {
      var n := |history| - 1;
      QuoteConserved(cfg, history[..n]);
      RunSound(cfg, history[..n]);
      var w := Run(cfg, history[..n]);
      if Step(w, history[n]).Ok? {
        StepAccounted(w, history[n], Step(w, history[n]).value);
      }
    }
  }

  /** Per market: cost bases, realized profit and the AMM's intake always cancel. */
  lemma {:induction false} MarketBalanced(cfg: Config, history: seq<Instruction>, k: nat)
    requires AllWellSized(history)
    ensures EntriesIn(Run(cfg, history), k) + Accumulated(cfg, history, RealizedAt(k))
            + Accumulated(cfg, history, QuoteAt(k)) == 0
  {
    if history == [] {
    } else {
      var n := |history| - 1;
      MarketBalanced(cfg, history[..n], k);
      RunSound(cfg, history[..n]);
      var w := Run(cfg, history[..n]);
      if Step(w, history[n]).Ok? {
        StepAccounted(w, history[n], Step(w, history[n]).value);
      }
    }
  }

  // ------------------------------------------------------------ solvency of the curve

  /** The potential of a market: how far its quote reserve stands above the start. */
  function Potential(w: World, k: nat): int {
    if k < |w.markets| then (w.markets[k].amm.quote - w.markets[k].amm.sqrtK) * w.markets[k].amm.peg else 0
  }

  /** One move of the reserves pays in at least the potential it adds, up to one rounding
      unit for a buy. */
  lemma MovePaysPotential(a: Amm, a': Amm)
    requires CurveMoved(a, a')
    ensures BASE_PRECISION * QuoteIn(a, a') + (if a'.base < a.base then BASE_PRECISION - 1 else 0)
      >= (a'.quote - a.sqrtK) * a.peg - (a.quote - a.sqrtK) * a.peg
  {
    var moved := (a'.quote - a.quote) * a.peg;
    TruncBounds(moved, BASE_PRECISION);
    assert (a'.quote - a.sqrtK) * a.peg - (a.quote - a.sqrtK) * a.peg == moved;
    if a'.base >= a.base { MulMono(a'.quote - a.quote, 0, a.peg); }
  }

  /** The potential a step adds is paid for. */
  lemma StepPaysPotential(w: World, ix: Instruction, w': World, k: nat)
    requires WorldOk(w) && Accounted(w, ix, w')
    requires k >= |w.markets| && k < |w'.markets| ==> w'.markets[k].amm.quote == w'.markets[k].amm.sqrtK
    ensures BASE_PRECISION * QuoteAt(k)(w, ix, w') + (BASE_PRECISION - 1) * BuysAt(k)(w, ix, w')
      >= Potential(w', k) - Potential(w, k)
  {
    if k < |w.markets| {
      assert CurveMoved(w.markets[k].amm, w'.markets[k].amm);
      MovePaysPotential(w.markets[k].amm, w'.markets[k].amm);
    } else if k < |w'.markets| {
      assert Potential(w', k) == 0;
    }
  }

  /** A market is created balanced. */
  lemma NewMarketBalanced(w: World, ix: Instruction, w': World, k: nat)
    requires Step(w, ix) == Ok(w') && |w.markets| <= k < |w'.markets|
    ensures w'.markets[k].amm.quote == w'.markets[k].amm.sqrtK
  {
  }

  lemma {:induction false} PotentialPaid(cfg: Config, history: seq<Instruction>, k: nat)
    requires AllWellSized(history)
    ensures BASE_PRECISION * Accumulated(cfg, history, QuoteAt(k))
            + (BASE_PRECISION - 1) * Accumulated(cfg, history, BuysAt(k))
      >= Potential(Run(cfg, history), k)
  {
    if history == [] {
    } else {
      var n := |history| - 1;
      PotentialPaid(cfg, history[..n], k);
      RunSound(cfg, history[..n]);
      var w := Run(cfg, history[..n]);
      if Step(w, history[n]).Ok? {
        var w' := Step(w, history[n]).value;
        StepAccounted(w, history[n], w');
        if |w.markets| <= k < |w'.markets| { NewMarketBalanced(w, history[n], w', k); }
        StepPaysPotential(w, history[n], w', k);
      }
    }
  }

  ghost predicate FlatIn(w: World, k: nat) {
    forall i, at :: 0 <= i < |w.users| && 0 <= at < |w.users[i].positions|
                    && w.users[i].positions[at].marketIndex == k ==>
      w.users[i].positions[at].base == 0
  }

  /** With every position of a market closed, its base reserve is back where it started and
      no cost basis is left. */
  lemma FlatMarket(w: World, k: nat)
    requires WorldOk(w) && k < |w.markets| && FlatIn(w, k)
    ensures w.markets[k].amm.base == w.markets[k].amm.sqrtK && EntriesIn(w, k) == 0
    ensures w.markets[k].amm.quote >= w.markets[k].amm.sqrtK
  {
    forall i | 0 <= i < |w.users|
      ensures UserLong(k)(w.users[i]) == 0 && UserShort(k)(w.users[i]) == 0 && UserEntry(k)(w.users[i]) == 0
    {
      assert UserOk(w.users[i]);
      ZeroSum(w.users[i].positions, LongIn(k));
      ZeroSum(w.users[i].positions, ShortIn(k));
      ZeroSum(w.users[i].positions, EntryIn(k));
    }
    ZeroSum(w.users, UserLong(k));
    ZeroSum(w.users, UserShort(k));
    ZeroSum(w.users, UserEntry(k));
    assert TotalLong(w, k) == MarketLong(w, k) && TotalShort(w, k) == MarketShort(w, k);
    var a := w.markets[k].amm;
    Commute(a.quote, a.base);
    if a.quote < a.sqrtK { StrictMul(a.quote, a.sqrtK, a.base); }
  }

  /** Flat-market solvency: after any history, once every position of a market is closed,
      the traders' realized profit in it is below one quote unit for each AMM buy made. */
  lemma FlatMarketSolvent(cfg: Config, history: seq<Instruction>, k: nat)
    requires AllWellSized(history)
    requires k < |Run(cfg, history).markets| && FlatIn(Run(cfg, history), k)
    ensures BASE_PRECISION * Accumulated(cfg, history, RealizedAt(k))
      <= (BASE_PRECISION - 1) * Accumulated(cfg, history, BuysAt(k))
  {
    hide Run, Accumulated;
    var w := Run(cfg, history);
    RunSound(cfg, history);
    MarketBalanced(cfg, history, k);
    PotentialPaid(cfg, history, k);
    FlatMarket(w, k);
    hide WorldOk, FlatIn, EntriesIn;
    MulMono(0, w.markets[k].amm.quote - w.markets[k].amm.sqrtK, w.markets[k].amm.peg);
  }
}
