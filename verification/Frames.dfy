/** What an instruction leaves alone: users it does not name, markets it does not name,
    and the parts of a market that trades do not write. */
module Frames {
  import opened Numbers
  import opened State
  import opened Curve
  import opened Controller
  import opened Instructions
  import opened Protocol
  import opened Bookkeeping
  import opened Liquidations
  import opened Steps

  lemma OpenOnlyTrades(u: User, m: Market, feeBps: u16, dir: Direction, size: u64, limit: u64, price: u64)
    requires ExecuteAmmOpen(u, m, feeBps, dir, size, limit, price).Ok?
    ensures OnlyTraded(m, ExecuteAmmOpen(u, m, feeBps, dir, size, limit, price).value.market)
  {
    var _, _ := OpenShape(u, m, feeBps, dir, size, limit, price);
    hide ExecuteAmmOpen;
  }

  lemma CloseOnlyTrades(u: User, m: Market, feeBps: u16, at: nat, size: u64, limit: u64)
    requires at < |u.positions| && ExecuteAmmClose(u, m, feeBps, at, size, limit).Ok?
    ensures OnlyTraded(m, ExecuteAmmClose(u, m, feeBps, at, size, limit).value.market)
  {
    var _, _ := CloseShape(u, m, feeBps, at, size, limit);
    hide ExecuteAmmClose;
  }

  lemma MatchOnlyTrades(taker: User, maker: User, m: Market, feeBps: u16, rebateBps: u16, dir: Direction, size: u64,
                        fillPrice: u64, price: u64)
    requires ExecuteMakerMatch(taker, maker, m, feeBps, rebateBps, dir, size, fillPrice, price).Ok?
    ensures var f := ExecuteMakerMatch(taker, maker, m, feeBps, rebateBps, dir, size, fillPrice, price).value;
      OnlyTraded(m, f.market)
  {
    hide ExecuteMakerMatch, ApplyMatchLeg, PriceMatch;
    var priced, first, second := MatchShape(taker, maker, m, feeBps, rebateBps, dir, size, fillPrice, price);
    LegOnlyTrades(taker, m, dir, size, priced.quote, 0 - priced.fee, price);
    LegOnlyTrades(maker, first.1, Opposite(dir), size, priced.quote, priced.rebate, price);
  }

  lemma LegOnlyTrades(u: User, m: Market, dir: Direction, size: u64, quote: u128, delta: i64, price: u64)
    requires ApplyMatchLeg(u, m, dir, size, quote, delta, price).Ok?
    ensures OnlyTraded(m, ApplyMatchLeg(u, m, dir, size, quote, delta, price).value.1)
  {
  }

  lemma LiquidateOnlyTrades(u: User, m: Market, insurance: u64, maxBase: u64, price: u64)
    requires LiquidatePerp(u, m, insurance, maxBase, price).Ok?
    ensures OnlyTraded(m, LiquidatePerp(u, m, insurance, maxBase, price).value.market)
  {
    var at := FindPosition(u.positions, m.index).value;
    var payment := Funding.FundingPayment(u.positions[at].base, m.amm.cumFundingLong,
                                          u.positions[at].lastCumFunding).value;
    var paid := PayFunding(u, at, payment, m.amm.cumFundingLong).value;
    var _, _, _ := LiquidateShape(paid, m, insurance, at, CloseSize(maxBase, Abs(u.positions[at].base)), price);
    hide LiquidateClose;
  }

  lemma FillOnlyTrades(cfg: Config, u: User, m: Market, id: u32, price: u64)
    requires FillOrder(cfg, u, m, id, price).Ok?
    ensures OnlyTraded(m, FillOrder(cfg, u, m, id, price).value.1)
  {
    hide ExecuteAmmOpen, ExecuteAmmClose;
    var slot := FindOrder(u.orders, id).value;
    var order := u.orders[slot];
    if order.reduceOnly {
      var i := FindPosition(u.positions, m.index).value;
      CloseOnlyTrades(u, m, cfg.takerFeeBps, i, Min(order.Remaining(), Abs(u.positions[i].base)), order.price);
    } else {
      OpenOnlyTrades(u, m, cfg.takerFeeBps, order.direction, order.Remaining(), order.price, price);
    }
  }

  lemma TriggerOnlyTrades(cfg: Config, u: User, m: Market, id: u32, price: u64)
    requires TriggerOrder(cfg, u, m, id, price).Ok?
    ensures OnlyTraded(m, TriggerOrder(cfg, u, m, id, price).value.1)
  {
    hide ExecuteAmmClose;
    var order := u.orders[FindOrder(u.orders, id).value];
    var i := FindPosition(u.positions, m.index).value;
    CloseOnlyTrades(u, m, cfg.takerFeeBps, i, Min(order.Remaining(), Abs(u.positions[i].base)),
                    if order.orderType == TriggerLimit then order.price else 0);
  }

  lemma FillMatchOnlyTrades(cfg: Config, taker: User, maker: User, same: bool, m: Market, takerId: u32, makerId: u32,
                            price: u64)
    requires FillMatch(cfg, taker, maker, same, m, takerId, makerId, price).Ok?
    ensures !same && OnlyTraded(m, FillMatch(cfg, taker, maker, same, m, takerId, makerId, price).value.market)
  {
    hide ExecuteMakerMatch;
    var pair := CheckMatch(cfg, taker, maker, same, m, takerId, makerId).value;
    MatchOnlyTrades(taker, maker, m, cfg.takerFeeBps, cfg.makerRebateBps, taker.orders[pair.takerSlot].direction,
                    pair.size,
                    maker.orders[pair.makerSlot].price, price);
  }

  /** A market is only traded in, unless its own crank or its own parameter change is the step. */
  lemma MarketFrame(w: World, ix: Instruction, w': World, k: nat)
    requires Step(w, ix) == Ok(w') && k < |w.markets|
    ensures k < |w'.markets|
    ensures MarketOf(ix) != Some(k) ==> w'.markets[k] == w.markets[k]
    ensures !ix.CrankFunding? && !ix.SetParams? ==> OnlyTraded(w.markets[k], w'.markets[k])
  {
    if MarketOf(ix) == Some(k) {
      var m := w.markets[k];
      hide OpenPosition, ClosePosition, FillOrder, TriggerOrder, FillMatch, LiquidatePerp;
      if ix.OpenTrade? {
        OpenTradeOnlyTrades(w.config, w.users[ix.user], m, ix.direction, ix.size, ix.limit, ix.price);
      } else if ix.Close? {
        CloseTradeOnlyTrades(w.config, w.users[ix.user], m, ix.size, ix.limit);
      } else if ix.Fill? {
        FillOnlyTrades(w.config, w.users[ix.user], m, ix.id, ix.price);
      } else if ix.Trigger? {
        TriggerOnlyTrades(w.config, w.users[ix.user], m, ix.id, ix.price);
      } else if ix.Match? {
        FillMatchOnlyTrades(w.config, w.users[ix.taker], w.users[ix.maker], ix.taker == ix.maker, m, ix.takerId,
                            ix.makerId, ix.price);
      } else if ix.Liquidate? {
        LiquidateOnlyTrades(w.users[ix.user], m, w.insurance, ix.maxBase, ix.price);
      }
    }
  }

  lemma OpenTradeOnlyTrades(cfg: Config, u: User, m: Market, dir: Direction, size: u64, limit: u64, price: u64)
    requires OpenPosition(cfg, u, m, dir, size, limit, price).Ok?
    ensures OnlyTraded(m, OpenPosition(cfg, u, m, dir, size, limit, price).value.1)
  {
    hide ExecuteAmmOpen;
    OpenOnlyTrades(u, m, cfg.takerFeeBps, dir, size, limit, price);
  }

  lemma CloseTradeOnlyTrades(cfg: Config, u: User, m: Market, size: u64, limit: u64)
    requires ClosePosition(cfg, u, m, size, limit).Ok?
    ensures OnlyTraded(m, ClosePosition(cfg, u, m, size, limit).value.1)
  {
    hide ExecuteAmmClose;
    var i := FindPosition(u.positions, m.index).value;
    CloseOnlyTrades(u, m, cfg.takerFeeBps, i, CloseSize(size, Abs(u.positions[i].base)), limit);
  }

  /** Users an instruction does not name keep their account as it is. */
  lemma UserFrame(w: World, ix: Instruction, w': World, i: nat)
    requires Step(w, ix) == Ok(w') && i < |w.users| && i !in UsersOf(ix)
    ensures i < |w'.users| && w'.users[i] == w.users[i]
  {
    hide OpenPosition, ClosePosition, FillOrder, TriggerOrder, FillMatch, LiquidatePerp;
  }
}
