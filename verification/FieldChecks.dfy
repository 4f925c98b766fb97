/** The checks of every instruction on the fields of its accounts, in the order they are made. */
module FieldChecks {
  import opened Numbers
  import opened Sequences
  import opened State
  import opened Curve
  import opened Margin
  import opened Funding
  import opened Controller
  import opened Instructions
  import opened Protocol
  import opened TradeAgreement
  import opened OrderAgreement
  import opened FundingAgreement
  import R = Relation

  // ------------------------------------------------------------ checks on fields

  /** One check, then the rest of them: the error of the first that fails. */
  function Demand(ok: bool, error: ErrorCode, rest: Option<ErrorCode>): Option<ErrorCode> {
    if ok then rest else Some(error)
  }

  predicate MayReduce(m: Market) { m.status == Active || m.status == ReduceOnly }

  /** The account has a position in the market. */
  predicate Has(u: User, m: Market) { exists at :: 0 <= at < |u.positions| && R.Holds(u.positions[at], m.index) }

  /** Its side, and the side of an order that may only reduce it. */
  predicate Opposes(u: User, m: Market, o: Order) {
    exists at :: 0 <= at < |u.positions| && R.Held(u.positions, m.index, at)
                 && (u.positions[at].base > 0) != (o.direction == Long)
  }

  predicate Free(u: User) { exists s :: 0 <= s < |u.orders| && u.orders[s].status != Open }
  predicate Named(u: User, id: int) { exists s :: 0 <= s < |u.orders| && R.Answers(u.orders[s], id) }

  function DepositChecks(cfg: Config, u: User, amount: int): Option<ErrorCode> {
    Demand(!cfg.paused, ProtocolPaused,
    Demand(amount > 0, InvalidAmount,
    Demand(R.InU64(u.collateral + amount), MathOverflow,
    Demand(R.InI64(u.cumDeposits + R.Wrapped(amount)), MathOverflow, None))))
  }

  function WithdrawChecks(cfg: Config, u: User, amount: int): Option<ErrorCode> {
    Demand(!cfg.paused, ProtocolPaused,
    Demand(amount > 0, InvalidAmount,
    Demand(amount <= u.collateral, InsufficientCollateral, None)))
  }

  function OpenChecks(cfg: Config, u: User, m: Market, size: int): Option<ErrorCode> {
    Demand(!cfg.paused, ProtocolPaused,
    Demand(m.status == Active, MarketNotActive,
    Demand(size > 0 && size >= m.minOrderBase, OrderTooSmall,
    Demand(!u.beingLiquidated, BeingLiquidated, None))))
  }

  function PlaceChecks(cfg: Config, u: User, m: Market, p: OrderParams): Option<ErrorCode> {
    Demand(!cfg.paused, ProtocolPaused,
    Demand(if p.reduceOnly then MayReduce(m) else m.status == Active, MarketNotActive,
    Demand(p.amount > 0 && p.amount >= m.minOrderBase, OrderTooSmall,
    Demand(p.orderType != MarketOrder, UnsupportedOrderType,
    Demand(R.WellPriced(p), InvalidAmount,
    Demand(Free(u), OrdersFull, None))))))
  }

  /** The checks of a fill, the order being `o`. */
  function FillChecks(u: User, m: Market, o: Order): Option<ErrorCode> {
    Demand(o.orderType == Limit, UnsupportedOrderType,
    Demand(o.marketIndex == m.index, InvalidMarketIndex,
    Demand(o.amount > o.filled, InvalidAmount,
    Demand(if o.reduceOnly then MayReduce(m) else m.status == Active, MarketNotActive,
    Demand(o.reduceOnly ==> Has(u, m), PositionNotFound,
    Demand(o.reduceOnly ==> Opposes(u, m, o), ReduceOnlyViolation, None))))))
  }

  function TriggerChecks(u: User, m: Market, o: Order, price: int): Option<ErrorCode> {
    Demand(o.orderType == TriggerMarket || o.orderType == TriggerLimit, UnsupportedOrderType,
    Demand(o.reduceOnly, UnsupportedOrderType,
    Demand(o.marketIndex == m.index, InvalidMarketIndex,
    Demand(R.Beyond(o, price), TriggerConditionNotMet,
    Demand(Has(u, m), PositionNotFound,
    Demand(o.amount > o.filled, InvalidAmount, None))))))
  }

  /** The checks of one side of a match. */
  function LimitChecks(m: Market, o: Order): Option<ErrorCode> {
    Demand(o.orderType == Limit, UnsupportedOrderType,
    Demand(!o.reduceOnly, UnsupportedOrderType,
    Demand(o.marketIndex == m.index, InvalidMarketIndex, None)))
  }

  function CrossChecks(bid: Order, ask: Order): Option<ErrorCode> {
    Demand(R.Crosses(bid, ask), OrdersDoNotCross,
    Demand(bid.amount > bid.filled && ask.amount > ask.filled, InvalidAmount, None))
  }

  function CreateChecks(n: nat, p: MarketParams, now: int): Option<ErrorCode> {
    Demand(p.index == n, InvalidMarketIndex,
    Demand(p.marginInitial > p.marginMaintenance > 0, InvalidAmount,
    Demand(p.reserve > 0 && p.peg > 0, InvalidAmount,
    Demand(R.InU64(p.peg), MathOverflow,
    Demand(R.InI64(now + p.fundingPeriod), MathOverflow,
    Demand(n < 0xFFFF, MathOverflow, None))))))
  }

  function RetuneChecks(a: MarketArgs): Option<ErrorCode> {
    Demand(a.marginInitial > a.marginMaintenance > 0, InvalidAmount,
    Demand(a.fundingPeriod > 0, InvalidAmount, None))
  }

  // ------------------------------------------------------------ instructions that only check

  /** Answers with the first failed check, and otherwise succeeds. */
  predicate Decided<T>(r: Result<T>, checks: Option<ErrorCode>) {
    match checks
    case Some(e) => r.Err? && r.error == e
    case None => r.Ok?
  }

  /** Answers with the first failed check, if any fails. */
  predicate Gated<T>(r: Result<T>, checks: Option<ErrorCode>) {
    checks.Some? ==> r.Err? && r.error == checks.value
  }

  lemma DepositDecided(cfg: Config, u: User, amount: u64)
    ensures Decided(DepositCollateral(cfg, u, amount), DepositChecks(cfg, u, amount))
  {
  }

  lemma PlaceDecided(cfg: Config, u: User, m: Market, p: OrderParams, now: i64)
    ensures Decided(PlaceOrder(cfg, u, m, p, now), PlaceChecks(cfg, u, m, p))
  {
    var r := Position(u.orders, NotOpen());
    if r.Some? {
      assert NotOpen()(u.orders[r.value]);
    } else {
      assert forall i :: 0 <= i < |u.orders| ==> !NotOpen()(u.orders[i]);
    }
    hide Position;
  }

  lemma CancelDecided(u: User, id: u32)
    ensures Decided(CancelOrder(u, id), Demand(Named(u, id), OrderNotFound, None))
  {
  }

  lemma ResolveDecided(u: User, insurance: u64)
    ensures Decided(ResolveBankruptcy(u, insurance), Demand(u.bankrupt && u.badDebt > 0, NotLiquidatable, None))
  {
  }

  lemma CreateDecided(n: nat, p: MarketParams, now: i64)
    ensures Decided(InitializeMarket(n, p, now), CreateChecks(n, p, now))
  {
  }

  lemma RetuneDecided(m: Market, a: MarketArgs)
    ensures Decided(UpdateMarketParams(m, a), RetuneChecks(a))
  {
  }

  // ------------------------------------------------------------ instructions that trade

  lemma WithdrawGated(cfg: Config, u: User, m: Market, amount: u64, price: u64)
    ensures Gated(WithdrawCollateral(cfg, u, m, amount, price), WithdrawChecks(cfg, u, amount))
  {
    hide RequireInitial;
  }

  lemma OpenGated(cfg: Config, u: User, m: Market, dir: Direction, size: u64, limit: u64, price: u64)
    ensures Gated(OpenPosition(cfg, u, m, dir, size, limit, price), OpenChecks(cfg, u, m, size))
  {
    hide ExecuteAmmOpen;
  }

  lemma HasIff(u: User, m: Market)
    ensures FindPosition(u.positions, m.index).Some? <==> Has(u, m)
  {
  }

  lemma CloseGated(cfg: Config, u: User, m: Market, size: u64, limit: u64)
    ensures Gated(ClosePosition(cfg, u, m, size, limit), Demand(Has(u, m), PositionNotFound, None))
  {
    HasIff(u, m);
    hide ExecuteAmmClose;
  }

  lemma SettleGated(u: User, m: Market)
    ensures Gated(SettleFunding(u, m), Demand(Has(u, m), PositionNotFound, None))
  {
    HasIff(u, m);
    hide PayFunding, FundingPayment;
  }

  lemma LiquidateGated(u: User, m: Market, insurance: u64, maxBase: u64, price: u64)
    ensures Gated(LiquidatePerp(u, m, insurance, maxBase, price), Demand(Has(u, m), PositionNotFound, None))
  {
    HasIff(u, m);
    hide PayFunding, FundingPayment, RequireLiquidatable, LiquidateClose;
  }

  lemma FillGated(cfg: Config, u: User, m: Market, id: u32, price: u64)
    ensures Gated(FillOrder(cfg, u, m, id, price),
                  Demand(!cfg.paused, ProtocolPaused, Demand(Named(u, id), OrderNotFound, None)))
    ensures !cfg.paused && FindOrder(u.orders, id).Ok? ==>
      Gated(FillOrder(cfg, u, m, id, price), FillChecks(u, m, u.orders[FindOrder(u.orders, id).value]))
  {
    HasIff(u, m);
    if Has(u, m) { HeldIff(u.positions, m.index, FindPosition(u.positions, m.index).value); }
    hide ExecuteAmmClose, ExecuteAmmOpen;
  }

  lemma TriggerGated(cfg: Config, u: User, m: Market, id: u32, price: u64)
    ensures Gated(TriggerOrder(cfg, u, m, id, price),
                  Demand(!cfg.paused, ProtocolPaused,
                  Demand(MayReduce(m), MarketNotActive, Demand(Named(u, id), OrderNotFound, None))))
    ensures !cfg.paused && MayReduce(m) && FindOrder(u.orders, id).Ok? ==>
      Gated(TriggerOrder(cfg, u, m, id, price), TriggerChecks(u, m, u.orders[FindOrder(u.orders, id).value], price))
  {
    HasIff(u, m);
    hide ExecuteAmmClose;
  }

  lemma MatchGated(cfg: Config, taker: User, maker: User, same: bool, m: Market, takerId: u32, makerId: u32, price: u64)
    ensures Gated(FillMatch(cfg, taker, maker, same, m, takerId, makerId, price),
                  Demand(!cfg.paused, ProtocolPaused,
                  Demand(!same, SelfMatch,
                  Demand(m.status == Active, MarketNotActive,
                  Demand(Named(taker, takerId), OrderNotFound, None)))))
    ensures !cfg.paused && !same && m.status == Active && FindOrder(taker.orders, takerId).Ok? ==>
      var bid := taker.orders[FindOrder(taker.orders, takerId).value];
      var r := FillMatch(cfg, taker, maker, same, m, takerId, makerId, price);
      && Gated(r, LimitChecks(m, bid))
      && (LimitChecks(m, bid).None? ==> Gated(r, Demand(Named(maker, makerId), OrderNotFound, None)))
      && (LimitChecks(m, bid).None? && FindOrder(maker.orders, makerId).Ok? ==>
            var ask := maker.orders[FindOrder(maker.orders, makerId).value];
            && Gated(r, LimitChecks(m, ask))
            && (LimitChecks(m, ask).None? ==> Gated(r, CrossChecks(bid, ask))))
  {
    hide ExecuteMakerMatch;
  }
}
