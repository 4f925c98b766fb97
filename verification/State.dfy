/** On-chain account state as values, with the pure queries over it. */
module State {
  import opened Numbers
  import opened Sequences

  const MAX_POSITIONS := 8
  const MAX_ORDERS := 32

  datatype Direction = Long | Short

  function Opposite(d: Direction): Direction {
    if d == Long then Short else Long
  }

  datatype OrderType = MarketOrder | Limit | TriggerMarket | TriggerLimit
  datatype OrderStatus = Init | Open
  datatype TriggerCondition = Above | Below

  /** A position: `base` is signed (long positive); `entry` is the signed cost basis,
      negative when quote was paid. */
  datatype PerpPosition = PerpPosition(
    marketIndex: u16,
    base: i64,
    entry: i64,
    lastCumFunding: i128,
    openOrders: u8)
  {
    predicate IsOpen() { base != 0 }
    predicate IsAvailable() { base == 0 && openOrders == 0 }
  }

  const EMPTY_POSITION := PerpPosition(0, 0, 0, 0, 0)

  datatype Order = Order(
    id: u32,
    marketIndex: u16,
    orderType: OrderType,
    status: OrderStatus,
    direction: Direction,
    amount: u64,
    filled: u64,
    price: u64,
    triggerPrice: u64,
    triggerCondition: TriggerCondition,
    reduceOnly: bool,
    postOnly: bool,
    ts: i64)
  {
    predicate IsOpen() { status == Open }
    function Remaining(): u64 { SaturatingSub(amount, filled) }
    /** The order after a fill of `size`, a saturating addition. */
    function Fill(size: u64): Order { this.(filled := Min(filled + size, U64_MAX)) }
  }

  const EMPTY_ORDER := Order(0, 0, MarketOrder, Init, Long, 0, 0, 0, 0, Above, false, false, 0)

  datatype User = User(
    collateral: u64,
    cumDeposits: i64,
    settledPnl: i64,
    nextOrderId: u32,
    beingLiquidated: bool,
    bankrupt: bool,
    badDebt: u64,
    positions: seq<PerpPosition>,
    orders: seq<Order>)

  function NewUser(): User {
    User(0, 0, 0, 0, false, false, 0, Repeat(EMPTY_POSITION, MAX_POSITIONS), Repeat(EMPTY_ORDER, MAX_ORDERS))
  }

  datatype Amm = Amm(
    base: u128,
    quote: u128,
    sqrtK: u128,
    peg: u128,
    long: i128,
    short: i128,
    cumFundingLong: i128,
    cumFundingShort: i128,
    lastFundingRate: i128,
    lastFundingTs: i64,
    markTwap: u64,
    oracleTwap: u64,
    lastTwapTs: i64,
    totalFee: i128)

  datatype MarketStatus = Initialized | Active | ReduceOnly | Paused

  datatype Market = Market(
    index: u16,
    status: MarketStatus,
    amm: Amm,
    marginInitial: u32,
    marginMaintenance: u32,
    maxLeverage: u32,
    minOrderBase: u64,
    oiLong: u128,
    oiShort: u128,
    maxOi: u128,
    nextFundingTs: i64,
    fundingPeriod: i64,
    liquidationFeeBps: u16)
  {
    function RequireCanReduce(): Result<()> { Need(status == Active || status == ReduceOnly, MarketNotActive) }
    function RequireCanOpen(): Result<()> { Need(status == Active, MarketNotActive) }
    function RequireCanPlaceOrder(reduceOnly: bool): Result<()> {
      if reduceOnly then RequireCanReduce() else RequireCanOpen()
    }
  }

  /** The fields of the global configuration that instructions read. */
  datatype Config = Config(takerFeeBps: u16, makerRebateBps: u16, paused: bool)

  // ------------------------------------------------------------ searches

  function OpenIn(k: u16): PerpPosition -> bool {
    (p: PerpPosition) => p.IsOpen() && p.marketIndex == k
  }

  function TakenFor(k: u16): PerpPosition -> bool {
    (p: PerpPosition) => p.marketIndex == k && !p.IsAvailable()
  }

  function Vacant(): PerpPosition -> bool {
    (p: PerpPosition) => p.IsAvailable()
  }

  function OpenWithId(id: u32): Order -> bool {
    (o: Order) => o.IsOpen() && o.id == id
  }

  function NotOpen(): Order -> bool {
    (o: Order) => !o.IsOpen()
  }

  function FindPosition(ps: seq<PerpPosition>, k: u16): (r: Option<nat>)
    ensures r.Some? ==> r.value < |ps| && ps[r.value].IsOpen() && ps[r.value].marketIndex == k
    ensures r.None? ==> forall i :: 0 <= i < |ps| ==> !(ps[i].IsOpen() && ps[i].marketIndex == k)
  {
    var r := Position(ps, OpenIn(k));
    assert r.None? ==> forall i :: 0 <= i < |ps| ==> !OpenIn(k)(ps[i]);
    r
  }

  function FindOrder(os: seq<Order>, id: u32): (r: Result<nat>)
    ensures r.Ok? ==> r.value < |os| && os[r.value].IsOpen() && os[r.value].id == id
    ensures r.Ok? <==> exists i :: 0 <= i < |os| && os[i].IsOpen() && os[i].id == id
  {
    var r := Position(os, OpenWithId(id));
    assert r.None? ==> forall i :: 0 <= i < |os| ==> !OpenWithId(id)(os[i]);
    if r.Some? then Ok(r.value) else Err(OrderNotFound)
  }

  /** The slot a position of market `k` lives in, and whether it must be reset first. */
  datatype Slot = Slot(index: nat, reset: bool)

  function PositionSlot(ps: seq<PerpPosition>, k: u16): (r: Result<Slot>)
    ensures r.Ok? ==> r.value.index < |ps|
    ensures r.Ok? && r.value.reset ==> ps[r.value.index].IsAvailable()
    ensures r.Ok? && !r.value.reset ==> ps[r.value.index].marketIndex == k && !ps[r.value.index].IsAvailable()
  {
    match Position(ps, TakenFor(k))
    case Some(i) => Ok(Slot(i, false))
    case None =>
      match Position(ps, Vacant())
      case Some(i) => Ok(Slot(i, true))
      case None => Err(MaxPositionsReached)
  }

  /** `get_or_create_position`: the positions afterwards and the index to use. */
  function GetOrCreatePosition(ps: seq<PerpPosition>, k: u16): (r: Result<(seq<PerpPosition>, nat)>)
    ensures r.Ok? ==> |r.value.0| == |ps| && r.value.1 < |ps| && r.value.0[r.value.1].marketIndex == k
  {
    var slot :- PositionSlot(ps, k);
    if slot.reset then Ok((ps[slot.index := EMPTY_POSITION.(marketIndex := k)], slot.index))
    else Ok((ps, slot.index))
  }
}
