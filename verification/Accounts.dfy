/** On-chain accounts as the program updates them: objects with mutable fields and
    fixed-size slot arrays.  `View` is the value an account currently holds. */
module Accounts {
  import opened Numbers
  import opened Sequences
  import opened State
  import opened Margin

  /** The first index that satisfies a property is the one the search returns. */
  lemma PositionIs<T>(s: seq<T>, p: T -> bool, i: nat)
    requires i <= |s| && (forall j :: 0 <= j < i ==> !p(s[j]))
    ensures i < |s| && p(s[i]) ==> Position(s, p) == Some(i)
    ensures i == |s| ==> Position(s, p) == None
  {
  }

  class UserAccount {
    var collateral: u64
    var cumDeposits: i64
    var settledPnl: i64
    var nextOrderId: u32
    var beingLiquidated: bool
    var bankrupt: bool
    var badDebt: u64
    const positions: array<PerpPosition>
    const orders: array<Order>

    ghost predicate Valid() {
      positions.Length == MAX_POSITIONS && orders.Length == MAX_ORDERS
    }

    function View(): User
      reads this, positions, orders
    {
      User(collateral, cumDeposits, settledPnl, nextOrderId, beingLiquidated, bankrupt, badDebt, positions[..],
           orders[..])
    }

    /** Load an account from its stored value. */
    constructor (u: User)
      requires |u.positions| == MAX_POSITIONS && |u.orders| == MAX_ORDERS
      ensures Valid() && View() == u
      ensures fresh(this) && fresh(positions) && fresh(orders)
    {
      collateral, cumDeposits, settledPnl := u.collateral, u.cumDeposits, u.settledPnl;
      nextOrderId, beingLiquidated, bankrupt, badDebt := u.nextOrderId, u.beingLiquidated, u.bankrupt, u.badDebt;
      positions := new PerpPosition[MAX_POSITIONS](i requires 0 <= i < MAX_POSITIONS => u.positions[i]);
      orders := new Order[MAX_ORDERS](i requires 0 <= i < MAX_ORDERS => u.orders[i]);
      new;
      assert positions[..] == u.positions;
      assert orders[..] == u.orders;
    }

    method FindPosition(k: u16) returns (r: Option<nat>)
      ensures r == State.FindPosition(positions[..], k)
      ensures r.Some? ==> r.value < positions.Length
    {
      var i := 0;
      while i < positions.Length && !(positions[i].IsOpen() && positions[i].marketIndex == k)
        invariant i <= positions.Length
        invariant forall j :: 0 <= j < i ==> !OpenIn(k)(positions[j])
      {
        i := i + 1;
      }
      PositionIs(positions[..], OpenIn(k), i);
      r := if i < positions.Length then Some(i) else None;
    }

    /** The existing slot of market `k`, or a free slot claimed for it. */
    method GetOrCreatePosition(k: u16) returns (r: Result<nat>)
      modifies positions
      ensures r.Ok? ==> r.value < positions.Length
      ensures r.Ok? ==> State.GetOrCreatePosition(old(positions[..]), k) == Ok((positions[..], r.value))
      ensures r.Err? ==> State.GetOrCreatePosition(old(positions[..]), k) == Err(r.error)
    {
      var i := 0;
      while i < positions.Length && !(positions[i].marketIndex == k && !positions[i].IsAvailable())
        invariant i <= positions.Length
        invariant forall j :: 0 <= j < i ==> !TakenFor(k)(positions[j])
      {
        i := i + 1;
      }
      PositionIs(positions[..], TakenFor(k), i);
      if i < positions.Length {
        return Ok(i);
      }
      i := 0;
      while i < positions.Length && !positions[i].IsAvailable()
        invariant i <= positions.Length
        invariant forall j :: 0 <= j < i ==> !Vacant()(positions[j])
      {
        i := i + 1;
      }
      PositionIs(positions[..], Vacant(), i);
      if i == positions.Length {
        return Err(MaxPositionsReached);
      }
      positions[i] := EMPTY_POSITION.(marketIndex := k);
      assert positions[..] == old(positions[..])[i := EMPTY_POSITION.(marketIndex := k)];
      return Ok(i);
    }

    method FindOrder(id: u32) returns (r: Result<nat>)
      ensures r == State.FindOrder(orders[..], id)
      ensures r.Ok? ==> r.value < orders.Length && orders[r.value].IsOpen()
    {
      var i := 0;
      while i < orders.Length && !(orders[i].IsOpen() && orders[i].id == id)
        invariant i <= orders.Length
        invariant forall j :: 0 <= j < i ==> !OpenWithId(id)(orders[j])
      {
        i := i + 1;
      }
      PositionIs(orders[..], OpenWithId(id), i);
      r := if i < orders.Length then Ok(i) else Err(OrderNotFound);
    }

    /** The first order slot that holds no open order. */
    method FreeOrderSlot() returns (r: Option<nat>)
      ensures r == Position(orders[..], NotOpen())
      ensures r.Some? ==> r.value < orders.Length
    {
      var i := 0;
      while i < orders.Length && orders[i].IsOpen()
        invariant i <= orders.Length
        invariant forall j :: 0 <= j < i ==> !NotOpen()(orders[j])
      {
        i := i + 1;
      }
      PositionIs(orders[..], NotOpen(), i);
      r := if i < orders.Length then Some(i) else None;
    }

    /** Hand out the next id; the counter wraps at 32 bits. */
    method NextOrderId() returns (id: u32)
      modifies this`nextOrderId
      ensures id == old(nextOrderId) && nextOrderId == (id + 1) % U32_SPAN
    {
      id := nextOrderId;
      nextOrderId := (nextOrderId + 1) % U32_SPAN;
    }
  }

  class MarketAccount {
    var index: u16
    var status: MarketStatus
    var amm: Amm
    var marginInitial: u32
    var marginMaintenance: u32
    var maxLeverage: u32
    var minOrderBase: u64
    var oiLong: u128
    var oiShort: u128
    var maxOi: u128
    var nextFundingTs: i64
    var fundingPeriod: i64
    var liquidationFeeBps: u16

    function View(): Market
      reads this
    {
      Market(index, status, amm, marginInitial, marginMaintenance, maxLeverage, minOrderBase, oiLong, oiShort, maxOi,
             nextFundingTs, fundingPeriod, liquidationFeeBps)
    }

    constructor (m: Market)
      ensures View() == m
    {
      index, status, amm := m.index, m.status, m.amm;
      marginInitial, marginMaintenance, maxLeverage := m.marginInitial, m.marginMaintenance, m.maxLeverage;
      minOrderBase, oiLong, oiShort, maxOi := m.minOrderBase, m.oiLong, m.oiShort, m.maxOi;
      nextFundingTs, fundingPeriod, liquidationFeeBps := m.nextFundingTs, m.fundingPeriod, m.liquidationFeeBps;
    }
  }

  class InsuranceFund {
    var totalDeposits: u64

    constructor (deposits: u64)
      ensures totalDeposits == deposits
    {
      totalDeposits := deposits;
    }
  }

  /** Accumulates account health over positions. */
  class MarginCalculation {
    var totalCollateral: i128
    var initialRequirement: u128
    var maintenanceRequirement: u128

    function View(): Health
      reads this
    {
      Health(totalCollateral, initialRequirement, maintenanceRequirement)
    }

    constructor (collateral: u64)
      ensures View() == Health(collateral, 0, 0)
    {
      totalCollateral, initialRequirement, maintenanceRequirement := collateral, 0, 0;
    }

    /** Adds profit and requirements of one position; a failed addition may leave the
        accumulators half updated, and its caller gives up. */
    method AddPosition(p: PerpPosition, price: u64, ratioInitial: u32, ratioMaintenance: u32) returns (r: Result<()>)
      modifies this
      ensures r.Ok? ==> Margin.AddPosition(old(View()), p, price, ratioInitial, ratioMaintenance) == Ok(View())
      ensures r.Err? ==> Margin.AddPosition(old(View()), p, price, ratioInitial, ratioMaintenance) == Err(r.error)
    {
      var pnl :- UnrealizedPnl(p, price);
      var total :- FitI128(totalCollateral + pnl);
      totalCollateral := total;
      var notional :- PositionNotional(p.base, price);
      var imr :- MarginRequirement(notional, ratioInitial);
      var initial :- FitU128(initialRequirement + imr);
      initialRequirement := initial;
      var mmr :- MarginRequirement(notional, ratioMaintenance);
      var maintenance :- FitU128(maintenanceRequirement + mmr);
      maintenanceRequirement := maintenance;
      return Ok(());
    }

    method RequireInitial() returns (r: Result<()>)
      ensures r == if MeetsInitial(View()) then Ok(()) else Err(InsufficientFreeCollateral)
    {
      var _ :- Need(totalCollateral >= AsI128(initialRequirement), InsufficientFreeCollateral);
      return Ok(());
    }
  }
}
