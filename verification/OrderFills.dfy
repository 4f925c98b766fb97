/** The fills of one order over a whole history: how much base it moved, and at what price. */
module OrderFills {
  import opened Numbers
  import opened Sequences
  import opened State
  import opened Instructions
  import opened Protocol
  import opened Bookkeeping
  import opened Ledger
  import opened Steps
  import opened Runs
  import opened OrderLife
  import opened OrderRuns

  // ------------------------------------------------------------ ledgers of one order

  predicate Fills(w: World, ix: Instruction, w': World, i: nat, id: u32) {
    OrderOf(ix, i) == Some(id) && i < |w.users| && i < |w'.users|
  }

  /** Base the owner's position moves by when a step fills order `id` of user `i`. */
  ghost function FilledBy(i: nat, id: u32): (World, Instruction, World) -> int {
    (w: World, ix: Instruction, w': World) => if Fills(w, ix, w', i, id) then Moved(w, ix, w', i) else 0
  }

  /** The same for peer fills, with the quote the owner's cost basis moves by. */
  ghost function PeerBase(i: nat, id: u32): (World, Instruction, World) -> int {
    (w: World, ix: Instruction, w': World) => if ix.Match? && Fills(w, ix, w', i, id) then Moved(w, ix, w', i) else 0
  }

  ghost function PeerQuote(i: nat, id: u32): (World, Instruction, World) -> int {
    (w: World, ix: Instruction, w': World) => if ix.Match? && Fills(w, ix, w', i, id) then Paid(w, ix, w', i) else 0
  }

  function PeerFills(i: nat, id: u32): (World, Instruction, World) -> int {
    (w: World, ix: Instruction, w': World) => if ix.Match? && Fills(w, ix, w', i, id) then 1 else 0
  }

  /** The terms an order was placed with. */
  datatype Placement = Placement(market: u16, order: OrderParams)

  predicate Places(w: World, ix: Instruction, i: nat, id: u32) {
    Step(w, ix).Ok? && ix.Place? && ix.user == i && i < |w.users| && w.users[i].nextOrderId == id
  }

  /** How user `i` last placed order `id` in a history. */
  ghost function PlacedAs(cfg: Config, history: seq<Instruction>, i: nat, id: u32): Option<Placement> {
    if history == [] then None
    else
      var n := |history| - 1;
      if Places(Run(cfg, history[..n]), history[n], i, id) then Some(Placement(history[n].market, history[n].order))
      else PlacedAs(cfg, history[..n], i, id)
  }

  predicate HasTerms(o: Order, p: Placement) {
    && o.marketIndex == p.market && o.orderType == p.order.orderType && o.direction == p.order.direction
    && o.amount == p.order.amount && o.price == p.order.price && o.reduceOnly == p.order.reduceOnly
    && o.triggerPrice == p.order.triggerPrice && o.triggerCondition == p.order.triggerCondition
  }

  /** One order's books: its terms, the base filled, and base, quote and number of its
      peer fills. */
  datatype Books = Books(placement: Option<Placement>, filled: int, base: int, quote: int, fills: int)

  /** Peer fills respect the limit. */
  predicate WithinLimit(p: OrderParams, b: Books) {
    if p.direction == Long then BASE_PRECISION * b.quote <= p.price * b.base
    else BASE_PRECISION * b.quote + (BASE_PRECISION - 1) * b.fills >= p.price * b.base
  }

  predicate FillsOk(w: World, i: nat, id: u32, b: Books) {
    match b.placement
    case None =>
      b.filled == b.base == b.quote == b.fills == 0 && (i < |w.users| ==> w.users[i].nextOrderId <= id)
    case Some(p) =>
      && i < |w.users| && id < w.users[i].nextOrderId
      && 0 <= b.base <= b.filled <= p.order.amount && b.fills >= 0
      && WithinLimit(p.order, b)
      && forall a :: 0 <= a < |w.users[i].orders| && w.users[i].orders[a].IsOpen() && w.users[i].orders[a].id == id ==>
           HasTerms(w.users[i].orders[a], p) && w.users[i].orders[a].filled == b.filled
  }

  ghost function After(b: Books, w: World, ix: Instruction, w': World, i: nat, id: u32): Books {
    Books(if Places(w, ix, i, id) then Some(Placement(ix.market, ix.order)) else b.placement,
          b.filled + FilledBy(i, id)(w, ix, w'),
          b.base + PeerBase(i, id)(w, ix, w'),
          b.quote + PeerQuote(i, id)(w, ix, w'),
          b.fills + PeerFills(i, id)(w, ix, w'))
  }

  // ------------------------------------------------------------ one step

  lemma PlaceKeepsBooks(w: World, w': World, ix: Instruction, i: nat, id: u32, b: Books)
    requires i < |w.users| && i < |w'.users| && ix.Place? && ix.user == i && Step(w, ix).Ok?
    requires OrdersOk(w.users[i]) && w.users[i].nextOrderId < U32_SPAN - 1
    requires PlacesOrder(w.users[i], w'.users[i], ix.market, ix.order, ix.now)
    requires FillsOk(w, i, id, b)
    ensures FillsOk(w', i, id,
                    b.(placement := if Places(w, ix, i, id) then Some(Placement(ix.market, ix.order)) else b.placement))
  {
    hide Step;
    var os, os' := w.users[i].orders, w'.users[i].orders;
    var slot := Position(os, NotOpen()).value;
    forall a | 0 <= a < |os'| && os'[a].IsOpen() && os'[a].id == id && a != slot
      ensures id < w.users[i].nextOrderId
    {
      assert os'[a] == os[a];
    }
  }

  /** Filling an order keeps the books of every order of the account. */
  lemma FillKeepsBooks(u: User, u': User, w: World, w': World, i: nat, filled: u32, size: int, id: u32, b: Books,
                       b': Books)
    requires i < |w.users| && i < |w'.users| && u == w.users[i] && u' == w'.users[i]
    requires OrdersOk(u) && FillsOrder(u, u', filled, size) && FillsOk(w, i, id, b)
    requires filled != id ==> b' == b
    requires filled == id && b.placement.Some? ==>
      && b' == b.(filled := b.filled + size, base := b'.base, quote := b'.quote, fills := b'.fills)
      && 0 <= b'.base <= b'.filled && b'.fills >= 0 && WithinLimit(b.placement.value.order, b')
    ensures FillsOk(w', i, id, b') && (filled == id ==> b.placement.Some?)
  {
    var slot := FindOrder(u.orders, filled).value;
    assert u.orders[slot].IsOpen() && u.orders[slot].id == filled;
    forall a | 0 <= a < |u'.orders| && u'.orders[a].IsOpen() && u'.orders[a].id == id
      ensures u.orders[a].IsOpen() && u.orders[a].id == id
      ensures filled == id <==> a == slot
    {
      if a == slot { assert u.orders[a].IsOpen(); } else { assert u'.orders[a] == u.orders[a]; }
    }
  }

  /** A fair fill keeps the totals within the limit. */
  lemma LimitKept(p: OrderParams, b: Books, size: nat, quote: nat, o: Order)
    requires o.price == p.price && o.direction == p.direction && FairPrice(o, size, quote) && WithinLimit(p, b)
    ensures WithinLimit(p, b.(base := b.base + size, quote := b.quote + quote, fills := b.fills + 1))
  {
    assert p.price * (b.base + size) == p.price * b.base + size * o.price;
  }

  lemma StepBooks(w: World, ix: Instruction, w': World, i: nat, id: u32, b: Books)
    requires i < |w.users| && i < |w'.users| && Step(w, ix) == Ok(w') && OrderStep(w, ix, w', i)
    requires OrdersOk(w.users[i]) && FillsOk(w, i, id, b)
    requires ix.Place? && ix.user == i ==> w.users[i].nextOrderId < U32_SPAN - 1
    ensures FillsOk(w', i, id, After(b, w, ix, w', i, id))
  {
    hide Step;
    var u, u' := w.users[i], w'.users[i];
    var b' := After(b, w, ix, w', i, id);
    if ix.Place? && ix.user == i {
      PlaceKeepsBooks(w, w', ix, i, id, b);
    } else if OrderOf(ix, i).Some? {
      var filled, size := OrderOf(ix, i).value, Moved(w, ix, w', i);
      if filled == id && b.placement.Some? {
        var o := u.orders[FindOrder(u.orders, id).value];
        if ix.Match? { LimitKept(b.placement.value.order, b, size, Paid(w, ix, w', i), o); }
      }
      FillKeepsBooks(u, u', w, w', i, filled, size, id, b, b');
    } else {
      assert b' == b;
    }
  }

  lemma NewcomerBooks(w: World, ix: Instruction, w': World, i: nat, id: u32, b: Books)
    requires Step(w, ix) == Ok(w') && i >= |w.users| && FillsOk(w, i, id, b)
    ensures FillsOk(w', i, id, After(b, w, ix, w', i, id))
  {
    NewcomerOrders(w, ix, w', i);
    hide Step;
  }

  // ------------------------------------------------------------ whole runs

  /** The books of an order over a history. */
  ghost function BooksOf(cfg: Config, history: seq<Instruction>, i: nat, id: u32): Books {
    Books(PlacedAs(cfg, history, i, id),
          Accumulated(cfg, history, FilledBy(i, id)),
          Accumulated(cfg, history, PeerBase(i, id)),
          Accumulated(cfg, history, PeerQuote(i, id)),
          Accumulated(cfg, history, PeerFills(i, id)))
  }

  lemma BooksStep(cfg: Config, history: seq<Instruction>, i: nat, id: u32)
    requires history != []
    ensures var n := |history| - 1;
      var w := Run(cfg, history[..n]);
      var b := BooksOf(cfg, history[..n], i, id);
      BooksOf(cfg, history, i, id)
        == if Step(w, history[n]).Ok? then After(b, w, history[n], Step(w, history[n]).value, i, id) else b
  {
    hide Step;
  }

  /** While a user places fewer than 2^32 orders, for each of its orders and any history:
      the base its fills moved never exceeds its amount and is what the open order records;
      its terms never change; and over all peer fills a buy pays at most its limit, while a
      sell falls short of its limit by less than one unit a fill. */
  lemma {:induction false} OrderNeverOverfilled(cfg: Config, history: seq<Instruction>, i: nat, id: u32)
    requires AllWellSized(history) && Accumulated(cfg, history, Placements(i)) < U32_SPAN
    ensures FillsOk(Run(cfg, history), i, id, BooksOf(cfg, history, i, id))
  {
    hide Step, WorldOk, IdsOk, FillsOk, BooksOf, After, Placements, OrderStep;
    if history == [] {
      NoBooksYet(cfg, i, id);
    } else {
      var n := |history| - 1;
      PlacementsGrow(cfg, history, i);
      OrderNeverOverfilled(cfg, history[..n], i, id);
      BooksStep(cfg, history, i, id);
      RunSound(cfg, history[..n]);
      OpenOrdersSound(cfg, history[..n], i);
      var w := Run(cfg, history[..n]);
      if Step(w, history[n]).Ok? {
        BookStep(w, history[n], Step(w, history[n]).value, i, id, BooksOf(cfg, history[..n], i, id),
                 Accumulated(cfg, history[..n], Placements(i)));
      }
    }
  }

  lemma BookStep(w: World, ix: Instruction, w': World, i: nat, id: u32, b: Books, placed: int)
    requires WorldOk(w) && WellSized(ix) && Step(w, ix) == Ok(w') && IdsOk(w, i, placed) && FillsOk(w, i, id, b)
    requires placed + Placements(i)(w, ix, w') < U32_SPAN
    ensures FillsOk(w', i, id, After(b, w, ix, w', i, id))
  {
    hide Step, WorldOk, FillsOk, After, OrderStep;
    if i < |w.users| {
      StepOrders(w, ix, w', i);
      StepBooks(w, ix, w', i, id, b);
    } else {
      NewcomerBooks(w, ix, w', i, id, b);
    }
  }

  lemma NoBooksYet(cfg: Config, i: nat, id: u32)
    ensures FillsOk(Genesis(cfg), i, id, BooksOf(cfg, [], i, id))
  {
  }

  /** The price promise spelled out for one order. */
  lemma {:induction false} PeerFillsRespectLimit(cfg: Config, history: seq<Instruction>, i: nat, id: u32)
    requires AllWellSized(history) && Accumulated(cfg, history, Placements(i)) < U32_SPAN
    requires PlacedAs(cfg, history, i, id).Some?
    ensures var order := PlacedAs(cfg, history, i, id).value.order;
      var base := Accumulated(cfg, history, PeerBase(i, id));
      var quote := Accumulated(cfg, history, PeerQuote(i, id));
      && base <= Accumulated(cfg, history, FilledBy(i, id)) <= order.amount
      && (order.direction == Long ==> quote <= order.price * base / BASE_PRECISION)
      && (order.direction == Short ==>
            order.price * base - (BASE_PRECISION - 1) * Accumulated(cfg, history, PeerFills(i, id))
              <= BASE_PRECISION * quote)
  {
    OrderNeverOverfilled(cfg, history, i, id);
    hide Run, Accumulated, PlacedAs;
    var order := PlacedAs(cfg, history, i, id).value.order;
    var base := Accumulated(cfg, history, PeerBase(i, id));
    var quote := Accumulated(cfg, history, PeerQuote(i, id));
    FloorGalois(quote, order.price * base, BASE_PRECISION);
  }
}
