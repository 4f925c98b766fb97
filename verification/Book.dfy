/** The off-chain order book: resting limit orders summed into price levels. */
module Book {
  import opened Numbers
  import opened Sequences
  import opened State
  import opened Instructions
  import opened Protocol
  import opened Ledger
  import opened Steps
  import opened OrderLife
  import opened OrderRuns

  // ------------------------------------------------------------ depth

  /** What an order adds to the book of market `k` at a price. */
  function SizeAt(k: u16, long: bool, price: u64): Order -> int {
    (o: Order) =>
      if o.IsOpen() && o.orderType == Limit && o.marketIndex == k && (o.direction == Long) == long && o.price == price
      then Max(o.amount - o.filled, 0) else 0
  }

  ghost function UserDepth(k: u16, long: bool, price: u64): User -> int {
    (u: User) => Sum(u.orders, SizeAt(k, long, price))
  }

  /** Total remaining size of the open limit orders of one side at a price. */
  ghost function Depth(users: seq<User>, k: u16, long: bool, price: u64): int {
    Sum(users, UserDepth(k, long, price))
  }

  // ------------------------------------------------------------ building

  /** Price levels per market, as they accumulate. */
  type Levels = map<u64, int>
  type Sides = map<u16, Levels>

  function Resting(sides: Sides, k: u16, price: u64): int {
    if k in sides && price in sides[k] then sides[k][price] else 0
  }

  /** Only levels with something in them are kept. */
  ghost predicate NoEmptyLevel(sides: Sides) {
    forall k :: k in sides ==> sides[k] != map[] && forall price :: price in sides[k] ==> sides[k][price] > 0
  }

  /** The side holds the first `a` accounts and `s` orders of the next one. */
  ghost predicate Built(sides: Sides, long: bool, users: seq<User>, a: nat, s: nat)
    requires a <= |users| && (if a < |users| then s <= |users[a].orders| else s == 0)
  {
    && NoEmptyLevel(sides)
    && forall k: u16, price: u64 :: Resting(sides, k, price) == Depth(users[..a], k, long, price)
         + if a < |users| then Sum(users[a].orders[..s], SizeAt(k, long, price)) else 0
  }

  /** One order counted into its side. */
  function Count(sides: Sides, o: Order): Sides {
    var book := if o.marketIndex in sides then sides[o.marketIndex] else map[];
    var before := if o.price in book then book[o.price] else 0;
    sides[o.marketIndex := book[o.price := before + o.amount - o.filled]]
  }

  predicate Counts(o: Order, long: bool) {
    o.IsOpen() && o.orderType == Limit && o.amount - o.filled > 0 && (o.direction == Long) == long
  }

  lemma BuildOrder(sides: Sides, long: bool, users: seq<User>, a: nat, s: nat)
    requires a < |users| && s < |users[a].orders| && Built(sides, long, users, a, s)
    ensures var o := users[a].orders[s];
      Built(if Counts(o, long) then Count(sides, o) else sides, long, users, a, s + 1)
  {
    var orders, o := users[a].orders, users[a].orders[s];
    var after := if Counts(o, long) then Count(sides, o) else sides;
    forall k: u16, price: u64
      ensures Resting(after, k, price)
        == Depth(users[..a], k, long, price) + Sum(orders[..s + 1], SizeAt(k, long, price))
    {
      assert Resting(sides, k, price) == Depth(users[..a], k, long, price) + Sum(orders[..s], SizeAt(k, long, price));
      hide Depth, Built;
      assert orders[..s + 1] == orders[..s] + [o];
      SumAppend(orders[..s], o, SizeAt(k, long, price));
      CountAdds(sides, o, k, long, price);
    }
    CountKeepsLevels(sides, o, long);
  }

  lemma CountAdds(sides: Sides, o: Order, k: u16, long: bool, price: u64)
    ensures Resting(if Counts(o, long) then Count(sides, o) else sides, k, price)
      == Resting(sides, k, price) + SizeAt(k, long, price)(o)
  {
  }

  lemma CountKeepsLevels(sides: Sides, o: Order, long: bool)
    requires NoEmptyLevel(sides)
    ensures Counts(o, long) ==> NoEmptyLevel(Count(sides, o))
  {
    if Counts(o, long) {
      var after := Count(sides, o);
      assert o.price in after[o.marketIndex];
    }
  }

  lemma BuildUser(sides: Sides, long: bool, users: seq<User>, a: nat)
    requires a < |users| && Built(sides, long, users, a, |users[a].orders|)
    ensures Built(sides, long, users, a + 1, 0)
  {
    var orders := users[a].orders;
    assert orders[..|orders|] == orders;
    assert users[..a + 1] == users[..a] + [users[a]];
    if a + 1 < |users| { assert users[a + 1].orders[..0] == []; }
    forall k: u16, price: u64
      ensures Resting(sides, k, price) == Depth(users[..a + 1], k, long, price)
    {
      assert Resting(sides, k, price) == Depth(users[..a], k, long, price) + Sum(orders, SizeAt(k, long, price));
      SumAppend(users[..a], users[a], UserDepth(k, long, price));
    }
  }

  /** Both sides of every market are the depth of the orders, with no empty level. */
  method BuildSides(users: seq<User>) returns (bids: Sides, asks: Sides)
    ensures NoEmptyLevel(bids) && NoEmptyLevel(asks)
    ensures forall k: u16, price: u64 :: Resting(bids, k, price) == Depth(users, k, true, price)
    ensures forall k: u16, price: u64 :: Resting(asks, k, price) == Depth(users, k, false, price)
  {
    bids, asks := map[], map[];
    for a := 0 to |users|
      invariant Built(bids, true, users, a, 0) && Built(asks, false, users, a, 0)
    {
      for s := 0 to |users[a].orders|
        invariant Built(bids, true, users, a, s) && Built(asks, false, users, a, s)
      {
        var order := users[a].orders[s];
        BuildOrder(bids, true, users, a, s);
        BuildOrder(asks, false, users, a, s);
        hide Built;
        if order.IsOpen() && order.orderType == Limit && order.amount - order.filled > 0 {
          if order.direction == Long {
            bids := Count(bids, order);
          } else {
            asks := Count(asks, order);
          }
        }
      }
      BuildUser(bids, true, users, a);
      BuildUser(asks, false, users, a);
    }
    assert users[..|users|] == users;
  }

  // ------------------------------------------------------------ levels

  datatype Level = Level(price: u64, size: int)

  predicate Better(a: u64, b: u64, descending: bool) { if descending then a > b else a < b }

  /** Prices strictly from best to worst. */
  ghost predicate Ordered(levels: seq<Level>, descending: bool) {
    forall a, b :: 0 <= a < b < |levels| ==> Better(levels[a].price, levels[b].price, descending)
  }

  /** `best` comes before every other price. */
  predicate Best(prices: set<u64>, best: u64, descending: bool) {
    best in prices && forall p :: p in prices && p != best ==> Better(best, p, descending)
  }

  lemma {:induction false} BestExists(prices: set<u64>, descending: bool)
    requires prices != {}
    ensures exists best :: Best(prices, best, descending)
    decreases |prices|
  {
    var some :| some in prices;
    var rest := prices - {some};
    if rest == {} {
      assert prices == {some};
      assert Best(prices, some, descending);
    } else {
      BestExists(rest, descending);
      var best :| Best(rest, best, descending);
      var winner := if Better(best, some, descending) then best else some;
      forall p | p in prices && p != winner
        ensures Better(winner, p, descending)
      {
        if p != some { assert p in rest; }
      }
      assert Best(prices, winner, descending);
    }
  }

  function BestPrice(prices: set<u64>, descending: bool): (best: u64)
    requires prices != {}
    ensures Best(prices, best, descending)
  {
    BestExists(prices, descending);
    var best :| Best(prices, best, descending);
    best
  }

  /** The levels of one side, best first. */
  function LevelsOf(book: Levels, descending: bool): seq<Level>
    decreases |book.Keys|
  {
    if book == map[] then []
    else
      var best := BestPrice(book.Keys, descending);
      assert (book - {best}).Keys == book.Keys - {best};
      [Level(best, book[best])] + LevelsOf(book - {best}, descending)
  }

  /** One level for each price of the book, strictly ordered, and no other. */
  ghost predicate Lists(levels: seq<Level>, book: Levels, descending: bool) {
    && Ordered(levels, descending)
    && (forall n :: 0 <= n < |levels| ==> levels[n].price in book && levels[n].size == book[levels[n].price])
    && (forall price :: price in book ==> Level(price, book[price]) in levels)
  }

  lemma {:induction false} LevelsExact(book: Levels, descending: bool)
    ensures Lists(LevelsOf(book, descending), book, descending)
    decreases |book.Keys|
  {
    if book == map[] {
    } else {
      var best := BestPrice(book.Keys, descending);
      assert (book - {best}).Keys == book.Keys - {best};
      LevelsExact(book - {best}, descending);
      BestFirst(book, best, LevelsOf(book - {best}, descending), descending);
    }
  }

  lemma BestFirst(book: Levels, best: u64, tail: seq<Level>, descending: bool)
    requires Best(book.Keys, best, descending) && Lists(tail, book - {best}, descending)
    ensures Lists([Level(best, book[best])] + tail, book, descending)
  {
    var rest := book - {best};
    var levels := [Level(best, book[best])] + tail;
    forall price | price in book
      ensures Level(price, book[price]) in levels
    {
      if price != best { assert price in rest && Level(price, rest[price]) in tail; }
    }
    forall n | 0 < n < |levels|
      ensures levels[n] == tail[n - 1] && levels[n].price in rest && Better(best, levels[n].price, descending)
    {
      assert tail[n - 1].price in rest;
    }
  }

  function ToLevels(sides: Sides, k: u16, descending: bool): seq<Level> {
    if k in sides then LevelsOf(sides[k], descending) else []
  }

  /** A list of levels shows a side of the book: strictly ordered, no empty level, and at
      every price exactly the depth there. */
  ghost predicate Shows(levels: seq<Level>, users: seq<User>, k: u16, long: bool) {
    && Ordered(levels, long)
    && (forall n :: 0 <= n < |levels| ==>
          levels[n].size > 0 && levels[n].size == Depth(users, k, long, levels[n].price))
    && (forall price: u64 :: Depth(users, k, long, price) > 0 ==>
          exists n :: 0 <= n < |levels| && levels[n].price == price)
  }

  lemma ToLevelsShows(sides: Sides, users: seq<User>, k: u16, long: bool)
    requires NoEmptyLevel(sides)
    requires forall price: u64 :: Resting(sides, k, price) == Depth(users, k, long, price)
    ensures Shows(ToLevels(sides, k, long), users, k, long)
  {
    hide Depth;
    var levels := ToLevels(sides, k, long);
    if k in sides { LevelsExact(sides[k], long); }
    hide LevelsOf;
    forall n | 0 <= n < |levels|
      ensures levels[n].size > 0 && levels[n].size == Depth(users, k, long, levels[n].price)
    {
      assert Resting(sides, k, levels[n].price) == levels[n].size;
    }
    forall price: u64 | Depth(users, k, long, price) > 0
      ensures exists n :: 0 <= n < |levels| && levels[n].price == price
    {
      assert Resting(sides, k, price) > 0;
      assert Level(price, sides[k][price]) in levels;
    }
  }

  // ------------------------------------------------------------ the orders behind a level

  /** Slot `s` of account `a` rests on this side of market `k` with something left: open and limit,
      whether or not it may only reduce. */
  predicate RestsOn(users: seq<User>, k: int, long: bool, a: nat, s: nat) {
    && a < |users| && s < |users[a].orders|
    && var o := users[a].orders[s];
    && o.status == Open && o.orderType == Limit && o.marketIndex == k && o.amount > o.filled
    && (if long then o.direction == Long else o.direction == Short)
  }

  /** Every resting order is within a level of its price, every level has such an order, and the
      prices run strictly from best to worst. */
  ghost predicate ShowsOrders(levels: seq<Level>, users: seq<User>, k: int, long: bool) {
    && (forall a: nat, s: nat :: RestsOn(users, k, long, a, s) ==> Within(levels, users[a].orders[s]))
    && (forall n :: 0 <= n < |levels| ==> Backed(users, k, long, levels[n].price))
    && (forall n, m :: 0 <= n < m < |levels| ==>
          if long then levels[n].price > levels[m].price else levels[n].price < levels[m].price)
  }

  ghost predicate Within(levels: seq<Level>, o: Order) {
    exists n :: 0 <= n < |levels| && levels[n].price == o.price && levels[n].size >= o.amount - o.filled
  }

  ghost predicate Backed(users: seq<User>, k: int, long: bool, price: int) {
    exists a: nat, s: nat :: RestsOn(users, k, long, a, s) && users[a].orders[s].price == price
  }

  /** At a price where a single order rests, the level is what remains of it. */
  ghost predicate Alone(users: seq<User>, k: int, long: bool, a: nat, s: nat) {
    && RestsOn(users, k, long, a, s)
    && forall b: nat, t: nat ::
         RestsOn(users, k, long, b, t) && users[b].orders[t].price == users[a].orders[s].price ==> b == a && t == s
  }

  lemma DepthAtLeast(users: seq<User>, k: u16, long: bool, a: nat, s: nat)
    requires RestsOn(users, k, long, a, s)
    ensures var o := users[a].orders[s];
      Depth(users, k, long, o.price) >= o.amount - o.filled > 0
  {
    var o := users[a].orders[s];
    var f := SizeAt(k, long, o.price);
    assert f(o) == o.amount - o.filled;
    SumBound(users[a].orders, s, f);
    forall b | 0 <= b < |users|
      ensures UserDepth(k, long, o.price)(users[b]) >= 0
    {
      SizesNatural(users[b].orders, k, long, o.price);
    }
    SumBound(users, a, UserDepth(k, long, o.price));
  }

  lemma {:induction false} SizesNatural(os: seq<Order>, k: u16, long: bool, price: u64)
    ensures Sum(os, SizeAt(k, long, price)) >= 0
  {
    if os == [] {
    } else {
      SizesNatural(os[..|os| - 1], k, long, price);
    }
  }

  lemma DepthBacked(users: seq<User>, k: u16, long: bool, price: u64)
    requires Depth(users, k, long, price) > 0
    ensures Backed(users, k, long, price)
  {
    if forall a :: 0 <= a < |users| ==> UserDepth(k, long, price)(users[a]) == 0 {
      ZeroSum(users, UserDepth(k, long, price));
      assert false;
    }
    var a :| 0 <= a < |users| && UserDepth(k, long, price)(users[a]) != 0;
    var os := users[a].orders;
    if forall s :: 0 <= s < |os| ==> SizeAt(k, long, price)(os[s]) == 0 {
      ZeroSum(os, SizeAt(k, long, price));
      assert false;
    }
    var s :| 0 <= s < |os| && SizeAt(k, long, price)(os[s]) != 0;
    assert RestsOn(users, k, long, a, s);
  }

  /** One order alone at its price is all of the depth there. */
  lemma DepthAlone(users: seq<User>, k: u16, long: bool, a: nat, s: nat)
    requires Alone(users, k, long, a, s)
    ensures var o := users[a].orders[s];
      Depth(users, k, long, o.price) == o.amount - o.filled
  {
    var o := users[a].orders[s];
    var f, g := SizeAt(k, long, o.price), UserDepth(k, long, o.price);
    forall b, t | 0 <= b < |users| && 0 <= t < |users[b].orders| && (b != a || t != s)
      ensures f(users[b].orders[t]) == 0
    {
      assert !(RestsOn(users, k, long, b, t) && users[b].orders[t].price == o.price);
    }
    OnlyTerm(users[a].orders, s, f);
    forall b | 0 <= b < |users| && b != a
      ensures g(users[b]) == 0
    {
      ZeroSum(users[b].orders, f);
    }
    OnlyTerm(users, a, g);
  }

  lemma ShownOrders(levels: seq<Level>, users: seq<User>, k: u16, long: bool)
    requires Shows(levels, users, k, long)
    ensures ShowsOrders(levels, users, k, long)
  {
    hide Depth;
    forall a: nat, s: nat | RestsOn(users, k, long, a, s)
      ensures Within(levels, users[a].orders[s])
    {
      DepthAtLeast(users, k, long, a, s);
    }
    forall n | 0 <= n < |levels|
      ensures Backed(users, k, long, levels[n].price)
    {
      DepthBacked(users, k, long, levels[n].price);
    }
    hide RestsOn, Backed, Within;
  }

  /** The level of an order alone at its price shows exactly what remains of it. */
  lemma ShownAlone(levels: seq<Level>, users: seq<User>, k: u16, long: bool, a: nat, s: nat)
    requires Shows(levels, users, k, long) && Alone(users, k, long, a, s)
    ensures Level(users[a].orders[s].price, users[a].orders[s].amount - users[a].orders[s].filled) in levels
  {
    var o := users[a].orders[s];
    DepthAlone(users, k, long, a, s);
    hide Depth;
    var n :| 0 <= n < |levels| && levels[n].price == o.price;
    assert levels[n] == Level(o.price, o.amount - o.filled);
  }

  datatype L2 = L2(marketIndex: u16, bids: seq<Level>, asks: seq<Level>)

  ghost predicate ShowsBoth(book: L2, users: seq<User>) {
    Shows(book.bids, users, book.marketIndex, true) && Shows(book.asks, users, book.marketIndex, false)
  }

  /** One book for each market that has a level on either side. */
  method ListBooks(bids: Sides, asks: Sides) returns (books: map<u16, L2>)
    ensures books.Keys == bids.Keys + asks.Keys
    ensures forall k :: k in books ==> books[k] == L2(k, ToLevels(bids, k, true), ToLevels(asks, k, false))
  {
    hide *;
    books := map[];
    var todo := bids.Keys + asks.Keys;
    while todo != {}
      invariant todo <= bids.Keys + asks.Keys && books.Keys + todo == bids.Keys + asks.Keys
      invariant forall k :: k in books ==> books[k] == L2(k, ToLevels(bids, k, true), ToLevels(asks, k, false))
      decreases |todo|
    {
      var k :| k in todo;
      books := books[k := L2(k, ToLevels(bids, k, true), ToLevels(asks, k, false))];
      todo := todo - {k};
    }
  }

  /** The books of every market with resting orders, and of no other market. */
  method BuildBooks(users: seq<User>) returns (books: map<u16, L2>)
    ensures forall k :: k in books ==> books[k].marketIndex == k && ShowsBoth(books[k], users)
    ensures forall k: u16 ::
      k in books <==> exists price: u64 :: Depth(users, k, true, price) > 0 || Depth(users, k, false, price) > 0
    ensures forall k :: k in books ==>
      ShowsOrders(books[k].bids, users, k, true) && ShowsOrders(books[k].asks, users, k, false)
  {
    var bids, asks := BuildSides(users);
    books := ListBooks(bids, asks);
    hide *;
    forall k: u16 { SideShows(bids, asks, users, k); }
    BooksShow(books, users);
  }

  lemma BooksShow(books: map<u16, L2>, users: seq<User>)
    requires forall k :: k in books ==> books[k].marketIndex == k && ShowsBoth(books[k], users)
    ensures forall k :: k in books ==>
      ShowsOrders(books[k].bids, users, k, true) && ShowsOrders(books[k].asks, users, k, false)
  {
    hide Shows, ShowsOrders;
    forall k | k in books
      ensures ShowsOrders(books[k].bids, users, k, true) && ShowsOrders(books[k].asks, users, k, false)
    {
      ShownOrders(books[k].bids, users, k, true);
      ShownOrders(books[k].asks, users, k, false);
    }
  }

  lemma SideShows(bids: Sides, asks: Sides, users: seq<User>, k: u16)
    requires NoEmptyLevel(bids) && NoEmptyLevel(asks)
    requires forall price: u64 :: Resting(bids, k, price) == Depth(users, k, true, price)
    requires forall price: u64 :: Resting(asks, k, price) == Depth(users, k, false, price)
    ensures ShowsBoth(L2(k, ToLevels(bids, k, true), ToLevels(asks, k, false)), users)
    ensures k in bids.Keys + asks.Keys
      <==> exists price: u64 :: Depth(users, k, true, price) > 0 || Depth(users, k, false, price) > 0
  {
    ToLevelsShows(bids, users, k, true);
    ToLevelsShows(asks, users, k, false);
    hide Depth, Shows, NoEmptyLevel;
    ListedIff(bids, asks, users, k);
  }

  lemma ListedIff(bids: Sides, asks: Sides, users: seq<User>, k: u16)
    requires NoEmptyLevel(bids) && NoEmptyLevel(asks)
    requires forall price: u64 :: Resting(bids, k, price) == Depth(users, k, true, price)
    requires forall price: u64 :: Resting(asks, k, price) == Depth(users, k, false, price)
    ensures k in bids.Keys + asks.Keys
      <==> exists price: u64 :: Depth(users, k, true, price) > 0 || Depth(users, k, false, price) > 0
  {
    hide Depth;
    if k in bids {
      var price :| price in bids[k];
      assert Resting(bids, k, price) > 0;
    }
    if k in asks {
      var price :| price in asks[k];
      assert Resting(asks, k, price) > 0;
    }
    if price: u64 :| Depth(users, k, true, price) > 0 || Depth(users, k, false, price) > 0 {
      assert Resting(bids, k, price) > 0 || Resting(asks, k, price) > 0;
    }
  }

  // ------------------------------------------------------------ determined by the orders

  /** The depth does not depend on the order of the accounts. */
  lemma DepthPermutes(users: seq<User>, others: seq<User>, k: u16, long: bool, price: u64)
    requires multiset(users) == multiset(others)
    ensures Depth(users, k, long, price) == Depth(others, k, long, price)
  {
    SumPermutation(users, others, UserDepth(k, long, price));
  }

  /** Two lists showing the same side, from the accounts in any two orders, are the same. */
  lemma BookIsUnique(xs: seq<Level>, ys: seq<Level>, users: seq<User>, others: seq<User>, k: u16, long: bool)
    requires multiset(users) == multiset(others)
    requires Shows(xs, users, k, long) && Shows(ys, others, k, long)
    ensures xs == ys
  {
    forall price: u64
      ensures Depth(users, k, long, price) == Depth(others, k, long, price)
    {
      DepthPermutes(users, others, k, long, price);
    }
    hide Depth;
    forall n | 0 <= n < |xs|
      ensures xs[n] in ys
    {
      assert Depth(others, k, long, xs[n].price) > 0;
      var m :| 0 <= m < |ys| && ys[m].price == xs[n].price;
      assert ys[m] == xs[n];
    }
    forall n | 0 <= n < |ys|
      ensures ys[n] in xs
    {
      assert Depth(users, k, long, ys[n].price) > 0;
      var m :| 0 <= m < |xs| && xs[m].price == ys[n].price;
      assert xs[m] == ys[n];
    }
    SameLevels(xs, ys, long);
  }

  /** Strictly ordered lists with the same elements are equal. */
  lemma {:induction false} SameLevels(xs: seq<Level>, ys: seq<Level>, descending: bool)
    requires Ordered(xs, descending) && Ordered(ys, descending)
    requires forall n :: 0 <= n < |xs| ==> xs[n] in ys
    requires forall n :: 0 <= n < |ys| ==> ys[n] in xs
    ensures xs == ys
    decreases |xs|
  {
    if xs == [] {
      assert First(ys).None?;
    } else {
      SameHead(xs, ys, descending);
      SameTail(xs, ys, descending);
      SameTail(ys, xs, descending);
      SameLevels(xs[1..], ys[1..], descending);
      assert xs == [xs[0]] + xs[1..] && ys == [ys[0]] + ys[1..];
    }
  }

  function First(levels: seq<Level>): Option<Level> { if levels == [] then None else Some(levels[0]) }

  lemma SameHead(xs: seq<Level>, ys: seq<Level>, descending: bool)
    requires Ordered(xs, descending) && Ordered(ys, descending)
    requires xs != [] && xs[0] in ys && ys[0] in xs
    ensures ys != [] && xs[0] == ys[0]
  {
    var a :| 0 <= a < |ys| && ys[a] == xs[0];
    var b :| 0 <= b < |xs| && xs[b] == ys[0];
  }

  lemma SameTail(xs: seq<Level>, ys: seq<Level>, descending: bool)
    requires Ordered(xs, descending)
    requires xs != [] && ys != [] && xs[0] == ys[0]
    requires forall n :: 0 <= n < |xs| ==> xs[n] in ys
    ensures forall n :: 0 <= n < |xs[1..]| ==> xs[1..][n] in ys[1..]
  {
    forall n | 0 <= n < |xs[1..]|
      ensures xs[1..][n] in ys[1..]
    {
      assert xs[1..][n] == xs[n + 1] && Better(xs[0].price, xs[n + 1].price, descending);
      var m :| 0 <= m < |ys| && ys[m] == xs[n + 1];
      assert m > 0 && ys[1..][m - 1] == ys[m];
    }
  }

  // ------------------------------------------------------------ a match moves the book

  lemma ClearedSize(o: Order, size: u64, k: u16, long: bool, price: u64)
    requires o.IsOpen() && o.orderType == Limit && 0 < size <= o.Remaining()
    ensures SizeAt(k, long, price)(FillAndMaybeClear(o, size))
      == SizeAt(k, long, price)(o)
         - if o.marketIndex == k && (o.direction == Long) == long && o.price == price then size else 0
  {
    PartlyFilled(o, size);
  }

  /** The resting order of an account gives up exactly the matched size, at its price. */
  lemma UserDepthFalls(u: User, u': User, j: u16, id: u32, size: u64, k: u16, long: bool, price: u64)
    requires RestsLess(u, u', j, id, size)
    ensures var o := u.orders[FindOrder(u.orders, id).value];
      UserDepth(k, long, price)(u') == UserDepth(k, long, price)(u)
        - if j == k && (o.direction == Long) == long && o.price == price then size else 0
  {
    var slot := FindOrder(u.orders, id).value;
    ClearedSize(u.orders[slot], size, k, long, price);
    SumUpdate(u.orders, slot, FillAndMaybeClear(u.orders[slot], size), SizeAt(k, long, price));
  }

  /** A match as it shows in the order books of its two accounts. */
  lemma MatchRests(w: World, ix: Instruction, w': World) returns (size: u64)
    requires WorldOk(w) && ix.Match? && Step(w, ix) == Ok(w')
    ensures ix.taker < |w.users| && ix.maker < |w.users| && ix.taker != ix.maker
    ensures |w'.users| == |w.users|
    ensures w'.users == w.users[ix.taker := w'.users[ix.taker]][ix.maker := w'.users[ix.maker]]
    ensures RestsLess(w.users[ix.taker], w'.users[ix.taker], ix.market, ix.takerId, size)
    ensures RestsLess(w.users[ix.maker], w'.users[ix.maker], ix.market, ix.makerId, size)
    ensures OrderAt(w, ix.taker, ix.takerId).direction != OrderAt(w, ix.maker, ix.makerId).direction
    ensures Moved(w, ix, w', ix.taker) == size && Moved(w, ix, w', ix.maker) == size
  {
    var t, j, m := ix.taker, ix.maker, w.markets[ix.market];
    var f := FillMatch(w.config, w.users[t], w.users[j], t == j, m, ix.takerId, ix.makerId, ix.price).value;
    assert Bookkeeping.UserOk(w.users[t]) && Bookkeeping.UserOk(w.users[j]) && m.index == ix.market && t != j;
    var quote;
    size, quote := MatchFills(w.config, w.users[t], w.users[j], m, ix.takerId, ix.makerId, ix.price);
    assert w'.users == w.users[t := f.taker][j := f.maker];
    hide *;
    MatchedMoves(w, ix, w', size, quote);
  }

  lemma MatchedMoves(w: World, ix: Instruction, w': World, size: u64, quote: int)
    requires ix.Match? && ix.taker < |w.users| && ix.maker < |w.users| && |w'.users| == |w.users|
    requires PeerFill(w.users[ix.taker], w'.users[ix.taker], ix.market, ix.takerId, size, quote)
    requires PeerFill(w.users[ix.maker], w'.users[ix.maker], ix.market, ix.makerId, size, quote)
    requires Paired(OrderAt(w, ix.taker, ix.takerId), OrderAt(w, ix.maker, ix.makerId), quote, size)
    ensures Moved(w, ix, w', ix.taker) == size && Moved(w, ix, w', ix.maker) == size
    ensures OrderAt(w, ix.taker, ix.takerId).direction != OrderAt(w, ix.maker, ix.makerId).direction
  {
    hide FillsOrder, FindOrder, OrderAt;
  }

  function OrderAt(w: World, i: nat, id: u32): Order
    requires i < |w.users| && FindOrder(w.users[i].orders, id).Ok?
  {
    w.users[i].orders[FindOrder(w.users[i].orders, id).value]
  }

  /** What an order at a level loses when `b` of it trades. */
  function Taken(o: Order, j: u16, b: int, k: u16, long: bool, price: u64): int {
    if j == k && (o.direction == Long) == long && o.price == price then b else 0
  }

  /** A peer match of size `b` removes exactly `b` at the taker's price on the taker's side
      and `b` at the maker's price on the other side, and leaves every other level alone;
      `b` is the base both accounts' positions move by. */
  lemma MatchRemovesDepth(w: World, ix: Instruction, w': World, k: u16, long: bool, price: u64)
    requires WorldOk(w) && ix.Match? && Step(w, ix) == Ok(w')
    ensures ix.taker < |w.users| == |w'.users| && ix.maker < |w.users|
    ensures FindOrder(w.users[ix.taker].orders, ix.takerId).Ok? && FindOrder(w.users[ix.maker].orders, ix.makerId).Ok?
    ensures var taker, maker := OrderAt(w, ix.taker, ix.takerId), OrderAt(w, ix.maker, ix.makerId);
      var b := Moved(w, ix, w', ix.taker);
      && b == Moved(w, ix, w', ix.maker) > 0 && taker.direction != maker.direction
      && Depth(w'.users, k, long, price)
         == Depth(w.users, k, long, price)
            - Taken(taker, ix.market, b, k, long, price) - Taken(maker, ix.market, b, k, long, price)
  {
    var size := MatchRests(w, ix, w');
    hide WorldOk, Step, Moved;
    var t, j := ix.taker, ix.maker;
    UserDepthFalls(w.users[t], w'.users[t], ix.market, ix.takerId, size, k, long, price);
    UserDepthFalls(w.users[j], w'.users[j], ix.market, ix.makerId, size, k, long, price);
    hide FindOrder, UserDepth;
    SumUpdate(w.users, t, w'.users[t], UserDepth(k, long, price));
    SumUpdate(w.users[t := w'.users[t]], j, w'.users[j], UserDepth(k, long, price));
  }
}
