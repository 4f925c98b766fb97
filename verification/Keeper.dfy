/** The keeper's peer-matching pass: collect resting orders, then walk bids and asks. */
module Keeper {
  import opened Numbers
  import opened Sequences
  import opened Sorting
  import opened State
  import opened Instructions
  import opened Protocol
  import opened Ledger
  import opened Steps
  import opened Runs
  import opened OrderLife
  import opened OrderRuns

  /** A resting order as the keeper lists it; `authority` names its owner's account. */
  datatype Resting = Resting(authority: nat, orderId: u32, isLong: bool, price: u64)

  // ------------------------------------------------------------ collecting

  /** Open, non-reduce-only limit orders of active markets. */
  predicate Matchable(o: Order, markets: seq<Market>) {
    && o.IsOpen() && o.orderType == Limit && !o.reduceOnly
    && o.marketIndex < |markets| && markets[o.marketIndex].status == Active
  }

  function Entry(a: nat, o: Order): Resting {
    Resting(a, o.id, o.direction == Long, o.price)
  }

  /** What one more order slot adds to a market's list. */
  function Added(a: nat, o: Order, markets: seq<Market>, k: u16): seq<Resting> {
    if Matchable(o, markets) && o.marketIndex == k then [Entry(a, o)] else []
  }

  /** What one account rests in market `k`, in slot order. */
  function RestingOf(a: nat, os: seq<Order>, markets: seq<Market>, k: u16): seq<Resting> {
    if os == [] then []
    else
      var o := os[|os| - 1];
      RestingOf(a, os[..|os| - 1], markets, k) + Added(a, o, markets, k)
  }

  function RestingIn(users: seq<User>, markets: seq<Market>, k: u16): seq<Resting> {
    if users == [] then []
    else
      var n := |users| - 1;
      RestingIn(users[..n], markets, k) + RestingOf(n, users[n].orders, markets, k)
  }

  function ListOf(byMarket: map<u16, seq<Resting>>, k: u16): seq<Resting> {
    if k in byMarket then byMarket[k] else []
  }

  /** The lists hold what the first `a` accounts and `s` orders of the next one rest. */
  ghost predicate Gathered(byMarket: map<u16, seq<Resting>>, users: seq<User>, a: nat, s: nat, markets: seq<Market>)
    requires a <= |users| && (if a < |users| then s <= |users[a].orders| else s == 0)
  {
    && (forall k :: k in byMarket ==> byMarket[k] != [])
    && forall k: u16 :: ListOf(byMarket, k) == RestingIn(users[..a], markets, k)
         + if a < |users| then RestingOf(a, users[a].orders[..s], markets, k) else []
  }

  /** The lists after looking at one more order. */
  function Pushed(byMarket: map<u16, seq<Resting>>, a: nat, o: Order, markets: seq<Market>): map<u16, seq<Resting>> {
    if !Matchable(o, markets) then byMarket
    else byMarket[o.marketIndex := ListOf(byMarket, o.marketIndex) + [Entry(a, o)]]
  }

  lemma GatherOrder(byMarket: map<u16, seq<Resting>>, users: seq<User>, a: nat, s: nat, markets: seq<Market>)
    requires a < |users| && s < |users[a].orders| && Gathered(byMarket, users, a, s, markets)
    ensures Gathered(Pushed(byMarket, a, users[a].orders[s], markets), users, a, s + 1, markets)
  {
    forall k: u16 { GatherAt(byMarket, users, a, s, markets, k); }
    PushKeeps(byMarket, a, users[a].orders[s], markets);
    hide Pushed, RestingIn, RestingOf, ListOf;
  }

  lemma {:induction false} GatherAt(byMarket: map<u16, seq<Resting>>, users: seq<User>, a: nat, s: nat,
                                    markets: seq<Market>, k: u16)
    requires a < |users| && s < |users[a].orders| && Gathered(byMarket, users, a, s, markets)
    ensures var orders := users[a].orders;
      ListOf(Pushed(byMarket, a, orders[s], markets), k)
        == RestingIn(users[..a], markets, k) + RestingOf(a, orders[..s + 1], markets, k)
  {
    assert ListOf(byMarket, k) == RestingIn(users[..a], markets, k) + RestingOf(a, users[a].orders[..s], markets, k);
    hide *;
    OneMore(a, users[a].orders, s, markets, k);
    PushOne(byMarket, a, users[a].orders[s], markets, k);
  }

  /** Pushing an order onto its market's list adds exactly that order. */
  lemma PushOne(byMarket: map<u16, seq<Resting>>, a: nat, o: Order, markets: seq<Market>, k: u16)
    ensures ListOf(Pushed(byMarket, a, o, markets), k) == ListOf(byMarket, k) + Added(a, o, markets, k)
  {
    hide Matchable, Entry;
  }

  lemma PushKeeps(byMarket: map<u16, seq<Resting>>, a: nat, o: Order, markets: seq<Market>)
    requires forall k :: k in byMarket ==> byMarket[k] != []
    ensures var after := Pushed(byMarket, a, o, markets);
      forall k :: k in after ==> after[k] != []
  {
    hide Matchable, Entry;
  }

  lemma {:induction false} OneMore(a: nat, os: seq<Order>, s: nat, markets: seq<Market>, k: u16)
    requires s < |os|
    ensures RestingOf(a, os[..s + 1], markets, k) == RestingOf(a, os[..s], markets, k) + Added(a, os[s], markets, k)
  {
    assert os[..s + 1][..s] == os[..s];
  }

  lemma GatherUser(byMarket: map<u16, seq<Resting>>, users: seq<User>, a: nat, markets: seq<Market>)
    requires a < |users| && Gathered(byMarket, users, a, |users[a].orders|, markets)
    ensures Gathered(byMarket, users, a + 1, 0, markets)
  {
    var orders := users[a].orders;
    assert orders[..|orders|] == orders;
    assert users[..a + 1][..a] == users[..a];
    if a + 1 < |users| { assert users[a + 1].orders[..0] == []; }
    forall k: u16
      ensures ListOf(byMarket, k) == RestingIn(users[..a + 1], markets, k)
    {
      assert RestingIn(users[..a + 1], markets, k)
        == RestingIn(users[..a], markets, k) + RestingOf(a, orders, markets, k);
    }
  }

  /** Every listed order is an order of its account. */
  ghost predicate ListedFrom(r: Resting, users: seq<User>, markets: seq<Market>, k: u16) {
    && r.authority < |users|
    && exists s :: 0 <= s < |users[r.authority].orders|
         && Matchable(users[r.authority].orders[s], markets) && users[r.authority].orders[s].marketIndex == k
         && r == Entry(r.authority, users[r.authority].orders[s])
  }

  lemma {:induction false} RestingOfIsListed(a: nat, os: seq<Order>, markets: seq<Market>, k: u16, r: Resting)
    requires r in RestingOf(a, os, markets, k)
    ensures exists s :: 0 <= s < |os| && Matchable(os[s], markets) && os[s].marketIndex == k && r == Entry(a, os[s])
  {
    var n := |os| - 1;
    if r in RestingOf(a, os[..n], markets, k) {
      RestingOfIsListed(a, os[..n], markets, k, r);
      var s :| 0 <= s < n && Matchable(os[..n][s], markets) && os[..n][s].marketIndex == k && r == Entry(a, os[..n][s]);
      assert os[s] == os[..n][s];
    } else {
      assert r == Entry(a, os[n]);
    }
  }

  lemma {:induction false} RestingIsListed(users: seq<User>, markets: seq<Market>, k: u16, r: Resting)
    requires r in RestingIn(users, markets, k)
    ensures ListedFrom(r, users, markets, k)
  {
    var n := |users| - 1;
    if r in RestingIn(users[..n], markets, k) {
      RestingIsListed(users[..n], markets, k, r);
      assert users[..n][r.authority] == users[r.authority];
    } else {
      RestingOfIsListed(n, users[n].orders, markets, k, r);
    }
  }

  // ------------------------------------------------------------ which orders are listed

  /** Slot `s` of account `a` rests an order of market `k` that the pass should see: open, limit,
      not reduce-only, in an active market, however much of it is filled. */
  predicate RestsAt(users: seq<User>, markets: seq<Market>, k: int, a: nat, s: nat) {
    && a < |users| && s < |users[a].orders| && 0 <= k < |markets| && markets[k].status == Active
    && var o := users[a].orders[s];
    && o.status == Open && o.orderType == Limit && !o.reduceOnly && o.marketIndex == k
  }

  /** The entry of a resting order, field by field. */
  predicate Shows(r: Resting, o: Order, a: nat) {
    r.authority == a && r.orderId == o.id && r.price == o.price && (r.isLong <==> o.direction == Long)
  }

  lemma {:induction false} OrderListed(a: nat, os: seq<Order>, markets: seq<Market>, k: u16, s: nat)
    requires s < |os| && Matchable(os[s], markets) && os[s].marketIndex == k
    ensures Entry(a, os[s]) in RestingOf(a, os, markets, k)
  {
    var n := |os| - 1;
    if s < n {
      OrderListed(a, os[..n], markets, k, s);
      assert os[..n][s] == os[s];
    } else {
      assert Entry(a, os[n]) in Added(a, os[n], markets, k);
    }
  }

  lemma {:induction false} UserListed(users: seq<User>, markets: seq<Market>, k: u16, a: nat, r: Resting)
    requires a < |users| && r in RestingOf(a, users[a].orders, markets, k)
    ensures r in RestingIn(users, markets, k)
  {
    var n := |users| - 1;
    if a < n {
      assert users[..n][a] == users[a];
      UserListed(users[..n], markets, k, a, r);
    } else {
    }
  }

  /** The entry is that of an order resting in the market. */
  ghost predicate RestsAs(users: seq<User>, markets: seq<Market>, k: int, r: Resting) {
    exists s: nat :: RestsAt(users, markets, k, r.authority, s) && Shows(r, users[r.authority].orders[s], r.authority)
  }

  /** The list of a market holds exactly the entries of the orders that rest there. */
  lemma {:induction false} ListedIff(users: seq<User>, markets: seq<Market>, k: u16, r: Resting)
    ensures r in RestingIn(users, markets, k) <==> RestsAs(users, markets, k, r)
  {
    if r in RestingIn(users, markets, k) {
      RestingIsListed(users, markets, k, r);
      var s :| 0 <= s < |users[r.authority].orders|
               && Matchable(users[r.authority].orders[s], markets) && users[r.authority].orders[s].marketIndex == k
               && r == Entry(r.authority, users[r.authority].orders[s]);
      assert RestsAt(users, markets, k, r.authority, s);
    }
    if s: nat :| RestsAt(users, markets, k, r.authority, s) && Shows(r, users[r.authority].orders[s], r.authority) {
      OrderListed(r.authority, users[r.authority].orders, markets, k, s);
      assert r == Entry(r.authority, users[r.authority].orders[s]);
      UserListed(users, markets, k, r.authority, r);
    }
  }

  /** The collecting loops gather, per market, every matchable order in account order. */
  method CollectResting(users: seq<User>, markets: seq<Market>) returns (byMarket: map<u16, seq<Resting>>)
    ensures forall k: u16 :: ListOf(byMarket, k) == RestingIn(users, markets, k)
    ensures forall k: u16, r :: r in ListOf(byMarket, k) <==> RestsAs(users, markets, k, r)
    ensures forall k :: k in byMarket ==> byMarket[k] != []
  {
    byMarket := map[];
    for a := 0 to |users|
      invariant Gathered(byMarket, users, a, 0, markets)
    {
      for s := 0 to |users[a].orders|
        invariant Gathered(byMarket, users, a, s, markets)
      {
        var order := users[a].orders[s];
        GatherOrder(byMarket, users, a, s, markets);
        if Matchable(order, markets) {
          var list := ListOf(byMarket, order.marketIndex);
          byMarket := byMarket[order.marketIndex := list + [Entry(a, order)]];
        }
      }
      GatherUser(byMarket, users, a, markets);
    }
    assert users[..|users|] == users;
    forall k: u16, r { ListedIff(users, markets, k, r); }
  }

  // ------------------------------------------------------------ sorting

  function PriceOf(): Resting -> int { (r: Resting) => r.price }
  function NegPriceOf(): Resting -> int { (r: Resting) => 0 - r.price }

  function Side(orders: seq<Resting>, long: bool): (r: seq<Resting>)
    ensures forall x :: x in r <==> x in orders && x.isLong == long
  {
    if orders == [] then []
    else
      var n := |orders| - 1;
      assert orders == orders[..n] + [orders[n]];
      Side(orders[..n], long) + if orders[n].isLong == long then [orders[n]] else []
  }

  /** Sorting promises no more than a sorted permutation: ties come in any order. */
  method SortBids(orders: seq<Resting>) returns (bids: seq<Resting>)
    ensures multiset(bids) == multiset(Side(orders, true)) && SortedBy(bids, NegPriceOf())
  {
    bids := SortBy(Side(orders, true), NegPriceOf());
  }

  method SortAsks(orders: seq<Resting>) returns (asks: seq<Resting>)
    ensures multiset(asks) == multiset(Side(orders, false)) && SortedBy(asks, PriceOf())
  {
    asks := SortBy(Side(orders, false), PriceOf());
  }

  // ------------------------------------------------------------ crossing

  /** A submitted match: indices of a bid and an ask. */
  datatype Cross = Cross(bid: nat, ask: nat)

  /** Matches are submitted in increasing order of both sides. */
  ghost predicate Increasing(pairs: seq<Cross>, i: nat, j: nat) {
    && (forall a :: 0 <= a < |pairs| ==> pairs[a].bid < i && pairs[a].ask < j)
    && (forall a, b :: 0 <= a < b < |pairs| ==> pairs[a].bid < pairs[b].bid && pairs[a].ask < pairs[b].ask)
  }

  predicate Compatible(bid: Resting, ask: Resting) {
    bid.authority != ask.authority && bid.price >= ask.price
  }

  ghost predicate AskUsed(pairs: seq<Cross>, b: nat) { exists a :: 0 <= a < |pairs| && pairs[a].ask == b }
  ghost predicate BidUsed(pairs: seq<Cross>, b: nat) { exists a :: 0 <= a < |pairs| && pairs[a].bid == b }

  /** The owner of an ask has a bid among those up to `i`. */
  ghost predicate OwnerBids(bids: seq<Resting>, i: nat, ask: Resting) {
    exists a :: 0 <= a <= i && a < |bids| && bids[a].authority == ask.authority
  }

  lemma OwnerStillBids(bids: seq<Resting>, i: nat, ask: Resting)
    ensures OwnerBids(bids, i, ask) ==> OwnerBids(bids, i + 1, ask)
  {
  }

  /** What the two-index loop submits from bid `i` and ask `j` on. */
  function Crossing(bids: seq<Resting>, asks: seq<Resting>, i: nat, j: nat): (pairs: seq<Cross>)
    ensures forall n :: 0 <= n < |pairs| ==> pairs[n].bid < |bids| && pairs[n].ask < |asks|
    decreases |asks| - j
  {
    if i >= |bids| || j >= |asks| then []
    else if bids[i].authority == asks[j].authority then Crossing(bids, asks, i, j + 1)
    else if bids[i].price < asks[j].price then []
    else [Cross(i, j)] + Crossing(bids, asks, i + 1, j + 1)
  }

  /** The loop has used each order at most once and paired only crossing orders of different
      owners; every bid before `i` is used, every ask before `j` is used or has the owner of
      some bid up to `i`. */
  ghost predicate Walked(bids: seq<Resting>, asks: seq<Resting>, pairs: seq<Cross>, i: nat, j: nat) {
    && i <= |bids| && j <= |asks| && Increasing(pairs, i, j)
    && (forall a :: 0 <= a < |pairs| ==> Compatible(bids[pairs[a].bid], asks[pairs[a].ask]))
    && (forall a: nat :: a < i ==> BidUsed(pairs, a))
    && (forall b: nat :: b < j ==> AskUsed(pairs, b) || OwnerBids(bids, i, asks[b]))
  }

  /** Past `i` and `j` nothing crosses. */
  ghost predicate Exhausted(bids: seq<Resting>, asks: seq<Resting>, i: nat, j: nat) {
    forall a, b :: i <= a < |bids| && j <= b < |asks| ==> bids[a].price < asks[b].price
  }

  lemma PairStep(bids: seq<Resting>, asks: seq<Resting>, pairs: seq<Cross>, i: nat, j: nat)
    requires Walked(bids, asks, pairs, i, j) && i < |bids| && j < |asks| && Compatible(bids[i], asks[j])
    ensures Walked(bids, asks, pairs + [Cross(i, j)], i + 1, j + 1)
  {
    hide OwnerBids, BidUsed, AskUsed;
    StillUsed(pairs, Cross(i, j));
    forall b: nat | b < j { OwnerStillBids(bids, i, asks[b]); }
  }

  lemma SkipStep(bids: seq<Resting>, asks: seq<Resting>, pairs: seq<Cross>, i: nat, j: nat)
    requires Walked(bids, asks, pairs, i, j) && i < |bids| && j < |asks| && bids[i].authority == asks[j].authority
    ensures Walked(bids, asks, pairs, i, j + 1)
  {
    hide BidUsed, AskUsed;
    OwnBid(bids, i, asks[j]);
    hide OwnerBids;
  }

  /** Finishing the loop from any point of it. */
  lemma {:induction false} CrossingWalks(bids: seq<Resting>, asks: seq<Resting>, before: seq<Cross>, i: nat, j: nat)
    returns (i': nat, j': nat)
    requires SortedBy(bids, NegPriceOf()) && SortedBy(asks, PriceOf()) && Walked(bids, asks, before, i, j)
    ensures Walked(bids, asks, before + Crossing(bids, asks, i, j), i', j') && Exhausted(bids, asks, i', j')
    decreases |asks| - j
  {
    hide Walked, Exhausted, SortedBy;
    if i >= |bids| || j >= |asks| {
      i', j' := i, j;
      assert before + [] == before;
      OneSideEmpty(bids, asks, i, j);
    } else if bids[i].authority == asks[j].authority {
      SkipStep(bids, asks, before, i, j);
      i', j' := CrossingWalks(bids, asks, before, i, j + 1);
    } else if bids[i].price < asks[j].price {
      i', j' := i, j;
      assert before + [] == before;
      NothingCrosses(bids, asks, i, j);
    } else {
      PairStep(bids, asks, before, i, j);
      i', j' := CrossingWalks(bids, asks, before + [Cross(i, j)], i + 1, j + 1);
      var rest := Crossing(bids, asks, i + 1, j + 1);
      assert before + ([Cross(i, j)] + rest) == before + [Cross(i, j)] + rest;
    }
  }

  lemma CrossingFacts(bids: seq<Resting>, asks: seq<Resting>) returns (i: nat, j: nat)
    requires SortedBy(bids, NegPriceOf()) && SortedBy(asks, PriceOf())
    ensures Walked(bids, asks, Crossing(bids, asks, 0, 0), i, j) && Exhausted(bids, asks, i, j)
  {
    hide Exhausted, SortedBy;
    i, j := CrossingWalks(bids, asks, [], 0, 0);
    assert [] + Crossing(bids, asks, 0, 0) == Crossing(bids, asks, 0, 0);
  }

  /** The two-index loop: it ends, and where it ends nothing beyond crosses. */
  method CrossBook(bids: seq<Resting>, asks: seq<Resting>) returns (pairs: seq<Cross>)
    requires SortedBy(bids, NegPriceOf()) && SortedBy(asks, PriceOf())
    ensures pairs == Crossing(bids, asks, 0, 0)
    ensures exists i: nat, j: nat :: Walked(bids, asks, pairs, i, j) && Exhausted(bids, asks, i, j)
  {
    hide Walked, Exhausted, SortedBy;
    var i, j := 0, 0;
    pairs := [];
    while i < |bids| && j < |asks|
      invariant Crossing(bids, asks, 0, 0) == pairs + Crossing(bids, asks, i, j)
      decreases |asks| - j
    {
      var bid, ask := bids[i], asks[j];
      if bid.authority == ask.authority {
        j := j + 1;
        continue;
      }
      if bid.price < ask.price {
        break;
      }
      ghost var rest := Crossing(bids, asks, i + 1, j + 1);
      assert Crossing(bids, asks, i, j) == [Cross(i, j)] + rest;
      hide Crossing;
      assert pairs + ([Cross(i, j)] + rest) == (pairs + [Cross(i, j)]) + rest;
      pairs := pairs + [Cross(i, j)];
      i, j := i + 1, j + 1;
    }
    var lastBid, lastAsk := CrossingFacts(bids, asks);
  }

  lemma OwnBid(bids: seq<Resting>, i: nat, ask: Resting)
    requires i < |bids| && bids[i].authority == ask.authority
    ensures OwnerBids(bids, i, ask)
  {
  }

  /** Once the best bid left is below the best ask left, nothing left crosses. */
  lemma NothingCrosses(bids: seq<Resting>, asks: seq<Resting>, i: nat, j: nat)
    requires SortedBy(bids, NegPriceOf()) && SortedBy(asks, PriceOf())
    requires i < |bids| && j < |asks| && bids[i].price < asks[j].price
    ensures Exhausted(bids, asks, i, j)
  {
    forall a, b | i <= a < |bids| && j <= b < |asks|
      ensures bids[a].price < asks[b].price
    {
      assert NegPriceOf()(bids[i]) <= NegPriceOf()(bids[a]) && PriceOf()(asks[j]) <= PriceOf()(asks[b]);
    }
  }

  lemma OneSideEmpty(bids: seq<Resting>, asks: seq<Resting>, i: nat, j: nat)
    requires i >= |bids| || j >= |asks|
    ensures Exhausted(bids, asks, i, j)
  {
  }

  lemma StillUsed(pairs: seq<Cross>, c: Cross)
    ensures var more := pairs + [c];
      && BidUsed(more, c.bid) && AskUsed(more, c.ask)
      && (forall a: nat :: BidUsed(pairs, a) ==> BidUsed(more, a))
      && (forall b: nat :: AskUsed(pairs, b) ==> AskUsed(more, b))
  {
    var more := pairs + [c];
    assert more[|pairs|] == c;
    forall a: nat | BidUsed(pairs, a)
      ensures BidUsed(more, a)
    {
      var x :| 0 <= x < |pairs| && pairs[x].bid == a;
      assert more[x].bid == a;
    }
    forall b: nat | AskUsed(pairs, b)
      ensures AskUsed(more, b)
    {
      var x :| 0 <= x < |pairs| && pairs[x].ask == b;
      assert more[x].ask == b;
    }
  }

  /** A skipped ask can leave a crossing pair behind: the owner of the best bid also rests
      the only ask, and the second bid, which crosses that ask, is never tried. */
  method SkippedAskLeavesCross() returns (bids: seq<Resting>, asks: seq<Resting>, pairs: seq<Cross>)
    ensures SortedBy(bids, NegPriceOf()) && SortedBy(asks, PriceOf())
    ensures exists a, b :: 0 <= a < |bids| && 0 <= b < |asks| && Compatible(bids[a], asks[b])
                           && !BidUsed(pairs, a) && !AskUsed(pairs, b)
  {
    bids := [Resting(0, 1, true, 10), Resting(1, 1, true, 9)];
    asks := [Resting(0, 2, false, 8)];
    pairs := CrossBook(bids, asks);
    assert Crossing(bids, asks, 0, 1) == [];
    assert Compatible(bids[1], asks[0]);
  }

  /** Both sides as some sort may order them. */
  ghost predicate SortsTo(orders: seq<Resting>, bids: seq<Resting>, asks: seq<Resting>) {
    && multiset(bids) == multiset(Side(orders, true)) && SortedBy(bids, NegPriceOf())
    && multiset(asks) == multiset(Side(orders, false)) && SortedBy(asks, PriceOf())
  }

  /** The loop leaves no crossing pair of different owners with both orders unused. */
  ghost predicate Complete(bids: seq<Resting>, asks: seq<Resting>) {
    forall a, b :: 0 <= a < |bids| && 0 <= b < |asks| && Compatible(bids[a], asks[b]) ==>
      BidUsed(Crossing(bids, asks, 0, 0), a) || AskUsed(Crossing(bids, asks, 0, 0), b)
  }

  /** The same orders of the same owners at other prices. */
  ghost predicate Repriced(priced: seq<Resting>, orders: seq<Resting>) {
    |priced| == |orders|
    && forall n :: 0 <= n < |orders| ==> priced[n] == orders[n].(price := priced[n].price)
  }

  /** Order `bid` and order `ask` have one owner, and order `other` is another owner's bid. */
  predicate StraddlesAt(orders: seq<Resting>, bid: nat, ask: nat, other: nat) {
    && bid < |orders| && ask < |orders| && other < |orders|
    && orders[bid].isLong && !orders[ask].isLong && orders[other].isLong
    && orders[bid].authority == orders[ask].authority != orders[other].authority
  }

  /** Somebody rests on both sides while somebody else bids. */
  ghost predicate Straddled(orders: seq<Resting>) {
    exists bid, ask, other :: StraddlesAt(orders, bid, ask, other)
  }

  /** Only the owner of an earlier bid can have an ask skipped. */
  lemma OwnerSkipped(bids: seq<Resting>, asks: seq<Resting>, a: nat, b: nat) returns (c: nat)
    requires SortedBy(bids, NegPriceOf()) && SortedBy(asks, PriceOf())
    requires a < |bids| && b < |asks| && Compatible(bids[a], asks[b])
    requires !BidUsed(Crossing(bids, asks, 0, 0), a) && !AskUsed(Crossing(bids, asks, 0, 0), b)
    ensures c < |bids| && bids[c].authority == asks[b].authority
  {
    hide SortedBy, Crossing, BidUsed, AskUsed, Increasing;
    var i, j := CrossingFacts(bids, asks);
    c :| 0 <= c <= i && c < |bids| && bids[c].authority == asks[b].authority;
  }

  lemma HiddenAt(priced: seq<Resting>, side: seq<Resting>, long: bool, a: nat) returns (n: nat)
    requires multiset(side) == multiset(Side(priced, long)) && a < |side|
    ensures n < |priced| && priced[n] == side[a] && priced[n].isLong == long
  {
    assert side[a] in multiset(side);
    assert side[a] in Side(priced, long);
    n :| 0 <= n < |priced| && priced[n] == side[a];
  }

  /** A listed bid or ask is one of the orders, up to its price. */
  lemma SideOrder(orders: seq<Resting>, priced: seq<Resting>, side: seq<Resting>, long: bool, a: nat)
    returns (n: nat)
    requires Repriced(priced, orders) && multiset(side) == multiset(Side(priced, long)) && a < |side|
    ensures n < |orders| && orders[n].isLong == long && orders[n].authority == side[a].authority
  {
    n := HiddenAt(priced, side, long, a);
  }

  lemma {:induction false} UnusedStraddled(orders: seq<Resting>, priced: seq<Resting>,
                                           bids: seq<Resting>, asks: seq<Resting>, a: nat, b: nat)
    requires Repriced(priced, orders) && SortsTo(priced, bids, asks)
    requires a < |bids| && b < |asks| && Compatible(bids[a], asks[b])
    requires !BidUsed(Crossing(bids, asks, 0, 0), a) && !AskUsed(Crossing(bids, asks, 0, 0), b)
    ensures Straddled(orders)
  {
    hide Side, SortedBy, Crossing, BidUsed, AskUsed, Repriced;
    var c := OwnerSkipped(bids, asks, a, b);
    var bid := SideOrder(orders, priced, bids, true, c);
    var ask := SideOrder(orders, priced, asks, false, b);
    var other := SideOrder(orders, priced, bids, true, a);
    assert StraddlesAt(orders, bid, ask, other);
  }

  lemma UnstraddledComplete(orders: seq<Resting>, priced: seq<Resting>,
                                               bids: seq<Resting>, asks: seq<Resting>)
    requires !Straddled(orders) && Repriced(priced, orders) && SortsTo(priced, bids, asks)
    ensures Complete(bids, asks)
  {
    hide Straddled, Repriced, SortsTo, Crossing;
    forall a, b | 0 <= a < |bids| && 0 <= b < |asks| && Compatible(bids[a], asks[b])
      ensures BidUsed(Crossing(bids, asks, 0, 0), a) || AskUsed(Crossing(bids, asks, 0, 0), b)
    {
      if !BidUsed(Crossing(bids, asks, 0, 0), a) && !AskUsed(Crossing(bids, asks, 0, 0), b) {
        UnusedStraddled(orders, priced, bids, asks, a, b);
      }
    }
  }

  /** The prices that hide a crossing pair: the straddling owner has the best bid and the best
      ask, and only the other bid crosses that ask. */
  function HidingPrice(n: nat, isLong: bool, bid: nat, ask: nat, other: nat): u64 {
    if n == bid then 10 else if n == other then 9 else if n == ask then 8 else if isLong then 1 else 100
  }

  function HidingBook(orders: seq<Resting>, bid: nat, ask: nat, other: nat): (priced: seq<Resting>)
    ensures Repriced(priced, orders)
    ensures forall n :: 0 <= n < |orders| ==> priced[n].price == HidingPrice(n, orders[n].isLong, bid, ask, other)
  {
    seq(|orders|,
        n requires 0 <= n < |orders| => orders[n].(price := HidingPrice(n, orders[n].isLong, bid, ask, other)))
  }

  /** While every ask left is the best bidder's own or above the best bid, nothing is submitted. */
  lemma {:induction false} NothingSubmitted(bids: seq<Resting>, asks: seq<Resting>, j: nat)
    requires bids != []
    requires forall b :: j <= b < |asks| ==> asks[b].authority == bids[0].authority || bids[0].price < asks[b].price
    ensures Crossing(bids, asks, 0, j) == []
    decreases |asks| - j
  {
    if j >= |asks| {
    } else if bids[0].authority == asks[j].authority {
      NothingSubmitted(bids, asks, j + 1);
    } else {
    }
  }

  lemma Listed(orders: seq<Resting>, side: seq<Resting>, long: bool, n: nat) returns (a: nat)
    requires multiset(side) == multiset(Side(orders, long)) && n < |orders| && orders[n].isLong == long
    ensures a < |side| && side[a] == orders[n]
  {
    assert orders[n] in Side(orders, long);
    assert orders[n] in multiset(side);
    a :| 0 <= a < |side| && side[a] == orders[n];
  }

  lemma BestFirst(bids: seq<Resting>, a: nat)
    requires SortedBy(bids, NegPriceOf()) && a < |bids|
    ensures bids[0].price >= bids[a].price
  {
    if a > 0 { assert NegPriceOf()(bids[0]) <= NegPriceOf()(bids[a]); }
  }

  lemma HidingBest(orders: seq<Resting>, priced: seq<Resting>, bids: seq<Resting>,
                                      asks: seq<Resting>,
                                      bid: nat, ask: nat, other: nat)
    requires StraddlesAt(orders, bid, ask, other) && priced == HidingBook(orders, bid, ask, other)
    requires SortsTo(priced, bids, asks)
    ensures bids != [] && bids[0].authority == orders[bid].authority && bids[0].price == 10
    ensures forall b :: 0 <= b < |asks| ==> asks[b].authority == orders[bid].authority || 10 < asks[b].price
  {
    hide SortedBy, Crossing, Side;
    var a := Listed(priced, bids, true, bid);
    assert bids[0].price >= 10 by { BestFirst(bids, a); }
    var n := HiddenAt(priced, bids, true, 0);
    forall b | 0 <= b < |asks|
      ensures asks[b].authority == orders[bid].authority || 10 < asks[b].price
    {
      var m := HiddenAt(priced, asks, false, b);
    }
  }

  lemma StraddledHides(orders: seq<Resting>, bid: nat, ask: nat, other: nat)
    returns (priced: seq<Resting>, bids: seq<Resting>, asks: seq<Resting>)
    requires StraddlesAt(orders, bid, ask, other)
    ensures Repriced(priced, orders) && SortsTo(priced, bids, asks) && !Complete(bids, asks)
  {
    hide SortedBy, Crossing, Side, Repriced;
    priced := HidingBook(orders, bid, ask, other);
    bids, asks := SortBy(Side(priced, true), NegPriceOf()), SortBy(Side(priced, false), PriceOf());
    hide SortBy;
    HidingBest(orders, priced, bids, asks, bid, ask, other);
    NothingSubmitted(bids, asks, 0);
    var a := Listed(priced, bids, true, other);
    var b := Listed(priced, asks, false, ask);
    hide HidingBook;
    assert Compatible(bids[a], asks[b]);
    assert !BidUsed(Crossing(bids, asks, 0, 0), a) && !AskUsed(Crossing(bids, asks, 0, 0), b);
  }

  /** Whatever the prices and the order of ties, the loop leaves no crossing pair of different
      owners: exactly when nobody rests on both sides while somebody else bids. */
  lemma OwnershipIff(orders: seq<Resting>)
    ensures !Straddled(orders) <==>
      forall priced, bids, asks :: Repriced(priced, orders) && SortsTo(priced, bids, asks) ==> Complete(bids, asks)
  {
    hide Repriced, SortsTo, Complete;
    if Straddled(orders) {
      var bid, ask, other :| StraddlesAt(orders, bid, ask, other);
      var priced, bids, asks := StraddledHides(orders, bid, ask, other);
    } else {
      forall priced, bids, asks | Repriced(priced, orders) && SortsTo(priced, bids, asks)
        ensures Complete(bids, asks)
      {
        UnstraddledComplete(orders, priced, bids, asks);
      }
    }
  }

  // ------------------------------------------------------------ the pass

  datatype Submission = Submission(bid: Resting, ask: Resting)

  function Bids(ms: seq<Submission>): (r: seq<Resting>)
    ensures |r| == |ms| && forall n :: 0 <= n < |ms| ==> r[n] == ms[n].bid
  {
    if ms == [] then [] else Bids(ms[..|ms| - 1]) + [ms[|ms| - 1].bid]
  }

  function Asks(ms: seq<Submission>): (r: seq<Resting>)
    ensures |r| == |ms| && forall n :: 0 <= n < |ms| ==> r[n] == ms[n].ask
  {
    if ms == [] then [] else Asks(ms[..|ms| - 1]) + [ms[|ms| - 1].ask]
  }

  /** Elements picked at increasing indices are each there as often as picked. */
  lemma {:induction false} PickedOnce(s: seq<Resting>, picked: seq<Resting>, at: seq<nat>)
    requires |picked| == |at|
    requires forall n :: 0 <= n < |at| ==> at[n] < |s| && picked[n] == s[at[n]]
    requires forall m, n :: 0 <= m < n < |at| ==> at[m] < at[n]
    ensures multiset(picked) <= multiset(s)
  {
    if picked == [] {
    } else {
      var n := |picked| - 1;
      var below := s[..at[n]];
      PickedOnce(below, picked[..n], at[..n]);
      assert picked == picked[..n] + [picked[n]];
      assert s == (below + [s[at[n]]]) + s[at[n] + 1..];
      assert multiset(below + [s[at[n]]]) <= multiset(s);
    }
  }

  /** What a pass may submit for one market: crossing orders of different owners, each
      order no more often than it rests. */
  ghost predicate SoundMatches(ms: seq<Submission>, orders: seq<Resting>) {
    && (forall n :: 0 <= n < |ms| ==> Compatible(ms[n].bid, ms[n].ask))
    && multiset(Bids(ms)) <= multiset(Side(orders, true))
    && multiset(Asks(ms)) <= multiset(Side(orders, false))
  }

  /** Unless the ask's owner also bids in this market, no crossing pair is left behind. */
  ghost predicate NothingLeft(ms: seq<Submission>, orders: seq<Resting>) {
    forall bid, ask :: bid in Side(orders, true) && ask in Side(orders, false) && bid.price >= ask.price
                       && bid !in Bids(ms) && ask !in Asks(ms) ==>
      exists own :: own in Side(orders, true) && own.authority == ask.authority
  }

  function Submissions(bids: seq<Resting>, asks: seq<Resting>, pairs: seq<Cross>): (ms: seq<Submission>)
    requires forall n :: 0 <= n < |pairs| ==> pairs[n].bid < |bids| && pairs[n].ask < |asks|
    ensures |ms| == |pairs|
    ensures forall n :: 0 <= n < |pairs| ==> ms[n] == Submission(bids[pairs[n].bid], asks[pairs[n].ask])
  {
    seq(|pairs|, n requires 0 <= n < |pairs| => Submission(bids[pairs[n].bid], asks[pairs[n].ask]))
  }

  lemma {:induction false} SubmissionsSound(orders: seq<Resting>, bids: seq<Resting>, asks: seq<Resting>)
    requires SortsTo(orders, bids, asks)
    ensures SoundMatches(Submissions(bids, asks, Crossing(bids, asks, 0, 0)), orders)
  {
    hide Side, Bids, Asks, SortedBy, Crossing, BidUsed, AskUsed, OwnerBids, Exhausted;
    var i, j := CrossingFacts(bids, asks);
    BidsOnce(bids, asks, Crossing(bids, asks, 0, 0));
    AsksOnce(bids, asks, Crossing(bids, asks, 0, 0));
  }

  function BidAt(pairs: seq<Cross>): (r: seq<nat>)
    ensures |r| == |pairs| && forall n :: 0 <= n < |pairs| ==> r[n] == pairs[n].bid
  {
    seq(|pairs|, n requires 0 <= n < |pairs| => pairs[n].bid)
  }

  function AskAt(pairs: seq<Cross>): (r: seq<nat>)
    ensures |r| == |pairs| && forall n :: 0 <= n < |pairs| ==> r[n] == pairs[n].ask
  {
    seq(|pairs|, n requires 0 <= n < |pairs| => pairs[n].ask)
  }

  lemma BidsOnce(bids: seq<Resting>, asks: seq<Resting>, pairs: seq<Cross>)
    requires Increasing(pairs, |bids|, |asks|)
    ensures multiset(Bids(Submissions(bids, asks, pairs))) <= multiset(bids)
  {
    hide Bids, Submissions, BidAt;
    PickedOnce(bids, Bids(Submissions(bids, asks, pairs)), BidAt(pairs));
  }

  lemma AsksOnce(bids: seq<Resting>, asks: seq<Resting>, pairs: seq<Cross>)
    requires Increasing(pairs, |bids|, |asks|)
    ensures multiset(Asks(Submissions(bids, asks, pairs))) <= multiset(asks)
  {
    hide Asks, Submissions, AskAt;
    PickedOnce(asks, Asks(Submissions(bids, asks, pairs)), AskAt(pairs));
  }

  /** The matches the loop submits on some sorted sides of these orders. */
  ghost predicate Crossed(ms: seq<Submission>, orders: seq<Resting>) {
    exists bids, asks :: SortsTo(orders, bids, asks) && ms == Submissions(bids, asks, Crossing(bids, asks, 0, 0))
  }

  /** Of every two orders of different owners that cross, one is submitted. */
  ghost predicate FullyMatched(ms: seq<Submission>, orders: seq<Resting>) {
    forall bid, ask :: bid in Side(orders, true) && ask in Side(orders, false) && Compatible(bid, ask) ==>
      bid in Bids(ms) || ask in Asks(ms)
  }

  ghost predicate Matched(ms: seq<Submission>, orders: seq<Resting>) {
    && Crossed(ms, orders) && SoundMatches(ms, orders) && NothingLeft(ms, orders)
    && (!Straddled(orders) ==> FullyMatched(ms, orders))
  }

  /** One market: sort both sides and cross them. */
  method MatchMarket(orders: seq<Resting>) returns (ms: seq<Submission>)
    ensures Matched(ms, orders)
  {
    var bids := SortBids(orders);
    var asks := SortAsks(orders);
    var pairs := CrossBook(bids, asks);
    ms := Submissions(bids, asks, pairs);
    hide *;
    CrossedFacts(orders, bids, asks, ms);
  }

  lemma {:induction false} CrossedFacts(orders: seq<Resting>, bids: seq<Resting>, asks: seq<Resting>,
                                        ms: seq<Submission>)
    requires SortsTo(orders, bids, asks) && ms == Submissions(bids, asks, Crossing(bids, asks, 0, 0))
    ensures Matched(ms, orders)
  {
    hide SoundMatches, Side, Bids, Asks, SortedBy, Submissions, Crossing, Straddled;
    SubmissionsSound(orders, bids, asks);
    forall bid, ask | bid in Side(orders, true) && ask in Side(orders, false) && bid.price >= ask.price
                      && bid !in Bids(ms) && ask !in Asks(ms) && bid.authority != ask.authority
      ensures Straddled(orders) && exists own :: own in Side(orders, true) && own.authority == ask.authority
    {
      var own := LeftBehind(orders, bids, asks, bid, ask);
    }
  }

  lemma LeftBehind(orders: seq<Resting>, bids: seq<Resting>, asks: seq<Resting>, bid: Resting,
                                      ask: Resting)
    returns (own: Resting)
    requires SortsTo(orders, bids, asks)
    requires bid in Side(orders, true) && ask in Side(orders, false) && Compatible(bid, ask)
    requires var ms := Submissions(bids, asks, Crossing(bids, asks, 0, 0)); bid !in Bids(ms) && ask !in Asks(ms)
    ensures own in Side(orders, true) && own.authority == ask.authority && Straddled(orders)
  {
    hide Side, SortedBy, Crossing, Submissions;
    var pairs := Crossing(bids, asks, 0, 0);
    var ms := Submissions(bids, asks, pairs);
    assert bid in multiset(bids) && ask in multiset(asks);
    var a :| 0 <= a < |bids| && bids[a] == bid;
    var b :| 0 <= b < |asks| && asks[b] == ask;
    forall n | 0 <= n < |pairs|
      ensures pairs[n].bid != a && pairs[n].ask != b
    {
      assert Bids(ms)[n] in Bids(ms) && Asks(ms)[n] in Asks(ms);
    }
    var c := OwnerSkipped(bids, asks, a, b);
    own := bids[c];
    assert own in multiset(bids);
    Straddling(orders, own, ask, bid);
  }

  lemma {:induction false} Straddling(orders: seq<Resting>, own: Resting, ask: Resting, other: Resting)
    requires own in Side(orders, true) && ask in Side(orders, false) && other in Side(orders, true)
    requires own.authority == ask.authority != other.authority
    ensures Straddled(orders)
  {
    var n :| 0 <= n < |orders| && orders[n] == own;
    var m :| 0 <= m < |orders| && orders[m] == ask;
    var k :| 0 <= k < |orders| && orders[k] == other;
    assert StraddlesAt(orders, n, m, k);
  }

  /** Somebody rests a bid and an ask in the market while somebody else bids there. */
  ghost predicate StraddledAt(users: seq<User>, markets: seq<Market>, k: int) {
    exists a: nat, b: nat, s: nat, t: nat, n: nat ::
      && RestsAt(users, markets, k, a, s) && users[a].orders[s].direction == Long
      && RestsAt(users, markets, k, a, t) && users[a].orders[t].direction == Short
      && RestsAt(users, markets, k, b, n) && users[b].orders[n].direction == Long && a != b
  }

  /** One of the two orders is submitted. */
  ghost predicate OneShown(ms: seq<Submission>, bid: Order, a: nat, ask: Order, b: nat) {
    exists n :: 0 <= n < |ms| && (Shows(ms[n].bid, bid, a) || Shows(ms[n].ask, ask, b))
  }

  /** Of any two resting orders of different owners that cross, one is submitted. */
  ghost predicate PassComplete(users: seq<User>, markets: seq<Market>, k: u16, ms: seq<Submission>) {
    forall a: nat, s: nat, b: nat, t: nat ::
      && RestsAt(users, markets, k, a, s) && users[a].orders[s].direction == Long
      && RestsAt(users, markets, k, b, t) && users[b].orders[t].direction == Short
      && a != b && users[a].orders[s].price >= users[b].orders[t].price ==>
        OneShown(ms, users[a].orders[s], a, users[b].orders[t], b)
  }

  /** Only resting orders of different owners that cross are submitted. */
  ghost predicate PassSound(users: seq<User>, markets: seq<Market>, k: u16, ms: seq<Submission>) {
    forall n :: 0 <= n < |ms| ==> Submits(users, markets, k, ms[n])
  }

  ghost predicate Submits(users: seq<User>, markets: seq<Market>, k: int, x: Submission) {
    exists s: nat, t: nat :: SubmitsAt(users, markets, k, x, s, t)
  }

  predicate SubmitsAt(users: seq<User>, markets: seq<Market>, k: int, x: Submission, s: nat, t: nat) {
    var a, b := x.bid.authority, x.ask.authority;
    && RestsAt(users, markets, k, a, s) && users[a].orders[s].direction == Long && Shows(x.bid, users[a].orders[s], a)
    && RestsAt(users, markets, k, b, t) && users[b].orders[t].direction == Short && Shows(x.ask, users[b].orders[t], b)
    && a != b && users[a].orders[s].price >= users[b].orders[t].price
  }

  lemma {:induction false} MatchedComplete(users: seq<User>, markets: seq<Market>, k: u16, ms: seq<Submission>)
    requires FullyMatched(ms, RestingIn(users, markets, k))
    ensures PassComplete(users, markets, k, ms)
  {
    var orders := RestingIn(users, markets, k);
    hide RestingIn;
    forall a: nat, s: nat, b: nat, t: nat |
      && RestsAt(users, markets, k, a, s) && users[a].orders[s].direction == Long
      && RestsAt(users, markets, k, b, t) && users[b].orders[t].direction == Short
      && a != b && users[a].orders[s].price >= users[b].orders[t].price
      ensures OneShown(ms, users[a].orders[s], a, users[b].orders[t], b)
    {
      var bid, ask := Entry(a, users[a].orders[s]), Entry(b, users[b].orders[t]);
      ListedIff(users, markets, k, bid);
      ListedIff(users, markets, k, ask);
      hide FullyMatched;
      var n := OneSubmitted(ms, orders, bid, ask);
    }
  }

  lemma OneSubmitted(ms: seq<Submission>, orders: seq<Resting>, bid: Resting, ask: Resting) returns (n: nat)
    requires FullyMatched(ms, orders) && bid in orders && ask in orders && bid.isLong && !ask.isLong
    requires Compatible(bid, ask)
    ensures n < |ms| && (ms[n].bid == bid || ms[n].ask == ask)
  {
    assert bid in Side(orders, true) && ask in Side(orders, false);
    if bid in Bids(ms) {
      n :| 0 <= n < |ms| && Bids(ms)[n] == bid;
    } else {
      n :| 0 <= n < |ms| && Asks(ms)[n] == ask;
    }
  }

  lemma {:induction false} MatchedSound(users: seq<User>, markets: seq<Market>, k: u16, ms: seq<Submission>)
    requires SoundMatches(ms, RestingIn(users, markets, k))
    ensures PassSound(users, markets, k, ms)
  {
    var orders := RestingIn(users, markets, k);
    hide RestingIn, SoundMatches, Side, Compatible, Submits;
    forall n | 0 <= n < |ms|
      ensures Submits(users, markets, k, ms[n])
    {
      SubmissionListed(ms, orders, n);
      SubmittedRests(users, markets, k, ms[n]);
    }
  }

  lemma {:induction false} SubmissionListed(ms: seq<Submission>, orders: seq<Resting>, n: nat)
    requires SoundMatches(ms, orders) && n < |ms|
    ensures ms[n].bid in Side(orders, true) && ms[n].ask in Side(orders, false) && Compatible(ms[n].bid, ms[n].ask)
  {
    assert Bids(ms)[n] in multiset(Bids(ms)) && Asks(ms)[n] in multiset(Asks(ms));
  }

  lemma {:induction false} SubmittedRests(users: seq<User>, markets: seq<Market>, k: u16, x: Submission)
    requires var orders := RestingIn(users, markets, k); x.bid in Side(orders, true) && x.ask in Side(orders, false)
    requires Compatible(x.bid, x.ask)
    ensures Submits(users, markets, k, x)
  {
    ListedIff(users, markets, k, x.bid);
    ListedIff(users, markets, k, x.ask);
    var a, b := x.bid.authority, x.ask.authority;
    var s: nat :| RestsAt(users, markets, k, a, s) && Shows(x.bid, users[a].orders[s], a);
    var t: nat :| RestsAt(users, markets, k, b, t) && Shows(x.ask, users[b].orders[t], b);
    hide RestingIn;
    assert SubmitsAt(users, markets, k, x, s, t);
  }

  lemma {:induction false} StraddledHere(users: seq<User>, markets: seq<Market>, k: u16)
    requires Straddled(RestingIn(users, markets, k))
    ensures StraddledAt(users, markets, k)
  {
    var orders := RestingIn(users, markets, k);
    hide RestingIn;
    var bid: nat, ask: nat, other: nat :| StraddlesAt(orders, bid, ask, other);
    ListedIff(users, markets, k, orders[bid]);
    ListedIff(users, markets, k, orders[ask]);
    ListedIff(users, markets, k, orders[other]);
    var a, b := orders[bid].authority, orders[other].authority;
    var s: nat :| RestsAt(users, markets, k, a, s) && Shows(orders[bid], users[a].orders[s], a);
    var t: nat :| RestsAt(users, markets, k, a, t) && Shows(orders[ask], users[a].orders[t], a);
    var n: nat :| RestsAt(users, markets, k, b, n) && Shows(orders[other], users[b].orders[n], b);
  }

  /** A whole pass over every market that has resting orders. */
  method MatchingPass(users: seq<User>, markets: seq<Market>) returns (submitted: map<u16, seq<Submission>>)
    ensures forall k: u16 :: k in submitted <==> exists a: nat, s: nat :: RestsAt(users, markets, k, a, s)
    ensures forall k :: k in submitted ==>
      && Matched(submitted[k], RestingIn(users, markets, k)) && PassSound(users, markets, k, submitted[k])
      && (!StraddledAt(users, markets, k) ==> PassComplete(users, markets, k, submitted[k]))
  {
    hide RestingIn, Matched, PassSound, PassComplete, StraddledAt, RestsAt;
    var byMarket := CollectResting(users, markets);
    submitted := map[];
    var todo := byMarket.Keys;
    while todo != {}
      invariant todo <= byMarket.Keys && submitted.Keys == byMarket.Keys - todo
      invariant forall k :: k in submitted ==> Matched(submitted[k], byMarket[k])
      decreases |todo|
    {
      var k :| k in todo;
      var ms := MatchMarket(byMarket[k]);
      submitted := submitted[k := ms];
      todo := todo - {k};
    }
    PassFacts(users, markets, byMarket, submitted);
  }

  lemma PassFacts(users: seq<User>, markets: seq<Market>, byMarket: map<u16, seq<Resting>>,
                  submitted: map<u16, seq<Submission>>)
    requires forall k: u16 :: ListOf(byMarket, k) == RestingIn(users, markets, k)
    requires forall k :: k in byMarket ==> byMarket[k] != []
    requires submitted.Keys == byMarket.Keys && forall k :: k in submitted ==> Matched(submitted[k], byMarket[k])
    ensures forall k: u16 :: k in submitted <==> exists a: nat, s: nat :: RestsAt(users, markets, k, a, s)
    ensures forall k :: k in submitted ==>
      && Matched(submitted[k], RestingIn(users, markets, k)) && PassSound(users, markets, k, submitted[k])
      && (!StraddledAt(users, markets, k) ==> PassComplete(users, markets, k, submitted[k]))
  {
    hide RestingIn, Matched, PassSound, PassComplete, StraddledAt, RestsAt;
    forall k: u16
      ensures k in submitted <==> exists a: nat, s: nat :: RestsAt(users, markets, k, a, s)
    {
      assert ListOf(byMarket, k) == RestingIn(users, markets, k);
      SomethingRests(users, markets, k);
    }
    forall k | k in submitted
      ensures Matched(submitted[k], RestingIn(users, markets, k)) && PassSound(users, markets, k, submitted[k])
      ensures !StraddledAt(users, markets, k) ==> PassComplete(users, markets, k, submitted[k])
    {
      assert ListOf(byMarket, k) == RestingIn(users, markets, k);
      MatchedPass(users, markets, k, submitted[k]);
    }
  }

  lemma {:induction false} MatchedPass(users: seq<User>, markets: seq<Market>, k: u16, ms: seq<Submission>)
    requires Matched(ms, RestingIn(users, markets, k))
    ensures PassSound(users, markets, k, ms)
    ensures !StraddledAt(users, markets, k) ==> PassComplete(users, markets, k, ms)
  {
    hide RestingIn, SoundMatches, FullyMatched, PassSound, PassComplete, StraddledAt, Straddled, Crossed, NothingLeft;
    MatchedSound(users, markets, k, ms);
    if Straddled(RestingIn(users, markets, k)) {
      StraddledHere(users, markets, k);
    } else {
      MatchedComplete(users, markets, k, ms);
    }
  }

  lemma {:induction false} SomethingRests(users: seq<User>, markets: seq<Market>, k: u16)
    ensures RestingIn(users, markets, k) != [] <==> exists a: nat, s: nat :: RestsAt(users, markets, k, a, s)
  {
    var orders := RestingIn(users, markets, k);
    hide RestingIn;
    if orders != [] {
      assert orders[0] in orders;
      ListedIff(users, markets, k, orders[0]);
    }
    if a: nat, s: nat :| RestsAt(users, markets, k, a, s) {
      ListedIff(users, markets, k, Entry(a, users[a].orders[s]));
    }
  }

  // ------------------------------------------------------------ on-chain checks

  /** With distinct open ids, looking an order up by its id finds that order. */
  lemma FoundById(u: User, s: nat)
    requires OrdersOk(u) && s < |u.orders| && u.orders[s].IsOpen()
    ensures FindOrder(u.orders, u.orders[s].id) == Ok(s)
  {
    var found := FindOrder(u.orders, u.orders[s].id);
    assert found.Ok? && u.orders[found.value].IsOpen();
  }

  /** Everything a pass submits meets the opposite-side, crossing, size and self-match
      checks of the instruction on the state the pass looked at. */
  lemma {:induction false} SubmittedPassesChecks(cfg: Config, users: seq<User>, markets: seq<Market>, k: u16,
                                                 ms: seq<Submission>, n: nat)
    requires !cfg.paused && k < |markets| && markets[k].index == k
    requires forall a :: 0 <= a < |users| ==> OrdersOk(users[a])
    requires SoundMatches(ms, RestingIn(users, markets, k)) && n < |ms|
    ensures ms[n].bid.authority < |users| && ms[n].ask.authority < |users|
    ensures CheckMatch(cfg, users[ms[n].bid.authority], users[ms[n].ask.authority],
                       ms[n].bid.authority == ms[n].ask.authority,
                       markets[k], ms[n].bid.orderId, ms[n].ask.orderId).Ok?
  {
    var orders := RestingIn(users, markets, k);
    var bid, ask := ms[n].bid, ms[n].ask;
    assert Bids(ms)[n] in multiset(Bids(ms)) && Asks(ms)[n] in multiset(Asks(ms));
    assert bid in Side(orders, true) && ask in Side(orders, false);
    assert Compatible(bid, ask);
    RestingIsListed(users, markets, k, bid);
    RestingIsListed(users, markets, k, ask);
    hide SoundMatches, OrdersOk, RestingIn, CheckMatch;
    PairPasses(cfg, users, markets, k, bid, ask);
  }

  lemma PairPasses(cfg: Config, users: seq<User>, markets: seq<Market>, k: u16, bid: Resting, ask: Resting)
    requires !cfg.paused && k < |markets| && markets[k].index == k
    requires ListedFrom(bid, users, markets, k) && ListedFrom(ask, users, markets, k)
    requires OrdersOk(users[bid.authority]) && OrdersOk(users[ask.authority])
    requires bid.isLong && !ask.isLong && Compatible(bid, ask)
    ensures CheckMatch(cfg, users[bid.authority], users[ask.authority], bid.authority == ask.authority,
                       markets[k], bid.orderId, ask.orderId).Ok?
  {
    var buyer, seller := users[bid.authority], users[ask.authority];
    var s :| 0 <= s < |buyer.orders| && Matchable(buyer.orders[s], markets) && buyer.orders[s].marketIndex == k
              && bid == Entry(bid.authority, buyer.orders[s]);
    var t :| 0 <= t < |seller.orders| && Matchable(seller.orders[t], markets) && seller.orders[t].marketIndex == k
              && ask == Entry(ask.authority, seller.orders[t]);
    hide ListedFrom;
    FoundById(buyer, s);
    FoundById(seller, t);
    assert buyer.orders[s].Remaining() > 0 && seller.orders[t].Remaining() > 0;
    hide OrdersOk, FindOrder;
  }

  /** On every reachable, unpaused state whose users placed fewer than 2^32 orders each. */
  lemma {:induction false} PassSoundOnRuns(cfg: Config, history: seq<Instruction>, k: u16, ms: seq<Submission>, n: nat)
    requires AllWellSized(history) && !Run(cfg, history).config.paused && k < |Run(cfg, history).markets|
    requires forall i: nat :: Accumulated(cfg, history, Placements(i)) < U32_SPAN
    requires SoundMatches(ms, RestingIn(Run(cfg, history).users, Run(cfg, history).markets, k)) && n < |ms|
    ensures var w := Run(cfg, history);
      && ms[n].bid.authority < |w.users| && ms[n].ask.authority < |w.users|
      && CheckMatch(w.config, w.users[ms[n].bid.authority], w.users[ms[n].ask.authority],
                    ms[n].bid.authority == ms[n].ask.authority,
                    w.markets[k], ms[n].bid.orderId, ms[n].ask.orderId).Ok?
  {
    var w := Run(cfg, history);
    RunSound(cfg, history);
    forall a | 0 <= a < |w.users|
      ensures OrdersOk(w.users[a])
    {
      OpenOrdersSound(cfg, history, a);
    }
    assert w.markets[k].index == k;
    hide Run, OrdersOk;
    SubmittedPassesChecks(w.config, w.users, w.markets, k, ms, n);
  }
}
