/**
 Matching and the depth view, read off the orders table: what a placement trades and what the view shows, in terms of the
 open orders of a pair. The book, its window sizes and its directions do not appear.
 */
module Market {
  import opened Domain
  import opened Sums
  import opened OrderBook
  import opened Matching
  import opened Agreement
  import opened Depth

  /** An open order of one side of a pair. */
  predicate Rests(o: Order, pair: Pair, side: Side)
  {
    (o.status == OPEN || o.status == PARTIALLY_FILLED) && o.pair == pair && o.side == side
  }

  /** Another user's open order that the new order may trade with at its limit. */
  predicate Offers(r: Order, o: Order)
  {
    && (r.status == OPEN || r.status == PARTIALLY_FILLED) && r.pair == o.pair && r.user != o.user
    && (if o.side == BUY then r.side == SELL && r.price <= o.price else r.side == BUY && o.price <= r.price)
  }

  function Resting(pair: Pair, side: Side): Order -> int
  {
    (o: Order) => if Rests(o, pair, side) then 1 else 0
  }

  function RestingAt(pair: Pair, side: Side, price: nat): Order -> int
  {
    (o: Order) => if Rests(o, pair, side) && o.price == price then o.remaining else 0
  }

  function OrdersAt(pair: Pair, side: Side, price: nat): Order -> int
  {
    (o: Order) => if Rests(o, pair, side) && o.price == price then 1 else 0
  }

  function Offered(o: Order): Order -> int
  {
    (r: Order) => if Offers(r, o) then r.remaining else 0
  }

  // ---------------------------------------------------------------------------------------------------------
  // Sums over a side of the book are sums over the table
  // ---------------------------------------------------------------------------------------------------------

  function RowWeight(rows: seq<Order>, w: Order -> int): Member -> int
  {
    (m: Member) => if m.id < |rows| then w(rows[m.id]) else 0
  }

  predicate DistinctIds(members: seq<Member>)
  {
    forall i, j :: 0 <= i < j < |members| ==> members[i].id != members[j].id
  }

  predicate HasId(members: seq<Member>, id: OrderId)
  {
    exists i :: 0 <= i < |members| && members[i].id == id
  }

  lemma {:induction false} WithoutAt(members: seq<Member>, k: nat, n: nat)
    requires DistinctIds(members) && k < |members| && members[k].id == n
    requires forall i :: 0 <= i < |members| ==> members[i].id <= n
    ensures var rest := members[..k] + members[k + 1..];
            && DistinctIds(rest) && (forall i :: 0 <= i < |rest| ==> rest[i].id < n)
            && (forall id: OrderId :: id != n && HasId(members, id) ==> HasId(rest, id))
  {
    var rest := members[..k] + members[k + 1..];
    assert forall i :: 0 <= i < |rest| ==> rest[i] == if i < k then members[i] else members[i + 1];
    forall id: OrderId | id != n && HasId(members, id) ensures HasId(rest, id) {
      var i :| 0 <= i < |members| && members[i].id == id;
      assert rest[if i < k then i else i - 1] == members[i];
    }
  }

  /** Members that name every row of weight, each once, weigh what the rows weigh. */
  lemma {:induction false} SumByIds(rows: seq<Order>, members: seq<Member>, w: Order -> int)
    requires DistinctIds(members) && forall i :: 0 <= i < |members| ==> members[i].id < |rows|
    requires forall id: OrderId :: id < |rows| && w(rows[id]) != 0 ==> HasId(members, id)
    ensures Sum(members, RowWeight(rows, w)) == Sum(rows, w)
  {
    if rows == [] {
      assert members == [];
    } else {
      hide Sum;
      var n := |rows| - 1;
      var init := rows[..n];
      var rest := members;
      assert rows == init + [rows[n]];
      SumAppend(init, rows[n], w);
      if HasId(members, n) {
        var k :| 0 <= k < |members| && members[k].id == n;
        rest := members[..k] + members[k + 1..];
        WithoutAt(members, k, n);
        SumRemoveAt(members, k, RowWeight(rows, w));
      }
      forall id: OrderId | id < |init| && w(init[id]) != 0 ensures HasId(rest, id) {
        assert rows[id] == init[id] && HasId(members, id);
      }
      SumByIds(init, rest, w);
      SameSum(rest, RowWeight(init, w), RowWeight(rows, w));
    }
  }

  /** The members of a side, in any order: each open order of it once. */
  ghost predicate WholeSide(rows: seq<Order>, k: ZKey, members: seq<Member>)
  {
    && DistinctIds(members)
    && (forall i :: 0 <= i < |members| ==> InSet(rows, |rows|, k, members[i]))
    && (forall id: OrderId :: id < |rows| && Rests(rows[id], k.pair, k.side) ==> HasId(members, id))
  }

  /** Weighing the entries of a side is weighing its rows. */
  lemma {:induction false} SideSum(rows: seq<Order>, b: Book, k: ZKey, members: seq<Member>, f: Entry -> int,
                                   w: Order -> int)
    requires Agrees(rows, b, |rows|) && WholeSide(rows, k, members)
    requires forall id: OrderId :: id < |rows| ==>
               w(rows[id]) == if Rests(rows[id], k.pair, k.side) then f(EntryOf(rows, id)) else 0
    ensures |Lookup(b.details, members)| == |members| && Sum(Lookup(b.details, members), f) == Sum(rows, w)
  {
    hide SetsAgree, SetsSorted;
    forall i | 0 <= i < |members|
      ensures members[i].id in b.details && Weight(b.details, f)(members[i]) == RowWeight(rows, w)(members[i])
    {
      assert InSet(rows, |rows|, k, members[i]);
    }
    LookupAll(b.details, members);
    SumLookup(b.details, members, f);
    SameSum(members, Weight(b.details, f), RowWeight(rows, w));
    forall i | 0 <= i < |members| ensures members[i].id < |rows| {
      assert InSet(rows, |rows|, k, members[i]);
    }
    SumByIds(rows, members, w);
  }

  lemma {:induction false} SetIsWholeSide(rows: seq<Order>, b: Book, k: ZKey)
    requires Agrees(rows, b, |rows|)
    ensures WholeSide(rows, k, ZSet(b, k)) && WholeSide(rows, k, Reverse(ZSet(b, k)))
  {
    hide DetailsAgree;
    var z := ZSet(b, k);
    forall i | 0 <= i < |z| ensures InSet(rows, |rows|, k, z[i]) {
      assert z[i] in z;
    }
    assert Sorted(z);
    forall i, j | 0 <= i < j < |z| ensures z[i].id != z[j].id {
      assert Before(z[i], z[j]);
    }
    forall id: OrderId | id < |rows| && Rests(rows[id], k.pair, k.side)
      ensures HasId(z, id) && HasId(Reverse(z), id)
    {
      assert InSet(rows, |rows|, k, MemberOf(rows, id));
      assert MemberOf(rows, id) in z;
      var i :| 0 <= i < |z| && z[i] == MemberOf(rows, id);
      assert Reverse(z)[|z| - 1 - i] == z[i];
    }
  }

  lemma {:induction false} SumOfOnes<T>(s: seq<T>, one: T -> int)
    requires forall i :: 0 <= i < |s| ==> one(s[i]) == 1
    ensures Sum(s, one) == |s|
  {
    if s != [] {
      var init := s[..|s| - 1];
      assert forall i :: 0 <= i < |init| ==> init[i] == s[i];
      SumOfOnes(init, one);
    }
  }

  /** A side of the book is as long as the table has open orders on it. */
  lemma {:induction false} SideLength(rows: seq<Order>, b: Book, k: ZKey)
    requires Agrees(rows, b, |rows|)
    ensures |ZSet(b, k)| == Sum(rows, Resting(k.pair, k.side))
  {
    hide Agrees;
    var one := (e: Entry) => 1;
    SetIsWholeSide(rows, b, k);
    SideSum(rows, b, k, ZSet(b, k), one, Resting(k.pair, k.side));
    SumOfOnes(Lookup(b.details, ZSet(b, k)), one);
  }

  // ---------------------------------------------------------------------------------------------------------
  // Placing an order
  // ---------------------------------------------------------------------------------------------------------

  function First<T>(z: seq<T>, n: nat): seq<T>
  {
    if |z| <= n then z else z[..n]
  }

  lemma RangeIsFirst(z: seq<Member>, n: nat, reverse: bool)
    requires n > 0
    ensures ZRange(z, n - 1, reverse) == First(if reverse then Reverse(z) else z, n)
  {
    var directed := if reverse then Reverse(z) else z;
    assert directed[..|z|] == directed;
  }

  /** A buyer's candidates are the fifty lowest asks, a seller's the fifty highest bids. */
  lemma FetchesFifty(b: Book, pair: Pair)
    ensures BestOpposing(b, pair, BUY) == Lookup(b.details, First(ZSet(b, ZKey(pair, SELL)), 50))
    ensures BestOpposing(b, pair, SELL) == Lookup(b.details, First(Reverse(ZSet(b, ZKey(pair, BUY))), 50))
  {
    RangeIsFirst(ZSet(b, ZKey(pair, SELL)), 50, false);
    RangeIsFirst(ZSet(b, ZKey(pair, BUY)), 50, true);
  }

  function Traded(): Trade -> int
  {
    (t: Trade) => t.quantity
  }

  function MakerOf(o: Order, t: Trade): OrderId
  {
    if o.side == BUY then t.sellOrder else t.buyOrder
  }

  /** A trade of the new order with an open order that offers to it, at that order's price and within its amount. */
  predicate TradesWith(rows: seq<Order>, o: Order, t: Trade)
  {
    var id := MakerOf(o, t);
    && id < |rows| && Offers(rows[id], o) && 0 < t.quantity <= rows[id].remaining
    && t.price == rows[id].price && t.pair == o.pair
    && (if o.side == BUY
        then t.buyOrder == |rows| && t.buyer == o.user && t.seller == rows[id].user && t.buyerLimit == o.price
        else t.sellOrder == |rows| && t.seller == o.user && t.buyer == rows[id].user && t.buyerLimit == rows[id].price)
  }

  /** The row of a maker after a trade. */
  predicate FilledBy(before: Order, quantity: nat, after: Order)
  {
    && quantity <= before.remaining
    && after == before.(filled := before.filled + quantity, remaining := before.remaining - quantity,
                        status := if before.remaining == quantity then FILLED else PARTIALLY_FILLED)
  }

  predicate Untraded(o: Order, trades: seq<Trade>, id: OrderId)
  {
    forall k :: 0 <= k < |trades| ==> MakerOf(o, trades[k]) != id
  }

  /**
   What a placement does to the table: its trades are with open orders that offer to it, each once and the best price
   first; those orders' rows move by their trades and no other row does; and the new row holds what was traded and what
   is left.
   */
  ghost predicate Placement(rows: seq<Order>, o: Order, after: seq<Order>, trades: seq<Trade>)
  {
    var n, traded := |rows|, Sum(trades, Traded());
    && |after| == n + 1 && 0 <= traded <= o.amount
    && (forall k :: 0 <= k < |trades| ==>
          TradesWith(rows, o, trades[k])
          && FilledBy(rows[MakerOf(o, trades[k])], trades[k].quantity, after[MakerOf(o, trades[k])]))
    && (forall k, l :: 0 <= k < l < |trades| ==>
          MakerOf(o, trades[k]) != MakerOf(o, trades[l])
          && (if o.side == BUY then trades[k].price <= trades[l].price else trades[k].price >= trades[l].price))
    && (forall id: OrderId :: id < n && Untraded(o, trades, id) ==> after[id] == rows[id])
    && after[n] == o.(filled := traded, remaining := o.amount - traded,
                      status := if traded == o.amount then FILLED else if traded > 0 then PARTIALLY_FILLED else OPEN)
  }

  lemma {:induction false} TradedIsFilled(o: Order, id: OrderId, fills: seq<Fill>)
    ensures Sum(TradesOf(o, id, fills), Traded()) == Sum(fills, Quantity())
  {
    if fills != [] {
      var init := fills[..|fills| - 1];
      TradedIsFilled(o, id, init);
      assert TradesOf(o, id, fills)[..|fills| - 1] == TradesOf(o, id, init);
    }
  }

  /** Every trade of a placement is with an open order that offers to it. */
  lemma {:induction false} PlaceTradesWith(d: Desk, o: Order, k: nat)
    requires DeskOk(d) && Fresh(o) && k < |PlaceFills(d, o)|
    ensures var f := PlaceFills(d, o)[k];
            && MakerOf(o, TradeOf(o, |d.rows|, f)) == f.maker.id
            && TradesWith(d.rows, o, TradeOf(o, |d.rows|, f))
  {
    hide DeskOk, TakerFills;
    PlaceFillsAreGood(d, o);
    PlaceFillsCross(d, o);
    var f := PlaceFills(d, o)[k];
    assert f.maker == Matching.EntryOf(d.rows + [o], f.maker.id);
    assert d.rows[f.maker.id] == (d.rows + [o])[f.maker.id];
  }

  /** Placing an order, table by table. */
  lemma {:induction false} PlacementOnTable(d: Desk, o: Order)
    requires DeskOk(d) && Fresh(o)
    ensures Placement(d.rows, o, Place(d, o).0.rows, Place(d, o).1)
  {
    hide DeskOk, TakerFills, Place, TradesWith, Fresh;
    var n, fills := |d.rows|, PlaceFills(d, o);
    PlaceMovesRows(d, o);
    PlaceTaker(d, o);
    TradedIsFilled(o, n, fills);
    PlacePrices(d, o);
    forall k | 0 <= k < |fills|
      ensures TradesWith(d.rows, o, TradeOf(o, n, fills[k])) && MakerOf(o, TradeOf(o, n, fills[k])) == fills[k].maker.id
    {
      PlaceTradesWith(d, o, k);
    }
    PlacedTrades(d.rows, o, fills, Place(d, o).0.rows);
  }

  /** From fills to trades. */
  lemma {:induction false} PlacedTrades(rows: seq<Order>, o: Order, fills: seq<Fill>, after: seq<Order>)
    requires PlacedRows(rows, o, fills, after)
    requires forall k :: 0 <= k < |fills| ==>
               && TradesWith(rows, o, TradeOf(o, |rows|, fills[k]))
               && MakerOf(o, TradeOf(o, |rows|, fills[k])) == fills[k].maker.id
    requires InOrder(o, fills) && Sum(TradesOf(o, |rows|, fills), Traded()) == Sum(fills, Quantity())
    ensures Placement(rows, o, after, TradesOf(o, |rows|, fills))
  {
    hide TradesWith;
    var n, trades := |rows|, TradesOf(o, |rows|, fills);
    forall k | 0 <= k < |trades|
      ensures TradesWith(rows, o, trades[k]) && MakerOf(o, trades[k]) == fills[k].maker.id < n
      ensures FilledBy(rows[MakerOf(o, trades[k])], trades[k].quantity, after[MakerOf(o, trades[k])])
    {
      MakerFilledBy(rows, o, fills, after, k);
    }
    hide FilledBy;
    forall id: OrderId | id < n && Untraded(o, trades, id) ensures after[id] == rows[id] {
      forall k | 0 <= k < |fills| ensures fills[k].maker.id != id {
        assert MakerOf(o, trades[k]) != id;
      }
      assert NotMaker(fills, id) && after[..n][id] == after[id];
    }
    hide PlacedRows, MakersMoved, Filled;
    forall k, l | 0 <= k < l < |trades|
      ensures MakerOf(o, trades[k]) != MakerOf(o, trades[l])
              && (if o.side == BUY then trades[k].price <= trades[l].price else trades[k].price >= trades[l].price)
    {
      assert trades[k] == TradeOf(o, n, fills[k]) && trades[l] == TradeOf(o, n, fills[l]);
    }
  }

  lemma {:induction false} MakerFilledBy(rows: seq<Order>, o: Order, fills: seq<Fill>, after: seq<Order>, k: nat)
    requires PlacedRows(rows, o, fills, after) && k < |fills|
    requires MakerOf(o, TradeOf(o, |rows|, fills[k])) == fills[k].maker.id
    ensures var t, id := TradesOf(o, |rows|, fills)[k], fills[k].maker.id;
            MakerOf(o, t) == id < |rows| && |after| == |rows| + 1 && FilledBy(rows[id], t.quantity, after[id])
  {
    assert TradesOf(o, |rows|, fills)[k] == TradeOf(o, |rows|, fills[k]);
    assert after[..|rows|][fills[k].maker.id] == after[fills[k].maker.id];
  }

  predicate InOrder(o: Order, fills: seq<Fill>)
  {
    forall k, l :: 0 <= k < l < |fills| ==>
      fills[k].maker.id != fills[l].maker.id
      && (if o.side == BUY then fills[k].maker.price <= fills[l].maker.price
          else fills[k].maker.price >= fills[l].maker.price)
  }

  lemma {:induction false} PlacePrices(d: Desk, o: Order)
    requires DeskOk(d) && Fresh(o)
    ensures InOrder(o, PlaceFills(d, o))
  {
    hide DeskOk, TakerFills, Agrees, TableConsistent, Fills, BestOpposing, Resting;
    var fills := PlaceFills(d, o);
    PlaceFillsAreGood(d, o);
    FillsOfPlace(d, o);
    FillPricesAreMonotone(BestOpposing(d.book, o.pair, o.side), o.user, o.side, o.price, o.amount);
    forall k, l | 0 <= k < l < |fills|
      ensures fills[k].maker.id != fills[l].maker.id
              && (if o.side == BUY then fills[k].maker.price <= fills[l].maker.price
                  else fills[k].maker.price >= fills[l].maker.price)
    {
      assert Rank(o.side, fills[k].maker.price) <= Rank(o.side, fills[l].maker.price);
    }
  }

  /** If the opposing side fits into the candidates, they are all of it. */
  lemma {:induction false} ShortSideIsFetched(d: Desk, o: Order)
    requires DeskOk(d) && Fresh(o)
    requires Sum(d.rows, Resting(o.pair, if o.side == BUY then SELL else BUY)) <= 50
    ensures Sum(BestOpposing(d.book, o.pair, o.side), EligibleRemaining(o.user, o.side, o.price))
         == Sum(d.rows, Offered(o))
  {
    hide Agrees, TableConsistent, BestOpposing, WholeSide, EligibleRemaining, Offered;
    var k := ZKey(o.pair, if o.side == BUY then SELL else BUY);
    var z := ZSet(d.book, k);
    SideLength(d.rows, d.book, k);
    FetchesFifty(d.book, o.pair);
    SetIsWholeSide(d.rows, d.book, k);
    OfferedIsEligible(d.rows, o);
    SideSum(d.rows, d.book, k, if o.side == BUY then z else Reverse(z), EligibleRemaining(o.user, o.side, o.price),
            Offered(o));
  }

  lemma OfferedIsEligible(rows: seq<Order>, o: Order)
    ensures forall id: OrderId :: id < |rows| ==>
              Offered(o)(rows[id]) == if Rests(rows[id], o.pair, if o.side == BUY then SELL else BUY)
                                      then EligibleRemaining(o.user, o.side, o.price)(Matching.EntryOf(rows, id)) else 0
  {
  }

  /**
   With no more than fifty open orders on the opposing side, a placement trades the smaller of its amount and of all that
   open orders of other users at its limit or better have left, and leaves no crossing pair behind.
   */
  lemma {:induction false} ShortSideTradesAll(d: Desk, o: Order)
    requires DeskOk(d) && Fresh(o)
    requires Sum(d.rows, Resting(o.pair, if o.side == BUY then SELL else BUY)) <= 50
    ensures 0 <= Sum(d.rows, Offered(o))
    ensures Sum(Place(d, o).1, Traded()) == Min(o.amount, Sum(d.rows, Offered(o)))
    ensures Uncrossed(d.rows) ==> Uncrossed(Place(d, o).0.rows)
  {
    hide DeskOk, Place, TakerFills;
    SumNonNegative(d.rows, Offered(o));
    ShortSideIsFetched(d, o);
    PlaceFillsAreGood(d, o);
    FillsAreExact(BestOpposing(d.book, o.pair, o.side), o.user, o.side, o.price, o.amount);
    FillsOfPlace(d, o);
    PlaceTaker(d, o);
    TradedIsFilled(o, |d.rows|, PlaceFills(d, o));
    if Uncrossed(d.rows) {
      NoBlindSpotWithin(d, o);
      PlaceUncrossedIff(d, o);
    }
  }

  lemma FillsOfPlace(d: Desk, o: Order)
    requires Fresh(o)
    ensures PlaceFills(d, o) == Fills(BestOpposing(d.book, o.pair, o.side), o.user, o.side, o.price, o.amount)
  {
  }

  lemma {:induction false} NoBlindSpotWithin(d: Desk, o: Order)
    requires DeskOk(d) && Fresh(o)
    requires Sum(d.rows, Resting(o.pair, if o.side == BUY then SELL else BUY)) <= 50
    ensures !BlindSpot(d, o)
  {
    SideLength(d.rows, d.book, ZKey(o.pair, o.side.Opposite()));
    ShortSideIsSeen(d, o);
  }

  // ---------------------------------------------------------------------------------------------------------
  // The depth view
  // ---------------------------------------------------------------------------------------------------------

  predicate BetterPrice(side: Side, a: nat, b: nat)
  {
    if side == BUY then a > b else a < b
  }

  /** A price is shown, or the view is full and shows only better ones. */
  predicate ShownOrCut(side: Side, levels: seq<Level>, depth: nat, price: nat)
  {
    || (exists i :: 0 <= i < |levels| && levels[i].price == price)
    || (|levels| == (if depth == 0 then 1 else depth)
        && forall i :: 0 <= i < |levels| ==> BetterPrice(side, levels[i].price, price))
  }

  /**
   The depth view of a side with no more than twice its depth of open orders, or of any side for a depth of 0: at most
   depth levels, one for depth 0; strictly from the best price on; each with the amount and the number of all open orders
   at its price; and no price is left out unless the view is full of better ones.
   */
  lemma {:induction false} DepthShowsTable(rows: seq<Order>, b: Book, k: ZKey, depth: nat)
    requires Agrees(rows, b, |rows|)
    ensures var levels := DepthOf(b, k, depth);
            && |levels| <= (if depth == 0 then 1 else depth)
            && (forall i, j :: 0 <= i < j < |levels| ==> BetterPrice(k.side, levels[i].price, levels[j].price))
            && (depth == 0 || Sum(rows, Resting(k.pair, k.side)) <= 2 * depth ==>
                  && (forall i :: 0 <= i < |levels| ==>
                        && levels[i].amount == Sum(rows, RestingAt(k.pair, k.side, levels[i].price))
                        && levels[i].count == Sum(rows, OrdersAt(k.pair, k.side, levels[i].price)))
                  && (forall id: OrderId :: id < |rows| && Rests(rows[id], k.pair, k.side) ==>
                        ShownOrCut(k.side, levels, depth, rows[id].price)))
  {
    hide Agrees, DepthOf;
    var levels := DepthOf(b, k, depth);
    LevelsAreOrderedSums(rows, b, |rows|, k, depth);
    LevelCount(b, k, depth);
    if depth == 0 || Sum(rows, Resting(k.pair, k.side)) <= 2 * depth {
      forall i | 0 <= i < |levels|
        ensures levels[i].amount == Sum(rows, RestingAt(k.pair, k.side, levels[i].price))
        ensures levels[i].count == Sum(rows, OrdersAt(k.pair, k.side, levels[i].price))
      {
        WholeSideRead(rows, b, k, depth, levels[i].price);
      }
      forall id: OrderId | id < |rows| && Rests(rows[id], k.pair, k.side)
        ensures ShownOrCut(k.side, levels, depth, rows[id].price)
      {
        EveryPriceShown(rows, b, k, depth, id);
      }
    }
  }

  lemma LevelCount(b: Book, k: ZKey, depth: nat)
    ensures |DepthOf(b, k, depth)| == Min(|Prices(Read(b, k, depth))|, if depth == 0 then 1 else depth)
    ensures forall i :: 0 <= i < |DepthOf(b, k, depth)| ==>
              DepthOf(b, k, depth)[i].price == Prices(Read(b, k, depth))[i]
  {
  }

  /** The view reads a side's best orders, twice as many as its depth, or all of them for depth 0. */
  lemma WindowIsTwiceDepth(b: Book, k: ZKey, depth: nat)
    ensures var z := if k.side == BUY then Reverse(ZSet(b, k)) else ZSet(b, k);
            Window(b, k, depth) == if depth == 0 then z else First(z, 2 * depth)
  {
  }

  lemma {:induction false} WholeSideRead(rows: seq<Order>, b: Book, k: ZKey, depth: nat, price: nat)
    requires Agrees(rows, b, |rows|)
    requires depth == 0 || Sum(rows, Resting(k.pair, k.side)) <= 2 * depth
    ensures WholeSide(rows, k, Window(b, k, depth))
    ensures Sum(Read(b, k, depth), RemainingAt(price)) == Sum(rows, RestingAt(k.pair, k.side, price))
    ensures Sum(Read(b, k, depth), CountAt(price)) == Sum(rows, OrdersAt(k.pair, k.side, price))
  {
    hide DetailsAgree, SetsAgree, SetsSorted, WholeSide;
    SideLength(rows, b, k);
    SetIsWholeSide(rows, b, k);
    WindowIsTwiceDepth(b, k, depth);
    SideSum(rows, b, k, Window(b, k, depth), RemainingAt(price), RestingAt(k.pair, k.side, price));
    SideSum(rows, b, k, Window(b, k, depth), CountAt(price), OrdersAt(k.pair, k.side, price));
  }

  lemma {:induction false} EveryPriceShown(rows: seq<Order>, b: Book, k: ZKey, depth: nat, id: OrderId)
    requires Agrees(rows, b, |rows|) && id < |rows| && Rests(rows[id], k.pair, k.side)
    requires depth == 0 || Sum(rows, Resting(k.pair, k.side)) <= 2 * depth
    ensures ShownOrCut(k.side, DepthOf(b, k, depth), depth, rows[id].price)
  {
    hide DepthOf, Agrees, Prices, Read;
    var read, levels, price := Read(b, k, depth), DepthOf(b, k, depth), rows[id].price;
    EveryOrderRead(rows, b, k, depth, id);
    PricesMeaning(read);
    var p :| 0 <= p < |Prices(read)| && Prices(read)[p] == price;
    LevelCount(b, k, depth);
    if p < |levels| {
      assert levels[p].price == price;
    } else {
      ReadIsOrdered(rows, b, |rows|, k, depth);
      OrderedPrices(k.side, read);
    }
  }

  lemma {:induction false} EveryOrderRead(rows: seq<Order>, b: Book, k: ZKey, depth: nat, id: OrderId)
    requires Agrees(rows, b, |rows|) && id < |rows| && Rests(rows[id], k.pair, k.side)
    requires depth == 0 || Sum(rows, Resting(k.pair, k.side)) <= 2 * depth
    ensures rows[id].price in Prices(Read(b, k, depth))
  {
    hide SetsAgree, SetsSorted, Prices, Window;
    var ids, read := Window(b, k, depth), Read(b, k, depth);
    WholeSideRead(rows, b, k, depth, rows[id].price);
    var i :| 0 <= i < |ids| && ids[i].id == id;
    forall j | 0 <= j < |ids| ensures ids[j].id in b.details {
      WindowMember(rows, b, |rows|, k, depth, j);
    }
    LookupAll(b.details, ids);
    assert read[i] == Matching.EntryOf(rows, id);
    PricesMeaning(read);
  }

  /**
   The level total adds up the first 501 members of a side, the lowest prices; on a side of no more than 501 open orders
   it is what all of them at the price have left.
   */
  lemma {:induction false} LevelTotalOfTable(rows: seq<Order>, b: Book, pair: Pair, side: Side, price: nat)
    requires Agrees(rows, b, |rows|)
    ensures LevelTotal(b, pair, side, price)
         == Sum(Lookup(b.details, First(ZSet(b, ZKey(pair, side)), 501)), RemainingAt(price))
    ensures Sum(rows, Resting(pair, side)) <= 501 ==>
              LevelTotal(b, pair, side, price) == Sum(rows, RestingAt(pair, side, price))
  {
    hide DetailsAgree, SetsAgree, SetsSorted, WholeSide;
    var k := ZKey(pair, side);
    RangeIsFirst(ZSet(b, k), 501, false);
    SideLength(rows, b, k);
    SetIsWholeSide(rows, b, k);
    SideSum(rows, b, k, ZSet(b, k), RemainingAt(price), RestingAt(pair, side, price));
  }
}
