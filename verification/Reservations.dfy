/**
 What orders reserve and what trades take: matching releases at least as much reservation as settlement will later
 deduct, on every account, and at most two units a buy more.
 */
module Reservations {
  import opened Domain
  import opened Sums
  import Money
  import opened OrderBook
  import opened Matching
  import opened Agreement
  import opened Settlement

  /** The reservation of an order side for an amount, rounded half-up for a buy. */
  function LockAmount(side: Side, price: nat, amount: nat): nat
  {
    if side == BUY then Money.MulHalfUp(price, amount) else amount
  }

  /** What the open part of an order keeps reserved on an account. */
  function Reserved(a: Account): Order -> int
  {
    (o: Order) => if o.Active() && o.Funding() == a then LockAmount(o.side, o.price, o.remaining) else 0
  }

  /** Counts the trades in which an account pays as the buyer's quote account. */
  function BuysOn(a: Account): Trade -> int
  {
    (t: Trade) => if a == BuyerQuote(t) then 1 else 0
  }

  /** The maker's and the taker's part of what a fill will deduct from an account. */
  function MakerPart(taker: Order, a: Account): Fill -> int
  {
    (f: Fill) =>
      if Account(f.maker.user, if taker.side == BUY then taker.pair.Base() else taker.pair.Quote()) != a then 0
      else if taker.side == BUY then f.quantity
      else Money.BuyerDeduction(f.maker.price, f.maker.price, f.quantity)
  }

  function TakerPart(taker: Order, a: Account): Fill -> int
  {
    (f: Fill) =>
      if taker.Funding() != a then 0
      else if taker.side == BUY then Money.BuyerDeduction(taker.price, f.maker.price, f.quantity)
      else f.quantity
  }

  function MakerBuys(taker: Order, a: Account): Fill -> int
  {
    (f: Fill) => if taker.side == SELL && Account(f.maker.user, taker.pair.Quote()) == a then 1 else 0
  }

  function TakerBuys(taker: Order, a: Account): Fill -> int
  {
    (f: Fill) => if taker.side == BUY && taker.Funding() == a then 1 else 0
  }

  /** A fill's trade deducts exactly the two parts and counts as one buy of one party. */
  lemma TradeParts(taker: Order, id: OrderId, f: Fill, a: Account)
    ensures TradeDeduction(a)(TradeOf(taker, id, f)) == MakerPart(taker, a)(f) + TakerPart(taker, a)(f)
    ensures BuysOn(a)(TradeOf(taker, id, f)) == MakerBuys(taker, a)(f) + TakerBuys(taker, a)(f)
  {
  }

  lemma {:induction false} TradesParts(taker: Order, id: OrderId, fills: seq<Fill>, a: Account)
    ensures Sum(TradesOf(taker, id, fills), TradeDeduction(a))
         == Sum(fills, MakerPart(taker, a)) + Sum(fills, TakerPart(taker, a))
    ensures Sum(TradesOf(taker, id, fills), BuysOn(a))
         == Sum(fills, MakerBuys(taker, a)) + Sum(fills, TakerBuys(taker, a))
  {
    if fills != [] {
      var init := fills[..|fills| - 1];
      TradesParts(taker, id, init, a);
      TradeParts(taker, id, fills[|fills| - 1], a);
      var trades := TradesOf(taker, id, fills);
      assert trades[..|trades| - 1] == TradesOf(taker, id, init);
    }
  }

  /** One maker releases at least its part of the deduction, and at most two units more when it buys. */
  lemma MakerReleases(taker: Order, maker: Order, f: Fill, a: Account)
    requires maker.Active() && maker.side == taker.side.Opposite() && maker.pair == taker.pair
    requires f.maker.user == maker.user && f.maker.price == maker.price && f.quantity <= maker.remaining
    ensures var gap := Reserved(a)(maker) - Reserved(a)(Filled(maker, f.quantity)) - MakerPart(taker, a)(f);
            0 <= gap <= 2 * MakerBuys(taker, a)(f)
  {
    if maker.side == BUY {
      Money.ReservationStep(maker.price, maker.price, f.quantity, maker.remaining);
      assert Money.MulHalfUp(maker.price, 0) == 0;
    }
  }

  lemma {:induction false} MakersRelease(d: Desk, n: nat, taker: Order, fills: seq<Fill>, a: Account)
    requires Agrees(d.rows, d.book, n) && TableConsistent(d.rows)
    requires GoodFills(d.rows, n, taker.pair, taker.side, fills)
    ensures var gap := Sum(d.rows, Reserved(a)) - Sum(ApplyFills(d, taker.side, fills).rows, Reserved(a))
                       - Sum(fills, MakerPart(taker, a));
            0 <= gap <= 2 * Sum(fills, MakerBuys(taker, a))
  {
    if fills != [] {
      var init, f := fills[..|fills| - 1], fills[|fills| - 1];
      LastFill(d, n, taker.pair, taker.side, fills);
      MakersRelease(d, n, taker, init, a);
      var mid := ApplyFills(d, taker.side, init);
      var maker := d.rows[f.maker.id];
      FillAgrees(mid, n, taker.side, f);
      SumUpdate(mid.rows, f.maker.id, Filled(maker, f.quantity), Reserved(a));
      MakerReleases(taker, maker, f, a);
    }
  }

  /** The executions of a buying taker. */
  function Executions(fills: seq<Fill>): (r: seq<Money.Execution>)
    ensures |r| == |fills|
    ensures forall i :: 0 <= i < |r| ==> r[i] == Money.Execution(fills[i].maker.price, fills[i].quantity)
  {
    seq(|fills|, i requires 0 <= i < |fills| => Money.Execution(fills[i].maker.price, fills[i].quantity))
  }

  lemma {:induction false} ExecutionSums(taker: Order, fills: seq<Fill>, a: Account)
    requires taker.side == BUY && taker.Funding() == a
    ensures Sum(Executions(fills), Money.Quantity()) == Sum(fills, Quantity())
    ensures Sum(Executions(fills), Money.Deduction(taker.price)) == Sum(fills, TakerPart(taker, a))
    ensures Sum(fills, TakerBuys(taker, a)) == |fills|
  {
    if fills != [] {
      var init := fills[..|fills| - 1];
      ExecutionSums(taker, init, a);
      assert Executions(fills)[..|fills| - 1] == Executions(init);
    }
  }

  lemma {:induction false} SellerParts(taker: Order, fills: seq<Fill>, a: Account)
    ensures taker.Funding() != a ==> Sum(fills, TakerPart(taker, a)) == 0
    ensures taker.side == SELL && taker.Funding() == a ==> Sum(fills, TakerPart(taker, a)) == Sum(fills, Quantity())
    ensures 0 <= Sum(fills, TakerBuys(taker, a))
  {
    if fills != [] {
      SellerParts(taker, fills[..|fills| - 1], a);
    }
  }

  /** The taker's lock covers all its fills at maker prices and what stays open of it. */
  lemma TakerReleases(taker: Order, fills: seq<Fill>, after: Order, a: Account)
    requires Fresh(taker) && 0 <= Sum(fills, Quantity()) <= taker.amount
    requires forall i :: 0 <= i < |fills| ==> Crosses(taker.side, taker.price, fills[i].maker.price)
    requires after == taker.(filled := Sum(fills, Quantity()), remaining := taker.amount - Sum(fills, Quantity()),
                             status := after.status)
    requires after.Active() <==> after.remaining > 0
    ensures var gap := Reserved(a)(taker) - Reserved(a)(after) - Sum(fills, TakerPart(taker, a));
            0 <= gap <= 2 * Sum(fills, TakerBuys(taker, a))
  {
    SellerParts(taker, fills, a);
    if taker.Funding() == a && taker.side == BUY {
      ExecutionSums(taker, fills, a);
      var executions := Executions(fills);
      Money.MixedRoundingSuffices(taker.price, executions, after.remaining);
      assert Money.MulHalfUp(taker.price, 0) == 0;
    }
  }

  /**
   Placing an order turns its lock into reservations and future deductions. On no account do these exceed what was
   there before plus the lock, and they fall short by at most two units a new buy.
   */
  lemma {:induction false} PlaceReleases(d: Desk, o: Order, a: Account)
    requires DeskOk(d) && Fresh(o)
    ensures var (end, trades) := Place(d, o);
            var gap := Sum(d.rows, Reserved(a)) + Reserved(a)(o) - Sum(end.rows, Reserved(a))
                       - Sum(trades, TradeDeduction(a));
            0 <= gap <= 2 * Sum(trades, BuysOn(a))
  {
    var n, start, fills := |d.rows|, Desk(d.rows + [o], d.book), PlaceFills(d, o);
    var mid, end := MidDesk(d, o), Place(d, o).0;
    PlaceMakers(d, o);
    PlaceFillsCross(d, o);
    PlaceTaker(d, o);
    SumAppend(d.rows, o, Reserved(a));
    MakersRelease(start, n, o, fills, a);
    TradesParts(o, n, fills, a);
    SumUpdate(mid.rows, n, end.rows[n], Reserved(a));
    TakerReleases(o, fills, end.rows[n], a);
  }

  // ---------------------------------------------------------------------------------------------------------
  // Each order's own account
  // ---------------------------------------------------------------------------------------------------------

  /** The quantity an order traded, what was paid for it as a buy, and the number of its buys, over all trades. */
  function TradedBy(id: OrderId): Trade -> int
  {
    (t: Trade) => (if t.buyOrder == id then t.quantity else 0) + (if t.sellOrder == id then t.quantity else 0)
  }

  function PaidBy(id: OrderId): Trade -> int
  {
    (t: Trade) => if t.buyOrder == id then Money.BuyerDeduction(t.buyerLimit, t.price, t.quantity) else 0
  }

  function BoughtBy(id: OrderId): Trade -> int
  {
    (t: Trade) => if t.buyOrder == id then 1 else 0
  }

  /** Filled equals traded; what a buy order's lock exceeds its payments and its open part by is rounding dust. */
  ghost predicate OrderAccounted(o: Order, id: OrderId, trades: seq<Trade>)
  {
    && Sum(trades, TradedBy(id)) == o.filled
    && (o.side == BUY ==>
          0 <= Money.MulHalfUp(o.price, o.amount) - Money.MulHalfUp(o.price, o.remaining) - Sum(trades, PaidBy(id))
            <= 2 * Sum(trades, BoughtBy(id)))
  }

  ghost predicate OrdersAccounted(rows: seq<Order>, n: nat, trades: seq<Trade>)
  {
    n <= |rows| && forall id: OrderId :: id < n ==> OrderAccounted(rows[id], id, trades)
  }

  /** A fill moves its maker's account and nobody else's among the older orders. */
  lemma FillAccounts(o: Order, id: OrderId, before: Order, taker: Order, n: nat, f: Fill, trades: seq<Trade>)
    requires OrderAccounted(before, id, trades) && id < n
    requires if id == f.maker.id
             then && before.side == taker.side.Opposite() && f.maker.price == before.price
                  && f.quantity <= before.remaining && o == Filled(before, f.quantity)
             else o == before
    ensures OrderAccounted(o, id, trades + [TradeOf(taker, n, f)])
  {
    var t := TradeOf(taker, n, f);
    SumAppend(trades, t, TradedBy(id));
    SumAppend(trades, t, PaidBy(id));
    SumAppend(trades, t, BoughtBy(id));
    if id == f.maker.id && before.side == BUY {
      Money.ReservationStep(before.price, before.price, f.quantity, before.remaining);
    }
  }

  lemma {:induction false} FillAccountsAll(mid: Desk, n: nat, taker: Order, f: Fill, trades: seq<Trade>)
    requires Ready(mid, n, taker.side, f) && OrdersAccounted(mid.rows, n, trades)
    ensures OrdersAccounted(ApplyFill(mid, taker.side, f).rows, n, trades + [TradeOf(taker, n, f)])
  {
    var end := ApplyFill(mid, taker.side, f);
    FillAgrees(mid, n, taker.side, f);
    forall id: OrderId | id < n ensures OrderAccounted(end.rows[id], id, trades + [TradeOf(taker, n, f)]) {
      FillAccounts(end.rows[id], id, mid.rows[id], taker, n, f, trades);
    }
  }

  lemma TradesMore(taker: Order, n: nat, fills: seq<Fill>)
    requires fills != []
    ensures TradesOf(taker, n, fills)
         == TradesOf(taker, n, fills[..|fills| - 1]) + [TradeOf(taker, n, fills[|fills| - 1])]
  {
  }

  lemma {:induction false} MakersAccounted(d: Desk, n: nat, taker: Order, fills: seq<Fill>, trades: seq<Trade>)
    requires Agrees(d.rows, d.book, n) && TableConsistent(d.rows)
    requires GoodFills(d.rows, n, taker.pair, taker.side, fills) && OrdersAccounted(d.rows, n, trades)
    ensures OrdersAccounted(ApplyFills(d, taker.side, fills).rows, n, trades + TradesOf(taker, n, fills))
  {
    if fills == [] {
      assert trades + TradesOf(taker, n, fills) == trades;
    } else {
      var init, f := fills[..|fills| - 1], fills[|fills| - 1];
      LastFill(d, n, taker.pair, taker.side, fills);
      MakersAccounted(d, n, taker, init, trades);
      var mid, earlier := ApplyFills(d, taker.side, init), trades + TradesOf(taker, n, init);
      FillAccountsAll(mid, n, taker, f, earlier);
      TradesMore(taker, n, fills);
      assert trades + (TradesOf(taker, n, init) + [TradeOf(taker, n, f)]) == earlier + [TradeOf(taker, n, f)];
    }
  }

  lemma {:induction false} TakerSums(taker: Order, n: nat, fills: seq<Fill>)
    requires forall i :: 0 <= i < |fills| ==> fills[i].maker.id != n
    ensures Sum(TradesOf(taker, n, fills), TradedBy(n)) == Sum(fills, Quantity())
    ensures taker.side == BUY ==>
              && Sum(TradesOf(taker, n, fills), PaidBy(n)) == Sum(fills, TakerPart(taker, taker.Funding()))
              && Sum(TradesOf(taker, n, fills), BoughtBy(n)) == |fills|
  {
    if fills != [] {
      var init := fills[..|fills| - 1];
      assert forall i :: 0 <= i < |init| ==> init[i] == fills[i];
      TakerSums(taker, n, init);
      var trades := TradesOf(taker, n, fills);
      assert trades[..|trades| - 1] == TradesOf(taker, n, init);
    }
  }

  /** Trades among older orders say nothing about a new one. */
  lemma NoTradesYet(trades: seq<Trade>, n: OrderId)
    requires forall i :: 0 <= i < |trades| ==> trades[i].buyOrder < n && trades[i].sellOrder < n
    ensures Sum(trades, TradedBy(n)) == 0 && Sum(trades, PaidBy(n)) == 0 && Sum(trades, BoughtBy(n)) == 0
  {
    SumZero(trades, TradedBy(n));
    SumZero(trades, PaidBy(n));
    SumZero(trades, BoughtBy(n));
  }

  lemma TakerAccounted(o: Order, fills: seq<Fill>, after: Order, n: nat, trades: seq<Trade>)
    requires Fresh(o) && 0 <= Sum(fills, Quantity()) <= o.amount
    requires forall i :: 0 <= i < |fills| ==>
               Crosses(o.side, o.price, fills[i].maker.price) && fills[i].maker.id != n
    requires after == o.(filled := Sum(fills, Quantity()), remaining := o.amount - Sum(fills, Quantity()),
                         status := after.status)
    requires forall i :: 0 <= i < |trades| ==> trades[i].buyOrder < n && trades[i].sellOrder < n
    ensures OrderAccounted(after, n, trades + TradesOf(o, n, fills))
  {
    TakerTotals(o, fills, n, trades);
    if o.side == BUY {
      ExecutionSums(o, fills, o.Funding());
      Money.MixedRoundingSuffices(o.price, Executions(fills), after.remaining);
    }
  }

  lemma TakerTotals(o: Order, fills: seq<Fill>, n: nat, trades: seq<Trade>)
    requires forall i :: 0 <= i < |fills| ==> fills[i].maker.id != n
    requires forall i :: 0 <= i < |trades| ==> trades[i].buyOrder < n && trades[i].sellOrder < n
    ensures var all := trades + TradesOf(o, n, fills);
            && Sum(all, TradedBy(n)) == Sum(fills, Quantity())
            && (o.side == BUY ==>
                  && Sum(all, PaidBy(n)) == Sum(fills, TakerPart(o, o.Funding()))
                  && Sum(all, BoughtBy(n)) == |fills|)
  {
    var more := TradesOf(o, n, fills);
    NoTradesYet(trades, n);
    TakerSums(o, n, fills);
    SumConcat(trades, more, TradedBy(n));
    SumConcat(trades, more, PaidBy(n));
    SumConcat(trades, more, BoughtBy(n));
  }

  /** Every order stays accounted for when an order is placed. */
  lemma PlaceKeepsAccounts(d: Desk, o: Order, trades: seq<Trade>)
    requires DeskOk(d) && Fresh(o) && OrdersAccounted(d.rows, |d.rows|, trades)
    requires forall i :: 0 <= i < |trades| ==> trades[i].buyOrder < |d.rows| && trades[i].sellOrder < |d.rows|
    ensures var (end, more) := Place(d, o); OrdersAccounted(end.rows, |end.rows|, trades + more)
  {
    var n, start, fills := |d.rows|, Desk(d.rows + [o], d.book), PlaceFills(d, o);
    var mid, end := MidDesk(d, o), Place(d, o).0;
    PlaceMakers(d, o);
    PlaceFillsCross(d, o);
    PlaceTaker(d, o);
    assert OrdersAccounted(start.rows, n, trades);
    MakersAccounted(start, n, o, fills, trades);
    TakerAccounted(o, fills, end.rows[n], n, trades);
    forall id: OrderId | id < |end.rows| ensures OrderAccounted(end.rows[id], id, trades + TradesOf(o, n, fills)) {
      if id < n {
        assert end.rows[id] == mid.rows[id];
      }
    }
  }
}
