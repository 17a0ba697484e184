/**
 The matching engine: which fills an incoming order gets from the candidates the book offers, what those fills do to
 the orders table and the book, and the loop that does it.
 */
module Matching {
  import opened Wrappers
  import opened Domain
  import opened Sums
  import opened OrderBook

  datatype Fill = Fill(maker: Entry, quantity: nat)

  predicate Crosses(side: Side, limit: nat, price: nat)
  {
    if side == BUY then limit >= price else limit <= price
  }

  predicate Eligible(e: Entry, user: UserId, side: Side, limit: nat)
  {
    e.user != user && Crosses(side, limit, e.price)
  }

  /** The engine's loop over the candidates, best price first. */
  function Fills(candidates: seq<Entry>, user: UserId, side: Side, limit: nat, need: nat): seq<Fill>
  {
    if need == 0 || candidates == [] then []
    else if candidates[0].user == user then Fills(candidates[1..], user, side, limit, need)
    else if !Crosses(side, limit, candidates[0].price) then []
    else
      var q := Min(need, candidates[0].remaining);
      [Fill(candidates[0], q)] + Fills(candidates[1..], user, side, limit, need - q)
  }

  function Quantity(): Fill -> int
  {
    (f: Fill) => f.quantity
  }

  function EligibleRemaining(user: UserId, side: Side, limit: nat): Entry -> int
  {
    (e: Entry) => if Eligible(e, user, side, limit) then e.remaining else 0
  }

  /** A price as the taker ranks it: lower is better for both sides. */
  function Rank(side: Side, price: nat): int
  {
    if side == BUY then price else 0 - price
  }

  predicate BestFirst(side: Side, candidates: seq<Entry>)
  {
    forall i, j :: 0 <= i < j < |candidates| ==> Rank(side, candidates[i].price) <= Rank(side, candidates[j].price)
  }

  predicate Resting(candidates: seq<Entry>)
  {
    forall i :: 0 <= i < |candidates| ==> candidates[i].remaining > 0
  }

  lemma SumFront<T>(s: seq<T>, f: T -> int)
    requires s != []
    ensures Sum(s, f) == f(s[0]) + Sum(s[1..], f)
  {
    assert s == [s[0]] + s[1..];
    SumConcat([s[0]], s[1..], f);
    assert [s[0]] == [] + [s[0]];
    SumAppend([], s[0], f);
  }

  /** Once one candidate does not cross, none after it does. */
  lemma NothingCrossesLater(candidates: seq<Entry>, user: UserId, side: Side, limit: nat)
    requires BestFirst(side, candidates) && candidates != [] && !Crosses(side, limit, candidates[0].price)
    ensures forall i :: 0 <= i < |candidates| ==> !Crosses(side, limit, candidates[i].price)
    ensures Sum(candidates, EligibleRemaining(user, side, limit)) == 0
  {
    forall i | 0 <= i < |candidates| ensures !Crosses(side, limit, candidates[i].price) {
      if i > 0 {
        assert Rank(side, candidates[0].price) <= Rank(side, candidates[i].price);
      }
    }
    SumZero(candidates, EligibleRemaining(user, side, limit));
  }

  /**
   Exact fill: breaking at the first price that does not cross and skipping the taker's own orders loses nothing. The
   traded quantity is the smaller of what the taker needs and what all crossing orders of other users offer.
   */
  lemma {:induction false} FillsAreExact(candidates: seq<Entry>, user: UserId, side: Side, limit: nat, need: nat)
    requires BestFirst(side, candidates)
    ensures 0 <= Sum(candidates, EligibleRemaining(user, side, limit))
    ensures Sum(Fills(candidates, user, side, limit, need), Quantity())
         == Min(need, Sum(candidates, EligibleRemaining(user, side, limit)))
  {
    var weight := EligibleRemaining(user, side, limit);
    SumNonNegative(candidates, weight);
    if need != 0 && candidates != [] {
      var rest := candidates[1..];
      SumFront(candidates, weight);
      assert BestFirst(side, rest);
      if candidates[0].user == user {
        FillsAreExact(rest, user, side, limit, need);
      } else if !Crosses(side, limit, candidates[0].price) {
        NothingCrossesLater(candidates, user, side, limit);
      } else {
        FillsAreExact(rest, user, side, limit, need - Min(need, candidates[0].remaining));
        FillsFront(candidates, user, side, limit, need);
      }
    }
  }

  /**
   Every fill is positive, within its maker's remaining amount, against a candidate of another user, and at a price
   inside both limits.
   */
  lemma {:induction false} FillsAreSound(candidates: seq<Entry>, user: UserId, side: Side, limit: nat, need: nat)
    requires Resting(candidates)
    ensures forall f :: f in Fills(candidates, user, side, limit, need) ==>
              && 0 < f.quantity <= f.maker.remaining
              && f.maker in candidates && Eligible(f.maker, user, side, limit)
  {
    if need != 0 && candidates != [] {
      var first, rest := candidates[0], candidates[1..];
      assert first in candidates && forall e :: e in rest ==> e in candidates;
      assert Resting(rest);
      if first.user == user {
        FillsAreSound(rest, user, side, limit, need);
      } else if Crosses(side, limit, first.price) {
        var q := Min(need, first.remaining);
        FillsAreSound(rest, user, side, limit, need - q);
        assert first.remaining > 0;
      }
    }
  }

  function Shifted(at: seq<nat>): (r: seq<nat>)
    ensures |r| == |at|
  {
    seq(|at|, k requires 0 <= k < |at| => at[k] + 1)
  }

  /** The makers are picked from the candidates in order and without repetition. */
  ghost predicate Picks(fills: seq<Fill>, candidates: seq<Entry>, at: seq<nat>)
  {
    && |at| == |fills|
    && (forall k :: 0 <= k < |at| ==> at[k] < |candidates| && fills[k].maker == candidates[at[k]])
    && (forall k, l :: 0 <= k < l < |at| ==> at[k] < at[l])
  }

  lemma PicksShift(fills: seq<Fill>, candidates: seq<Entry>, at: seq<nat>)
    requires candidates != [] && Picks(fills, candidates[1..], at)
    ensures Picks(fills, candidates, Shifted(at))
    ensures forall k :: 0 <= k < |at| ==> 0 < Shifted(at)[k]
  {
    var more := Shifted(at);
    forall k | 0 <= k < |more| ensures more[k] < |candidates| && fills[k].maker == candidates[more[k]] {
      assert candidates[1..][at[k]] == candidates[more[k]];
    }
    forall k, l | 0 <= k < l < |more| ensures more[k] < more[l] {
      assert at[k] < at[l];
    }
  }

  lemma PicksFront(f: Fill, fills: seq<Fill>, candidates: seq<Entry>, at: seq<nat>)
    requires candidates != [] && Picks(fills, candidates, at) && f.maker == candidates[0]
    requires forall k :: 0 <= k < |at| ==> 0 < at[k]
    ensures Picks([f] + fills, candidates, [0] + at)
  {
  }

  lemma {:induction false} FillsPick(candidates: seq<Entry>, user: UserId, side: Side, limit: nat, need: nat)
    returns (at: seq<nat>)
    ensures Picks(Fills(candidates, user, side, limit, need), candidates, at)
  {
    at := [];
    if need != 0 && candidates != [] {
      if candidates[0].user == user {
        var tail := FillsPick(candidates[1..], user, side, limit, need);
        PicksShift(Fills(candidates[1..], user, side, limit, need), candidates, tail);
        at := Shifted(tail);
      } else if Crosses(side, limit, candidates[0].price) {
        var q := Min(need, candidates[0].remaining);
        var tail := FillsPick(candidates[1..], user, side, limit, need - q);
        var rest := Fills(candidates[1..], user, side, limit, need - q);
        PicksShift(rest, candidates, tail);
        PicksFront(Fill(candidates[0], q), rest, candidates, Shifted(tail));
        at := [0] + Shifted(tail);
      }
    }
  }

  /** Trade prices run from best to worst. */
  lemma FillPricesAreMonotone(candidates: seq<Entry>, user: UserId, side: Side, limit: nat, need: nat)
    requires BestFirst(side, candidates)
    ensures var fills := Fills(candidates, user, side, limit, need);
            forall k, l :: 0 <= k < l < |fills| ==>
              Rank(side, fills[k].maker.price) <= Rank(side, fills[l].maker.price)
  {
    var fills := Fills(candidates, user, side, limit, need);
    var at := FillsPick(candidates, user, side, limit, need);
    forall k, l | 0 <= k < l < |fills| ensures Rank(side, fills[k].maker.price) <= Rank(side, fills[l].maker.price) {
      assert at[k] < at[l];
    }
  }

  // ---------------------------------------------------------------------------------------------------------
  // Greedy optimality
  // ---------------------------------------------------------------------------------------------------------

  ghost predicate NoneBelow(side: Side, candidates: seq<Entry>, floor: int)
  {
    forall i :: 0 <= i < |candidates| ==> floor <= Rank(side, candidates[i].price)
  }

  /** Any other way to trade: a quantity for each candidate, only from those the taker may trade with. */
  predicate Allocation(candidates: seq<Entry>, user: UserId, side: Side, limit: nat, take: seq<nat>)
  {
    && |take| == |candidates|
    && forall i :: 0 <= i < |take| ==>
         take[i] <= candidates[i].remaining && (take[i] > 0 ==> Eligible(candidates[i], user, side, limit))
  }

  function Taken(take: seq<nat>): nat
  {
    if take == [] then 0 else take[0] + Taken(take[1..])
  }

  /** The ranked cost of an allocation: what a buyer pays, or minus what a seller receives. */
  function AllocationCost(side: Side, candidates: seq<Entry>, take: seq<nat>): int
    requires |take| == |candidates|
  {
    if take == [] then 0
    else Rank(side, candidates[0].price) * take[0] + AllocationCost(side, candidates[1..], take[1..])
  }

  function FillCost(side: Side): Fill -> int
  {
    (f: Fill) => Rank(side, f.maker.price) * f.quantity
  }

  lemma {:induction false} NothingToTake(candidates: seq<Entry>, user: UserId, side: Side, limit: nat, take: seq<nat>)
    requires Allocation(candidates, user, side, limit, take)
    requires forall i :: 0 <= i < |candidates| ==> !Eligible(candidates[i], user, side, limit)
    ensures Taken(take) == 0 && AllocationCost(side, candidates, take) == 0
  {
    if take != [] {
      assert take[0] == 0;
      NothingToTake(candidates[1..], user, side, limit, take[1..]);
    }
  }

  /**
   The exchange argument. An allocation that takes extra units more than the greedy fills costs at least as much as
   they do plus the extra units at any price that no candidate undercuts.
   */
  lemma {:induction false} GreedyLowerBound(candidates: seq<Entry>, user: UserId, side: Side, limit: nat, need: nat,
                                            take: seq<nat>, floor: int, extra: nat)
    requires BestFirst(side, candidates) && Allocation(candidates, user, side, limit, take)
    requires NoneBelow(side, candidates, floor)
    requires Taken(take) == Sum(Fills(candidates, user, side, limit, need), Quantity()) + extra
    ensures AllocationCost(side, candidates, take)
         >= Sum(Fills(candidates, user, side, limit, need), FillCost(side)) + floor * extra
    decreases |candidates|, 1
  {
    if candidates == [] {
      assert Fills(candidates, user, side, limit, need) == [] && take == [];
    } else {
      var rest, tail, price := candidates[1..], take[1..], Rank(side, candidates[0].price);
      RestOfAllocation(candidates, user, side, limit, take, floor);
      AllocationFront(side, candidates, take);
      if need == 0 {
        assert Fills(rest, user, side, limit, 0) == [];
        GreedyLowerBound(rest, user, side, limit, 0, tail, price, Taken(tail));
        Exchange(price, floor, 0, take[0], Taken(tail), extra, AllocationCost(side, rest, tail), 0);
      } else if candidates[0].user == user {
        assert take[0] == 0;
        GreedyLowerBound(rest, user, side, limit, need, tail, floor, extra);
      } else if !Crosses(side, limit, candidates[0].price) {
        NothingCrossesLater(candidates, user, side, limit);
        NothingToTake(candidates, user, side, limit, take);
      } else {
        GreedyLowerBoundStep(candidates, user, side, limit, need, take, floor, extra);
      }
    }
  }

  lemma {:induction false} GreedyLowerBoundStep(candidates: seq<Entry>, user: UserId, side: Side, limit: nat, need: nat,
                                                take: seq<nat>, floor: int, extra: nat)
    requires BestFirst(side, candidates) && Allocation(candidates, user, side, limit, take)
    requires NoneBelow(side, candidates, floor)
    requires Taken(take) == Sum(Fills(candidates, user, side, limit, need), Quantity()) + extra
    requires need != 0 && candidates != [] && Eligible(candidates[0], user, side, limit)
    ensures AllocationCost(side, candidates, take)
         >= Sum(Fills(candidates, user, side, limit, need), FillCost(side)) + floor * extra
    decreases |candidates|, 0
  {
    var rest, tail, price := candidates[1..], take[1..], Rank(side, candidates[0].price);
    RestOfAllocation(candidates, user, side, limit, take, floor);
    var q := Min(need, candidates[0].remaining);
    var more := Fills(rest, user, side, limit, need - q);
    AllocationFront(side, candidates, take);
    FillsFront(candidates, user, side, limit, need);
    FillsAreExact(rest, user, side, limit, need - q);
    GreedyLowerBound(rest, user, side, limit, need - q, tail, price, extra + q - take[0]);
    Exchange(price, floor, q, take[0], extra + q - take[0], extra, AllocationCost(side, rest, tail),
             Sum(more, FillCost(side)));
  }

  /** The fills of a list whose first candidate trades: one fill, then those of the rest. */
  lemma FillsFront(candidates: seq<Entry>, user: UserId, side: Side, limit: nat, need: nat)
    requires need != 0 && candidates != [] && Eligible(candidates[0], user, side, limit)
    ensures var q := Min(need, candidates[0].remaining);
            var fills := Fills(candidates, user, side, limit, need);
            var more := Fills(candidates[1..], user, side, limit, need - q);
            && fills == [Fill(candidates[0], q)] + more
            && Sum(fills, Quantity()) == q + Sum(more, Quantity())
            && Sum(fills, FillCost(side)) == Rank(side, candidates[0].price) * q + Sum(more, FillCost(side))
  {
    var q := Min(need, candidates[0].remaining);
    var fills := Fills(candidates, user, side, limit, need);
    assert fills[1..] == Fills(candidates[1..], user, side, limit, need - q);
    SumFront(fills, Quantity());
    SumFront(fills, FillCost(side));
  }

  /** Moving units of the first candidate to later ones, whose prices are no better, cannot pay off. */
  lemma Exchange(price: int, floor: int, q: int, first: int, restExtra: int, extra: nat, restCost: int, restFills: int)
    requires floor <= price && first + restExtra == q + extra
    requires restCost >= restFills + price * restExtra
    ensures price * first + restCost >= price * q + restFills + floor * extra
  {
    assert price * first + price * restExtra == price * (first + restExtra) == price * q + price * extra;
    assert floor * extra <= price * extra;
  }

  lemma RestOfAllocation(candidates: seq<Entry>, user: UserId, side: Side, limit: nat, take: seq<nat>, floor: int)
    requires BestFirst(side, candidates) && Allocation(candidates, user, side, limit, take) && candidates != []
    requires NoneBelow(side, candidates, floor)
    ensures BestFirst(side, candidates[1..]) && Allocation(candidates[1..], user, side, limit, take[1..])
    ensures NoneBelow(side, candidates[1..], floor)
    ensures NoneBelow(side, candidates[1..], Rank(side, candidates[0].price))
    ensures floor <= Rank(side, candidates[0].price) && take[0] <= candidates[0].remaining
    ensures candidates[0].user == user ==> take[0] == 0
  {
    var rest := candidates[1..];
    forall i | 0 <= i < |rest| ensures Rank(side, candidates[0].price) <= Rank(side, rest[i].price) {
      assert rest[i] == candidates[i + 1];
    }
  }

  lemma AllocationFront(side: Side, candidates: seq<Entry>, take: seq<nat>)
    requires |take| == |candidates| && take != []
    ensures Taken(take) == take[0] + Taken(take[1..])
    ensures AllocationCost(side, candidates, take)
         == Rank(side, candidates[0].price) * take[0] + AllocationCost(side, candidates[1..], take[1..])
  {
  }

  /**
   Greedy optimality: no other way to trade the same quantity with the crossing orders of other users costs a buyer
   less or brings a seller more.
   */
  lemma GreedyIsOptimal(candidates: seq<Entry>, user: UserId, side: Side, limit: nat, need: nat, take: seq<nat>)
    requires BestFirst(side, candidates) && Allocation(candidates, user, side, limit, take)
    requires Taken(take) == Sum(Fills(candidates, user, side, limit, need), Quantity())
    ensures Sum(Fills(candidates, user, side, limit, need), FillCost(side)) <= AllocationCost(side, candidates, take)
  {
    if candidates == [] {
      assert take == [];
    } else {
      var floor := Rank(side, candidates[0].price);
      GreedyLowerBound(candidates, user, side, limit, need, take, floor, 0);
    }
  }

  /** The fills from the front of a list are those from the whole list, asked for just the quantity the front filled. */
  lemma {:induction false} FillsOfFront(front: seq<Entry>, rest: seq<Entry>, user: UserId, side: Side, limit: nat,
                                        need: nat)
    requires Resting(front)
    ensures var fills := Fills(front, user, side, limit, need);
            0 <= Sum(fills, Quantity()) && Fills(front + rest, user, side, limit, Sum(fills, Quantity())) == fills
  {
    if need != 0 && front != [] {
      var first, tail := front[0], front[1..];
      assert (front + rest)[0] == first && (front + rest)[1..] == tail + rest;
      assert Resting(tail);
      if first.user == user {
        FillsOfFront(tail, rest, user, side, limit, need);
      } else if Crosses(side, limit, first.price) {
        var q := Min(need, first.remaining);
        var later := Sum(Fills(tail, user, side, limit, need - q), Quantity());
        FillsOfFront(tail, rest, user, side, limit, need - q);
        FillsFront(front, user, side, limit, need);
        FillsFront(front + rest, user, side, limit, q + later);
        assert need < first.remaining ==> Fills(tail, user, side, limit, 0) == [] && later == 0;
        assert Min(q + later, first.remaining) == q;
      }
    }
  }

  /**
   Looking only at the front of a side loses nothing in price: no way to trade the same quantity with any crossing orders
   of other users on the whole side is better.
   */
  lemma {:induction false} FrontIsOptimal(front: seq<Entry>, all: seq<Entry>, user: UserId, side: Side, limit: nat,
                                          need: nat, take: seq<nat>)
    requires front <= all && BestFirst(side, all) && Resting(front) && Allocation(all, user, side, limit, take)
    requires Taken(take) == Sum(Fills(front, user, side, limit, need), Quantity())
    ensures Sum(Fills(front, user, side, limit, need), FillCost(side)) <= AllocationCost(side, all, take)
  {
    var rest := all[|front|..];
    assert all == front + rest;
    FillsOfFront(front, rest, user, side, limit, need);
    GreedyIsOptimal(all, user, side, limit, Sum(Fills(front, user, side, limit, need), Quantity()), take);
  }

  // ---------------------------------------------------------------------------------------------------------
  // What a match does to the orders table and the book
  // ---------------------------------------------------------------------------------------------------------

  datatype Desk = Desk(rows: seq<Order>, book: Book)

  function UpdateExecution(rows: seq<Order>, id: OrderId, filled: nat, remaining: nat, status: OrderStatus): seq<Order>
  {
    if id < |rows| then rows[id := rows[id].(filled := filled, remaining := remaining, status := status)] else rows
  }

  function ApplyFill(d: Desk, side: Side, f: Fill): Desk
    requires f.quantity <= f.maker.remaining
  {
    var left := f.maker.remaining - f.quantity;
    var filled := (if f.maker.id < |d.rows| then d.rows[f.maker.id].filled else 0) + f.quantity;
    Desk(UpdateExecution(d.rows, f.maker.id, filled, left, if left == 0 then FILLED else PARTIALLY_FILLED),
         if left == 0 then Remove(d.book, f.maker.id, f.maker.pair, side.Opposite())
         else UpdateRemaining(d.book, f.maker.id, left))
  }

  predicate Fitting(fills: seq<Fill>)
  {
    forall k :: 0 <= k < |fills| ==> fills[k].quantity <= fills[k].maker.remaining
  }

  function ApplyFills(d: Desk, side: Side, fills: seq<Fill>): Desk
    requires Fitting(fills)
  {
    if fills == [] then d
    else ApplyFill(ApplyFills(d, side, fills[..|fills| - 1]), side, fills[|fills| - 1])
  }

  function EntryOf(rows: seq<Order>, id: OrderId): Entry
    requires id < |rows|
  {
    var o := rows[id];
    Entry(id, o.user, o.pair, o.side, o.price, o.amount, o.remaining)
  }

  function TakerStatus(filled: nat, remaining: nat): OrderStatus
  {
    if remaining == 0 then FILLED else if filled > 0 then PARTIALLY_FILLED else OPEN
  }

  function SettleTaker(d: Desk, id: OrderId, filled: nat, remaining: nat): Desk
    requires id < |d.rows|
  {
    var rows := UpdateExecution(d.rows, id, filled, remaining, TakerStatus(filled, remaining));
    Desk(rows, if remaining == 0 then d.book else Add(d.book, EntryOf(rows, id)))
  }

  lemma {:induction false} FillsFit(candidates: seq<Entry>, user: UserId, side: Side, limit: nat, need: nat)
    ensures Fitting(Fills(candidates, user, side, limit, need))
    ensures 0 <= Sum(Fills(candidates, user, side, limit, need), Quantity()) <= need
  {
    var fills := Fills(candidates, user, side, limit, need);
    if need != 0 && candidates != [] {
      var rest := candidates[1..];
      if candidates[0].user == user {
        FillsFit(rest, user, side, limit, need);
      } else if Crosses(side, limit, candidates[0].price) {
        var q := Min(need, candidates[0].remaining);
        FillsFit(rest, user, side, limit, need - q);
        assert fills[1..] == Fills(rest, user, side, limit, need - q);
        SumFront(fills, Quantity());
      }
    }
  }

  function TakerFills(d: Desk, id: OrderId): (fills: seq<Fill>)
    requires id < |d.rows|
    ensures Fitting(fills) && 0 <= Sum(fills, Quantity()) <= d.rows[id].remaining
  {
    var o := d.rows[id];
    FillsFit(BestOpposing(d.book, o.pair, o.side), o.user, o.side, o.price, o.remaining);
    Fills(BestOpposing(d.book, o.pair, o.side), o.user, o.side, o.price, o.remaining)
  }

  function TradeOf(taker: Order, id: OrderId, f: Fill): Trade
  {
    if taker.side == BUY then
      Trade(id, f.maker.id, taker.user, f.maker.user, taker.pair, f.maker.price, f.quantity, taker.price)
    else
      Trade(f.maker.id, id, f.maker.user, taker.user, taker.pair, f.maker.price, f.quantity, f.maker.price)
  }

  function TradesOf(taker: Order, id: OrderId, fills: seq<Fill>): (trades: seq<Trade>)
    ensures |trades| == |fills|
    ensures forall k :: 0 <= k < |fills| ==> trades[k] == TradeOf(taker, id, fills[k])
  {
    seq(|fills|, k requires 0 <= k < |fills| => TradeOf(taker, id, fills[k]))
  }

  /** executeMatch for the stored, not yet listed order with the given id. */
  function Match(d: Desk, id: OrderId): (Desk, seq<Trade>)
    requires id < |d.rows|
  {
    var taker := d.rows[id];
    var fills := TakerFills(d, id);
    var traded := Sum(fills, Quantity());
    ApplyFillsLength(d, taker.side, fills);
    (SettleTaker(ApplyFills(d, taker.side, fills), id, taker.filled + traded, taker.remaining - traded),
     TradesOf(taker, id, fills))
  }

  lemma {:induction false} ApplyFillsLength(d: Desk, side: Side, fills: seq<Fill>)
    requires Fitting(fills)
    ensures |ApplyFills(d, side, fills).rows| == |d.rows|
  {
    if fills != [] {
      ApplyFillsLength(d, side, fills[..|fills| - 1]);
    }
  }

  /** One turn of the loop: stop, skip, or fill and go on. */
  lemma FillsNext(candidates: seq<Entry>, i: nat, user: UserId, side: Side, limit: nat, need: nat)
    requires i < |candidates|
    ensures var c := candidates[i];
            var now, later := Fills(candidates[i..], user, side, limit, need), candidates[i + 1..];
            && (need == 0 || (c.user != user && !Crosses(side, limit, c.price)) ==> now == [])
            && (need != 0 && c.user == user ==> now == Fills(later, user, side, limit, need))
            && (need != 0 && Eligible(c, user, side, limit) ==>
                  var q := Min(need, c.remaining);
                  now == [Fill(c, q)] + Fills(later, user, side, limit, need - q))
  {
    assert candidates[i..][1..] == candidates[i + 1..];
  }

  /** What the loop has done before looking at candidate i, and what the remaining candidates will still fill. */
  ghost predicate Progress(d: Desk, now: Desk, opposing: seq<Entry>, i: nat, taker: Order, id: OrderId,
                           fills: seq<Fill>, trades: seq<Trade>, filled: nat, remaining: nat)
  {
    && i <= |opposing| && Fitting(fills)
    && Fills(opposing, taker.user, taker.side, taker.price, taker.remaining)
       == fills + Fills(opposing[i..], taker.user, taker.side, taker.price, remaining)
    && now == ApplyFills(d, taker.side, fills)
    && trades == TradesOf(taker, id, fills)
    && remaining == taker.remaining - Sum(fills, Quantity())
    && filled == taker.filled + Sum(fills, Quantity())
  }

  lemma SkipOwn(d: Desk, now: Desk, opposing: seq<Entry>, i: nat, taker: Order, id: OrderId,
                fills: seq<Fill>, trades: seq<Trade>, filled: nat, remaining: nat)
    requires Progress(d, now, opposing, i, taker, id, fills, trades, filled, remaining)
    requires i < |opposing| && remaining != 0 && opposing[i].user == taker.user
    ensures Progress(d, now, opposing, i + 1, taker, id, fills, trades, filled, remaining)
  {
    FillsNext(opposing, i, taker.user, taker.side, taker.price, remaining);
  }

  lemma FillOne(d: Desk, now: Desk, opposing: seq<Entry>, i: nat, taker: Order, id: OrderId,
                fills: seq<Fill>, trades: seq<Trade>, filled: nat, remaining: nat, q: nat)
    requires Progress(d, now, opposing, i, taker, id, fills, trades, filled, remaining)
    requires i < |opposing| && remaining != 0 && Eligible(opposing[i], taker.user, taker.side, taker.price)
    requires q == Min(remaining, opposing[i].remaining)
    ensures var f := Fill(opposing[i], q);
            Progress(d, ApplyFill(now, taker.side, f), opposing, i + 1, taker, id, fills + [f],
                     trades + [TradeOf(taker, id, f)], filled + q, remaining - q)
  {
    FillsNext(opposing, i, taker.user, taker.side, taker.price, remaining);
    var f := Fill(opposing[i], q);
    var later := Fills(opposing[i + 1..], taker.user, taker.side, taker.price, remaining - q);
    assert fills + ([f] + later) == fills + [f] + later;
    assert (fills + [f])[..|fills|] == fills;
    SumAppend(fills, f, Quantity());
  }

  lemma LoopDone(d: Desk, now: Desk, opposing: seq<Entry>, i: nat, taker: Order, id: OrderId,
                 fills: seq<Fill>, trades: seq<Trade>, filled: nat, remaining: nat)
    requires Progress(d, now, opposing, i, taker, id, fills, trades, filled, remaining)
    requires i == |opposing| || remaining == 0
             || (opposing[i].user != taker.user && !Crosses(taker.side, taker.price, opposing[i].price))
    ensures fills == Fills(opposing, taker.user, taker.side, taker.price, taker.remaining)
  {
    if i < |opposing| {
      FillsNext(opposing, i, taker.user, taker.side, taker.price, remaining);
    }
  }

  /** The orders table. */
  class OrdersRepository {
    var rows: seq<Order>

    constructor ()
      ensures rows == []
    {
      rows := [];
    }

    method Create(o: Order) returns (id: OrderId)
      modifies this
      ensures id == |old(rows)| && rows == old(rows) + [o]
    {
      id := |rows|;
      rows := rows + [o];
    }

    method FindById(id: OrderId) returns (found: Option<Order>)
      ensures found == if id < |rows| then Some(rows[id]) else None
    {
      found := if id < |rows| then Some(rows[id]) else None;
    }

    method Update(id: OrderId, filled: nat, remaining: nat, status: OrderStatus) returns (updated: Option<Order>)
      modifies this
      ensures rows == UpdateExecution(old(rows), id, filled, remaining, status)
      ensures updated == if id < |rows| then Some(rows[id]) else None
    {
      if id < |rows| {
        rows := rows[id := rows[id].(filled := filled, remaining := remaining, status := status)];
        return Some(rows[id]);
      }
      return None;
    }

    /** Only an open or partially filled order of the calling user is cancelled. */
    method Cancel(id: OrderId, user: UserId) returns (updated: Option<Order>)
      modifies this
      ensures updated.Some? <==> id < |old(rows)| && old(rows)[id].user == user && old(rows)[id].Active()
      ensures updated.Some? ==>
                rows == old(rows)[id := old(rows)[id].(status := CANCELLED)] && updated.value == rows[id]
      ensures updated.None? ==> rows == old(rows)
    {
      if id < |rows| && rows[id].user == user && rows[id].Active() {
        rows := rows[id := rows[id].(status := CANCELLED)];
        return Some(rows[id]);
      }
      return None;
    }

    /** The ids of all open and partially filled orders, oldest first. */
    method FindActiveOrders() returns (ids: seq<OrderId>)
      ensures ids == ActiveIds(rows)
    {
      ids := [];
      var i := 0;
      while i < |rows|
        invariant 0 <= i <= |rows|
        invariant ids == ActiveIds(rows[..i])
      {
        assert rows[..i + 1][..i] == rows[..i];
        if rows[i].Active() {
          ids := ids + [i];
        }
        i := i + 1;
      }
      assert rows[..i] == rows;
    }
  }

  function ActiveIds(rows: seq<Order>): seq<OrderId>
  {
    if rows == [] then []
    else ActiveIds(rows[..|rows| - 1]) + (if rows[|rows| - 1].Active() then [|rows| - 1] else [])
  }

  lemma {:induction false} ActiveIdsMeaning(rows: seq<Order>)
    ensures forall id: OrderId :: id in ActiveIds(rows) <==> (id < |rows| && rows[id].Active())
    ensures forall i :: 0 <= i < |ActiveIds(rows)| ==> ActiveIds(rows)[i] < |rows|
  {
    if rows != [] {
      ActiveIdsMeaning(rows[..|rows| - 1]);
    }
  }

  class MatchingEngineService {
    const repository: OrdersRepository
    const orderbook: OrderbookService

    constructor (repository: OrdersRepository, orderbook: OrderbookService)
      ensures this.repository == repository && this.orderbook == orderbook
    {
      this.repository := repository;
      this.orderbook := orderbook;
    }

    ghost function View(): Desk
      reads repository, orderbook
    {
      Desk(repository.rows, orderbook.View())
    }

    /** Writes one maker's new amounts to the table and the book. */
    method UpdateMaker(maker: Entry, side: Side, matchAmount: nat)
      requires matchAmount <= maker.remaining
      modifies repository, orderbook
      ensures View() == ApplyFill(old(View()), side, Fill(maker, matchAmount))
    {
      var newMakerRemaining := maker.remaining - matchAmount;
      var inDb := repository.FindById(maker.id);
      var filled := if inDb.Some? then inDb.value.filled + matchAmount else matchAmount;
      var makerStatus := if newMakerRemaining == 0 then FILLED else PARTIALLY_FILLED;
      var updated := repository.Update(maker.id, filled, newMakerRemaining, makerStatus);
      if makerStatus == FILLED {
        orderbook.RemoveOrder(maker.id, maker.pair, side.Opposite());
      } else {
        orderbook.UpdateRemainingAmount(maker.id, newMakerRemaining);
      }
    }

    static method BuildTrade(taker: Order, id: OrderId, maker: Entry, matchAmount: nat) returns (trade: Trade)
      ensures trade == TradeOf(taker, id, Fill(maker, matchAmount))
    {
      var isTakerBuyer := taker.side == BUY;
      trade := Trade(if isTakerBuyer then id else maker.id,
                     if isTakerBuyer then maker.id else id,
                     if isTakerBuyer then taker.user else maker.user,
                     if isTakerBuyer then maker.user else taker.user,
                     taker.pair, maker.price, matchAmount,
                     if isTakerBuyer then taker.price else maker.price);
    }

    /** Stores the taker's final amounts and lists what is left of it. */
    method UpdateTaker(id: OrderId, filled: nat, remaining: nat)
      requires id < |repository.rows|
      modifies repository, orderbook
      ensures View() == SettleTaker(old(View()), id, filled, remaining)
    {
      var status := if remaining == 0 then FILLED else if filled > 0 then PARTIALLY_FILLED else OPEN;
      var updatedTaker := repository.Update(id, filled, remaining, status);
      if remaining != 0 {
        orderbook.AddOrder(EntryOf(repository.rows, id));
      }
    }

    /** The engine's loop; the ghost list names the fills made so far. */
    method FillFrom(opposing: seq<Entry>, id: OrderId, taker: Order)
      returns (trades: seq<Trade>, filled: nat, remaining: nat)
      modifies repository, orderbook
      ensures var fills := Fills(opposing, taker.user, taker.side, taker.price, taker.remaining);
              && Fitting(fills)
              && View() == ApplyFills(old(View()), taker.side, fills)
              && trades == TradesOf(taker, id, fills)
              && remaining == taker.remaining - Sum(fills, Quantity())
              && filled == taker.filled + Sum(fills, Quantity())
    {
      ghost var fills: seq<Fill> := [];
      remaining, filled, trades := taker.remaining, taker.filled, [];
      var i := 0;
      assert opposing[0..] == opposing;
      while i < |opposing|
        invariant Progress(old(View()), View(), opposing, i, taker, id, fills, trades, filled, remaining)
      {
        var maker := opposing[i];
        if remaining == 0 {
          break;
        }
        if maker.user == taker.user {
          SkipOwn(old(View()), View(), opposing, i, taker, id, fills, trades, filled, remaining);
          i := i + 1;
          continue;
        }
        var isPriceMatch := if taker.side == BUY then taker.price >= maker.price else taker.price <= maker.price;
        if !isPriceMatch {
          break;
        }
        var matchAmount := Min(remaining, maker.remaining);
        FillOne(old(View()), View(), opposing, i, taker, id, fills, trades, filled, remaining, matchAmount);
        remaining := remaining - matchAmount;
        filled := filled + matchAmount;
        UpdateMaker(maker, taker.side, matchAmount);
        var trade := BuildTrade(taker, id, maker, matchAmount);
        trades := trades + [trade];
        fills := fills + [Fill(maker, matchAmount)];
        i := i + 1;
      }
      LoopDone(old(View()), View(), opposing, i, taker, id, fills, trades, filled, remaining);
    }

    method ExecuteMatch(id: OrderId) returns (trades: seq<Trade>)
      requires id < |repository.rows|
      modifies repository, orderbook
      ensures (View(), trades) == Match(old(View()), id)
    {
      var taker := repository.rows[id];
      var opposing := orderbook.GetBestOpposingOrders(taker.pair, taker.side);
      var filled, remaining;
      trades, filled, remaining := FillFrom(opposing, id, taker);
      ApplyFillsLength(old(View()), taker.side, TakerFills(old(View()), id));
      UpdateTaker(id, filled, remaining);
    }
  }
}
