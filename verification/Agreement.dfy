/**
 The book agrees with the orders table: it lists exactly the open and partially filled orders, each at its price and
 with its remaining amount. Matching, cancelling and rehydrating keep it so, and a rolled-back table does not.
 */
module Agreement {
  import opened Domain
  import opened Sums
  import opened OrderBook
  import opened Matching

  /** filled + remaining = amount, and the status of an uncancelled order follows from the two. */
  predicate Consistent(o: Order)
  {
    && 0 < o.amount && 0 < o.price
    && o.filled + o.remaining == o.amount
    && (if o.status == CANCELLED then o.remaining > 0 else o.status == TakerStatus(o.filled, o.remaining))
  }

  predicate TableConsistent(rows: seq<Order>)
  {
    forall i :: 0 <= i < |rows| ==> Consistent(rows[i])
  }

  /** Order id is among the first n rows and still open. */
  predicate Listed(rows: seq<Order>, n: nat, id: OrderId)
  {
    id < n && id < |rows| && rows[id].Active()
  }

  function KeyOf(o: Order): ZKey
  {
    ZKey(o.pair, o.side)
  }

  function MemberOf(rows: seq<Order>, id: OrderId): Member
    requires id < |rows|
  {
    Member(rows[id].price, id)
  }

  ghost predicate DetailsAgree(rows: seq<Order>, b: Book, n: nat)
  {
    && (forall id: OrderId :: id in b.details <==> Listed(rows, n, id))
    && (forall id: OrderId :: id in b.details ==> b.details[id] == EntryOf(rows, id))
  }

  predicate InSet(rows: seq<Order>, n: nat, k: ZKey, m: Member)
  {
    Listed(rows, n, m.id) && m == MemberOf(rows, m.id) && k == KeyOf(rows[m.id])
  }

  ghost predicate SetsAgree(rows: seq<Order>, b: Book, n: nat)
  {
    forall k: ZKey, m: Member :: m in ZSet(b, k) <==> InSet(rows, n, k, m)
  }

  /** The sorted sets are sorted and none is empty, as Redis keeps them. */
  ghost predicate SetsSorted(b: Book)
  {
    && (forall k: ZKey :: Sorted(ZSet(b, k)))
    && (forall k: ZKey :: k in b.zsets ==> b.zsets[k] != [])
  }

  /** The book lists exactly the active orders among the first n rows. */
  ghost predicate Agrees(rows: seq<Order>, b: Book, n: nat)
  {
    n <= |rows| && DetailsAgree(rows, b, n) && SetsAgree(rows, b, n) && SetsSorted(b)
  }

  // ---------------------------------------------------------------------------------------------------------
  // The three book operations
  // ---------------------------------------------------------------------------------------------------------

  lemma WithZSetSets(b: Book, k: ZKey, z: seq<Member>)
    ensures forall j: ZKey :: ZSet(WithZSet(b, k, z), j) == if j == k then z else ZSet(b, j)
    ensures Sorted(z) && SetsSorted(b) ==> SetsSorted(WithZSet(b, k, z))
  {
  }

  lemma RemoveAgrees(rows: seq<Order>, b: Book, n: nat, id: OrderId, o: Order)
    requires Agrees(rows, b, n) && Listed(rows, n, id) && !o.Active()
    ensures Agrees(rows[id := o], Remove(b, id, rows[id].pair, rows[id].side), n)
  {
    var k := KeyOf(rows[id]);
    var z := ZRem(ZSet(b, k), id);
    var after, c := rows[id := o], Remove(b, id, rows[id].pair, rows[id].side);
    ZRemMembers(ZSet(b, k), id);
    WithZSetSets(b, k, z);
    assert forall j: ZKey :: ZSet(c, j) == ZSet(WithZSet(b, k, z), j);
    forall j: ZKey, m: Member ensures m in ZSet(c, j) <==> InSet(after, n, j, m) {
      assert m in ZSet(b, j) <==> InSet(rows, n, j, m);
    }
    forall x: OrderId ensures x in c.details <==> Listed(after, n, x) {
      assert x in b.details <==> Listed(rows, n, x);
    }
  }

  lemma UpdateAgrees(rows: seq<Order>, b: Book, n: nat, id: OrderId, o: Order)
    requires Agrees(rows, b, n) && Listed(rows, n, id) && o.Active()
    requires o == rows[id].(filled := o.filled, remaining := o.remaining, status := o.status)
    ensures Agrees(rows[id := o], UpdateRemaining(b, id, o.remaining), n)
  {
    var after, c := rows[id := o], UpdateRemaining(b, id, o.remaining);
    forall j: ZKey, m: Member ensures m in ZSet(c, j) <==> InSet(after, n, j, m) {
      assert m in ZSet(b, j) <==> InSet(rows, n, j, m);
    }
    forall x: OrderId ensures x in c.details <==> Listed(after, n, x) {
      assert x in b.details <==> Listed(rows, n, x);
    }
    assert forall k: ZKey :: ZSet(c, k) == ZSet(b, k);
  }

  lemma AddAgrees(rows: seq<Order>, b: Book, n: nat)
    requires Agrees(rows, b, n) && n < |rows| && rows[n].Active()
    ensures Agrees(rows, Add(b, EntryOf(rows, n)), n + 1)
  {
    var k, x, c := KeyOf(rows[n]), MemberOf(rows, n), Add(b, EntryOf(rows, n));
    var z := ZAdd(ZSet(b, k), x);
    ZAddMembers(ZSet(b, k), x);
    assert x in z;
    WithZSetSets(b, k, z);
    assert forall j: ZKey :: ZSet(c, j) == ZSet(WithZSet(b, k, z), j);
    forall j: ZKey, m: Member ensures m in ZSet(c, j) <==> InSet(rows, n + 1, j, m) {
      assert m in ZSet(b, j) <==> InSet(rows, n, j, m);
    }
    forall id: OrderId ensures id in c.details <==> Listed(rows, n + 1, id) {
      assert id in b.details <==> Listed(rows, n, id);
    }
  }

  /** A row that is not open, or not yet counted, may change or join without the book noticing. */
  lemma UnlistedRow(rows: seq<Order>, b: Book, n: nat, o: Order)
    requires Agrees(rows, b, n)
    ensures Agrees(rows + [o], b, n)
    ensures n < |rows| ==> Agrees(rows[n := o], b, n)
    ensures n < |rows| && !rows[n].Active() ==> Agrees(rows, b, n + 1)
  {
    forall id: OrderId
      ensures Listed(rows, n, id) == Listed(rows + [o], n, id)
      ensures n < |rows| ==> Listed(rows, n, id) == Listed(rows[n := o], n, id)
      ensures n < |rows| && !rows[n].Active() ==> Listed(rows, n, id) == Listed(rows, n + 1, id)
    {
    }
    forall k: ZKey, m: Member
      ensures m in ZSet(b, k) <==> InSet(rows + [o], n, k, m)
      ensures n < |rows| ==> (m in ZSet(b, k) <==> InSet(rows[n := o], n, k, m))
      ensures n < |rows| && !rows[n].Active() ==> (m in ZSet(b, k) <==> InSet(rows, n + 1, k, m))
    {
      assert m in ZSet(b, k) <==> InSet(rows, n, k, m);
    }
  }

  /** The book is determined by the table. */
  lemma AgreementDetermines(rows: seq<Order>, b: Book, c: Book, n: nat)
    requires Agrees(rows, b, n) && Agrees(rows, c, n)
    ensures b == c
  {
    forall k: ZKey ensures ZSet(b, k) == ZSet(c, k) {
      forall m: Member ensures m in ZSet(b, k) <==> m in ZSet(c, k) {
        assert m in ZSet(b, k) <==> InSet(rows, n, k, m);
        assert m in ZSet(c, k) <==> InSet(rows, n, k, m);
      }
      SortedIsUnique(ZSet(b, k), ZSet(c, k));
    }
    forall k: ZKey ensures k in b.zsets <==> k in c.zsets {
      assert ZSet(b, k) == ZSet(c, k);
    }
    assert b.zsets == c.zsets by {
      forall k: ZKey | k in b.zsets ensures b.zsets[k] == c.zsets[k] {
        assert ZSet(b, k) == ZSet(c, k);
      }
    }
    forall id: OrderId ensures id in b.details <==> id in c.details {
      assert id in b.details <==> Listed(rows, n, id);
    }
    assert b.details == c.details;
  }

  // ---------------------------------------------------------------------------------------------------------
  // The candidates an agreeing book offers
  // ---------------------------------------------------------------------------------------------------------

  lemma {:induction false} LookupAll(details: map<OrderId, Entry>, ids: seq<Member>)
    requires forall i :: 0 <= i < |ids| ==> ids[i].id in details
    ensures |Lookup(details, ids)| == |ids|
    ensures forall i :: 0 <= i < |ids| ==> Lookup(details, ids)[i] == details[ids[i].id]
  {
    if ids != [] {
      LookupAll(details, ids[..|ids| - 1]);
    }
  }

  ghost predicate GoodCandidates(rows: seq<Order>, n: nat, pair: Pair, side: Side, candidates: seq<Entry>)
  {
    && BestFirst(side, candidates) && Resting(candidates)
    && (forall i :: 0 <= i < |candidates| ==>
          && Listed(rows, n, candidates[i].id) && candidates[i] == EntryOf(rows, candidates[i].id)
          && candidates[i].pair == pair && candidates[i].side == side.Opposite())
    && (forall i, j :: 0 <= i < j < |candidates| ==> candidates[i].id != candidates[j].id)
  }

  /** The members of the opposing side, best first: all of them, and the fetched ones. */
  function Directed(b: Book, pair: Pair, side: Side): seq<Member>
  {
    ZRange(ZSet(b, ZKey(pair, side.Opposite())), -1, side == SELL)
  }

  function Fetched(b: Book, pair: Pair, side: Side): (r: seq<Member>)
    ensures r <= Directed(b, pair, side) && |r| == Min(50, |ZSet(b, ZKey(pair, side.Opposite()))|)
  {
    ZRange(ZSet(b, ZKey(pair, side.Opposite())), 49, side == SELL)
  }

  /** The entries of the whole opposing side, best first. */
  function Opposing(b: Book, pair: Pair, side: Side): seq<Entry>
  {
    Lookup(b.details, Directed(b, pair, side))
  }

  lemma DirectedMember(rows: seq<Order>, b: Book, n: nat, pair: Pair, side: Side, i: nat)
    requires Agrees(rows, b, n) && i < |Directed(b, pair, side)|
    ensures InSet(rows, n, ZKey(pair, side.Opposite()), Directed(b, pair, side)[i])
  {
    var z := ZSet(b, ZKey(pair, side.Opposite()));
    assert Directed(b, pair, side)[i] == if side == SELL then z[|z| - 1 - i] else z[i];
    assert Directed(b, pair, side)[i] in z;
  }

  lemma DirectedOrder(b: Book, pair: Pair, side: Side, i: nat, j: nat)
    requires SetsSorted(b) && i < j < |Directed(b, pair, side)|
    ensures Rank(side, Directed(b, pair, side)[i].score) <= Rank(side, Directed(b, pair, side)[j].score)
    ensures Directed(b, pair, side)[i] != Directed(b, pair, side)[j]
  {
    var z := ZSet(b, ZKey(pair, side.Opposite()));
    assert Sorted(z);
    if side == SELL {
      assert Before(z[|z| - 1 - j], z[|z| - 1 - i]);
    } else {
      assert Before(z[i], z[j]);
    }
  }

  /** Every one of the first members has its details, with the amounts of the table. */
  lemma FirstEntries(rows: seq<Order>, b: Book, n: nat, pair: Pair, side: Side, ids: seq<Member>)
    requires Agrees(rows, b, n) && ids <= Directed(b, pair, side)
    ensures |Lookup(b.details, ids)| == |ids|
    ensures forall i :: 0 <= i < |ids| ==>
              && InSet(rows, n, ZKey(pair, side.Opposite()), ids[i])
              && Lookup(b.details, ids)[i] == EntryOf(rows, ids[i].id)
  {
    forall i | 0 <= i < |ids|
      ensures InSet(rows, n, ZKey(pair, side.Opposite()), ids[i]) && ids[i].id in b.details
    {
      DirectedMember(rows, b, n, pair, side, i);
    }
    LookupAll(b.details, ids);
  }

  /** They are distinct open orders of the other side with their table amounts, best first. */
  lemma FirstEntriesAreGood(rows: seq<Order>, b: Book, n: nat, pair: Pair, side: Side, ids: seq<Member>)
    requires Agrees(rows, b, n) && TableConsistent(rows) && ids <= Directed(b, pair, side)
    ensures GoodCandidates(rows, n, pair, side, Lookup(b.details, ids))
  {
    hide DetailsAgree, SetsAgree, Lookup;
    var entries := Lookup(b.details, ids);
    FirstEntries(rows, b, n, pair, side, ids);
    forall i | 0 <= i < |entries| ensures entries[i].remaining > 0 {
      assert Consistent(rows[ids[i].id]);
    }
    forall i, j | 0 <= i < j < |entries|
      ensures Rank(side, entries[i].price) <= Rank(side, entries[j].price) && entries[i].id != entries[j].id
    {
      DirectedOrder(b, pair, side, i, j);
    }
  }

  /** What getBestOpposingOrders returns: distinct open orders of the other side with their table amounts, best first. */
  lemma CandidatesAreGood(rows: seq<Order>, b: Book, n: nat, pair: Pair, side: Side)
    requires Agrees(rows, b, n) && TableConsistent(rows)
    ensures GoodCandidates(rows, n, pair, side, BestOpposing(b, pair, side))
    ensures |BestOpposing(b, pair, side)| == Min(50, |ZSet(b, ZKey(pair, side.Opposite()))|)
  {
    FirstEntries(rows, b, n, pair, side, Fetched(b, pair, side));
    FirstEntriesAreGood(rows, b, n, pair, side, Fetched(b, pair, side));
  }

  /** The candidates are the front of the whole opposing side, which holds every open order of it. */
  lemma CandidatesAreFront(rows: seq<Order>, b: Book, n: nat, pair: Pair, side: Side)
    requires Agrees(rows, b, n) && TableConsistent(rows)
    ensures BestOpposing(b, pair, side) <= Opposing(b, pair, side)
    ensures GoodCandidates(rows, n, pair, side, Opposing(b, pair, side))
    ensures forall id: OrderId :: Listed(rows, n, id) && rows[id].pair == pair && rows[id].side == side.Opposite() ==>
              EntryOf(rows, id) in Opposing(b, pair, side)
  {
    var all := Directed(b, pair, side);
    FirstEntries(rows, b, n, pair, side, Fetched(b, pair, side));
    FirstEntries(rows, b, n, pair, side, all);
    FirstEntriesAreGood(rows, b, n, pair, side, all);
    forall id: OrderId | Listed(rows, n, id) && rows[id].pair == pair && rows[id].side == side.Opposite()
      ensures EntryOf(rows, id) in Opposing(b, pair, side)
    {
      var i := DirectedPosition(rows, b, n, pair, side, id);
      assert Opposing(b, pair, side)[i] == EntryOf(rows, id);
    }
  }

  lemma DirectedPosition(rows: seq<Order>, b: Book, n: nat, pair: Pair, side: Side, id: OrderId) returns (i: nat)
    requires Agrees(rows, b, n)
    requires Listed(rows, n, id) && rows[id].pair == pair && rows[id].side == side.Opposite()
    ensures i < |Directed(b, pair, side)| && Directed(b, pair, side)[i] == MemberOf(rows, id)
  {
    var z := ZSet(b, ZKey(pair, side.Opposite()));
    assert InSet(rows, n, ZKey(pair, side.Opposite()), MemberOf(rows, id));
    assert MemberOf(rows, id) in z;
    var j :| 0 <= j < |z| && z[j] == MemberOf(rows, id);
    i := if side == SELL then |z| - 1 - j else j;
  }

  /** When no more than 50 orders rest on a side, a match sees every one of them. */
  lemma CandidatesAreAll(rows: seq<Order>, b: Book, n: nat, pair: Pair, side: Side, id: OrderId)
    requires Agrees(rows, b, n) && |ZSet(b, ZKey(pair, side.Opposite()))| <= 50
    requires Listed(rows, n, id) && rows[id].pair == pair && rows[id].side == side.Opposite()
    ensures EntryOf(rows, id) in BestOpposing(b, pair, side)
  {
    var i := DirectedPosition(rows, b, n, pair, side, id);
    FirstEntries(rows, b, n, pair, side, Fetched(b, pair, side));
    assert BestOpposing(b, pair, side)[i] == EntryOf(rows, id);
  }

  // ---------------------------------------------------------------------------------------------------------
  // Fills
  // ---------------------------------------------------------------------------------------------------------

  /** Fills as a match makes them: distinct open makers of the other side, positive quantities that fit. */
  ghost predicate GoodFills(rows: seq<Order>, n: nat, pair: Pair, side: Side, fills: seq<Fill>)
  {
    && Fitting(fills)
    && (forall i :: 0 <= i < |fills| ==>
          && Listed(rows, n, fills[i].maker.id) && fills[i].maker == EntryOf(rows, fills[i].maker.id)
          && fills[i].maker.pair == pair && fills[i].maker.side == side.Opposite() && 0 < fills[i].quantity)
    && (forall i, j :: 0 <= i < j < |fills| ==> fills[i].maker.id != fills[j].maker.id)
  }

  lemma MatchFillsAreGood(rows: seq<Order>, n: nat, pair: Pair, side: Side, candidates: seq<Entry>, user: UserId,
                          limit: nat, need: nat)
    requires GoodCandidates(rows, n, pair, side, candidates)
    ensures GoodFills(rows, n, pair, side, Fills(candidates, user, side, limit, need))
  {
    var fills := Fills(candidates, user, side, limit, need);
    FillsFit(candidates, user, side, limit, need);
    FillsAreSound(candidates, user, side, limit, need);
    var at := FillsPick(candidates, user, side, limit, need);
    forall i | 0 <= i < |fills| ensures 0 < fills[i].quantity {
      assert fills[i] in fills;
    }
    forall i, j | 0 <= i < j < |fills| ensures fills[i].maker.id != fills[j].maker.id {
      assert at[i] < at[j];
    }
  }

  /** The row of a maker after its fill. */
  function Filled(o: Order, q: nat): Order
    requires q <= o.remaining
  {
    var left := o.remaining - q;
    o.(filled := o.filled + q, remaining := left, status := if left == 0 then FILLED else PARTIALLY_FILLED)
  }

  /** A fill that meets an open order of the other side as the table has it. */
  ghost predicate Ready(d: Desk, n: nat, side: Side, f: Fill)
  {
    && Agrees(d.rows, d.book, n) && TableConsistent(d.rows)
    && Listed(d.rows, n, f.maker.id) && f.maker == EntryOf(d.rows, f.maker.id)
    && f.maker.side == side.Opposite() && 0 < f.quantity <= f.maker.remaining
  }

  lemma FillAgrees(d: Desk, n: nat, side: Side, f: Fill)
    requires Ready(d, n, side, f)
    ensures var c := ApplyFill(d, side, f);
            && c.rows == d.rows[f.maker.id := Filled(d.rows[f.maker.id], f.quantity)]
            && Agrees(c.rows, c.book, n) && TableConsistent(c.rows)
  {
    var id := f.maker.id;
    var o := Filled(d.rows[id], f.quantity);
    assert Consistent(d.rows[id]);
    if o.remaining == 0 {
      RemoveAgrees(d.rows, d.book, n, id, o);
    } else {
      UpdateAgrees(d.rows, d.book, n, id, o);
    }
  }

  predicate NotMaker(fills: seq<Fill>, id: OrderId)
  {
    forall i :: 0 <= i < |fills| ==> fills[i].maker.id != id
  }

  /** Every maker's row moved by its own fill, every other row stayed. */
  ghost predicate MakersMoved(before: seq<Order>, fills: seq<Fill>, after: seq<Order>)
  {
    && |after| == |before|
    && (forall i :: 0 <= i < |fills| ==>
          && fills[i].maker.id < |before| && fills[i].quantity <= before[fills[i].maker.id].remaining
          && after[fills[i].maker.id] == Filled(before[fills[i].maker.id], fills[i].quantity))
    && (forall id: OrderId :: id < |before| && NotMaker(fills, id) ==> after[id] == before[id])
  }

  lemma MakersMovedMore(before: seq<Order>, fills: seq<Fill>, mid: seq<Order>, f: Fill)
    requires MakersMoved(before, fills, mid) && NotMaker(fills, f.maker.id)
    requires f.maker.id < |before| && f.quantity <= before[f.maker.id].remaining
    ensures mid[f.maker.id] == before[f.maker.id]
    ensures MakersMoved(before, fills + [f], mid[f.maker.id := Filled(mid[f.maker.id], f.quantity)])
  {
    var all, after := fills + [f], mid[f.maker.id := Filled(mid[f.maker.id], f.quantity)];
    forall id: OrderId | id < |before| && NotMaker(all, id) ensures after[id] == before[id] {
      assert all[|fills|] == f;
      assert forall i :: 0 <= i < |fills| ==> fills[i] == all[i];
      assert NotMaker(fills, id);
    }
  }

  lemma GoodInit(rows: seq<Order>, n: nat, pair: Pair, side: Side, fills: seq<Fill>)
    requires GoodFills(rows, n, pair, side, fills) && fills != []
    ensures GoodFills(rows, n, pair, side, fills[..|fills| - 1])
    ensures NotMaker(fills[..|fills| - 1], fills[|fills| - 1].maker.id)
  {
    var init := fills[..|fills| - 1];
    assert forall i :: 0 <= i < |init| ==> init[i] == fills[i];
  }

  /** All fills of a match: every maker's row moves by its own fill, every other row stays, the book follows. */
  lemma {:induction false} FillsAgree(d: Desk, n: nat, pair: Pair, side: Side, fills: seq<Fill>)
    requires Agrees(d.rows, d.book, n) && TableConsistent(d.rows) && GoodFills(d.rows, n, pair, side, fills)
    ensures var c := ApplyFills(d, side, fills);
            Agrees(c.rows, c.book, n) && TableConsistent(c.rows) && MakersMoved(d.rows, fills, c.rows)
  {
    if fills != [] {
      var init, last := fills[..|fills| - 1], fills[|fills| - 1];
      GoodInit(d.rows, n, pair, side, fills);
      FillsAgree(d, n, pair, side, init);
      var mid := ApplyFills(d, side, init);
      MakersMovedMore(d.rows, init, mid.rows, last);
      FillAgrees(mid, n, side, last);
      assert init + [last] == fills;
    }
  }

  /** The last fill of a list meets its maker as the table had it: earlier fills went to other makers. */
  lemma LastFill(d: Desk, n: nat, pair: Pair, side: Side, fills: seq<Fill>)
    requires Agrees(d.rows, d.book, n) && TableConsistent(d.rows) && GoodFills(d.rows, n, pair, side, fills)
    requires fills != []
    ensures var init, f := fills[..|fills| - 1], fills[|fills| - 1];
            GoodFills(d.rows, n, pair, side, init)
            && var mid := ApplyFills(d, side, init);
               && |mid.rows| == |d.rows| && Ready(mid, n, side, f)
               && mid.rows[f.maker.id] == d.rows[f.maker.id]
               && ApplyFills(d, side, fills) == ApplyFill(mid, side, f)
  {
    var init := fills[..|fills| - 1];
    GoodInit(d.rows, n, pair, side, fills);
    FillsAgree(d, n, pair, side, init);
    assert ApplyFills(d, side, init).rows[fills[|fills| - 1].maker.id] == d.rows[fills[|fills| - 1].maker.id];
  }

  // ---------------------------------------------------------------------------------------------------------
  // Placing, cancelling, rehydrating
  // ---------------------------------------------------------------------------------------------------------

  function NewOrder(user: UserId, pair: Pair, side: Side, price: nat, amount: nat, key: string): Order
  {
    Order(user, pair, side, price, amount, 0, amount, OPEN, key)
  }

  /** Insert the order, then match it. */
  function Place(d: Desk, o: Order): (Desk, seq<Trade>)
  {
    Match(Desk(d.rows + [o], d.book), |d.rows|)
  }

  function PlaceFills(d: Desk, o: Order): seq<Fill>
  {
    TakerFills(Desk(d.rows + [o], d.book), |d.rows|)
  }

  ghost predicate DeskOk(d: Desk)
  {
    TableConsistent(d.rows) && Agrees(d.rows, d.book, |d.rows|)
  }

  predicate Fresh(o: Order)
  {
    0 < o.amount && 0 < o.price && o.filled == 0 && o.remaining == o.amount && o.status == OPEN
  }

  lemma PlaceFillsAreGood(d: Desk, o: Order)
    requires DeskOk(d) && Fresh(o)
    ensures Agrees(d.rows + [o], d.book, |d.rows|) && TableConsistent(d.rows + [o])
    ensures GoodFills(d.rows + [o], |d.rows|, o.pair, o.side, PlaceFills(d, o))
    ensures GoodCandidates(d.rows + [o], |d.rows|, o.pair, o.side, BestOpposing(d.book, o.pair, o.side))
  {
    var n, rows := |d.rows|, d.rows + [o];
    UnlistedRow(d.rows, d.book, n, o);
    CandidatesAreGood(rows, d.book, n, o.pair, o.side);
    MatchFillsAreGood(rows, n, o.pair, o.side, BestOpposing(d.book, o.pair, o.side), o.user, o.price, o.remaining);
  }

  /** The rows after a match: the makers' moved, the taker's written. */
  ghost predicate PlacedRows(before: seq<Order>, o: Order, fills: seq<Fill>, after: seq<Order>)
  {
    var filled := Sum(fills, Quantity());
    && |after| == |before| + 1
    && MakersMoved(before, fills, after[..|before|])
    && 0 <= filled <= o.amount
    && after[|before|] == o.(filled := filled, remaining := o.amount - filled,
                             status := TakerStatus(filled, o.amount - filled))
  }

  /** Writing the taker's final row and listing what is left of it. */
  lemma SettleTakerAgrees(d: Desk, n: nat, o: Order, filled: nat)
    requires MidOk(d, n, o) && Fresh(o) && filled <= o.amount
    ensures DeskOk(SettleTaker(d, n, filled, o.amount - filled))
  {
    var taker := o.(filled := filled, remaining := o.amount - filled, status := TakerStatus(filled, o.amount - filled));
    var end := SettleTaker(d, n, filled, o.amount - filled);
    assert end.rows == d.rows[n := taker];
    UnlistedRow(d.rows, d.book, n, taker);
    if taker.remaining == 0 {
      UnlistedRow(end.rows, d.book, n, taker);
    } else {
      AddAgrees(end.rows, d.book, n);
    }
  }

  /** The desk after the fills of a placement, before the taker's own row is written. */
  function MidDesk(d: Desk, o: Order): Desk
  {
    ApplyFills(Desk(d.rows + [o], d.book), o.side, PlaceFills(d, o))
  }

  lemma PlaceUnfolds(d: Desk, o: Order)
    requires Fresh(o)
    ensures var filled := Sum(PlaceFills(d, o), Quantity());
            && |MidDesk(d, o).rows| == |d.rows| + 1
            && 0 <= filled <= o.amount
            && Place(d, o).0 == SettleTaker(MidDesk(d, o), |d.rows|, filled, o.amount - filled)
  {
    ApplyFillsLength(Desk(d.rows + [o], d.book), o.side, PlaceFills(d, o));
  }

  /** A placement, first stage: the makers' rows. */
  lemma {:induction false} PlaceMakers(d: Desk, o: Order)
    requires DeskOk(d) && Fresh(o)
    ensures var n, start, fills, mid := |d.rows|, Desk(d.rows + [o], d.book), PlaceFills(d, o), MidDesk(d, o);
            && Agrees(start.rows, start.book, n) && TableConsistent(start.rows)
            && GoodFills(start.rows, n, o.pair, o.side, fills)
            && Agrees(mid.rows, mid.book, n) && TableConsistent(mid.rows)
            && MakersMoved(start.rows, fills, mid.rows) && mid.rows[n] == o
  {
    var n, start, fills := |d.rows|, Desk(d.rows + [o], d.book), PlaceFills(d, o);
    PlaceFillsAreGood(d, o);
    FillsAgree(start, n, o.pair, o.side, fills);
    assert NotMaker(fills, n);
  }

  lemma PlaceFillsCross(d: Desk, o: Order)
    requires DeskOk(d) && Fresh(o)
    ensures forall i :: 0 <= i < |PlaceFills(d, o)| ==>
              Eligible(PlaceFills(d, o)[i].maker, o.user, o.side, o.price) && PlaceFills(d, o)[i].maker.id < |d.rows|
  {
    PlaceFillsAreGood(d, o);
    FillsAreSound(BestOpposing(d.book, o.pair, o.side), o.user, o.side, o.price, o.remaining);
    assert forall i :: 0 <= i < |PlaceFills(d, o)| ==> PlaceFills(d, o)[i] in PlaceFills(d, o);
  }

  /** Second stage: the taker's row. */
  lemma PlaceTaker(d: Desk, o: Order)
    requires DeskOk(d) && Fresh(o)
    ensures var n, mid, fills, end := |d.rows|, MidDesk(d, o), PlaceFills(d, o), Place(d, o).0;
            var filled := Sum(fills, Quantity());
            && 0 <= filled <= o.amount && |mid.rows| == n + 1 && |end.rows| == n + 1
            && end.rows == mid.rows[n := end.rows[n]]
            && (mid.rows[n] == o ==>
                  end.rows[n] == o.(filled := filled, remaining := o.amount - filled, status := end.rows[n].status))
            && (end.rows[n].Active() <==> end.rows[n].remaining > 0)
            && Place(d, o).1 == TradesOf(o, n, fills)
  {
    PlaceUnfolds(d, o);
  }

  /** Moving makers never touches the newest row, so the older rows moved by themselves. */
  lemma OlderRowsMoved(before: seq<Order>, o: Order, pair: Pair, side: Side, fills: seq<Fill>, mid: seq<Order>)
    requires MakersMoved(before + [o], fills, mid) && GoodFills(before + [o], |before|, pair, side, fills)
    ensures MakersMoved(before, fills, mid[..|before|])
  {
  }

  /** Placing an order moves exactly the rows it fills and writes its own. */
  lemma PlaceMovesRows(d: Desk, o: Order)
    requires DeskOk(d) && Fresh(o)
    ensures PlacedRows(d.rows, o, PlaceFills(d, o), Place(d, o).0.rows)
  {
    PlaceMakers(d, o);
    OlderRowsMoved(d.rows, o, o.pair, o.side, PlaceFills(d, o), MidDesk(d, o).rows);
    PlaceUnfolds(d, o);
    TakerRow(d.rows, o, PlaceFills(d, o), MidDesk(d, o));
  }

  lemma TakerRow(before: seq<Order>, o: Order, fills: seq<Fill>, mid: Desk)
    requires |mid.rows| == |before| + 1 && mid.rows[|before|] == o && MakersMoved(before, fills, mid.rows[..|before|])
    requires 0 <= Sum(fills, Quantity()) <= o.amount
    ensures PlacedRows(before, o, fills,
                       SettleTaker(mid, |before|, Sum(fills, Quantity()), o.amount - Sum(fills, Quantity())).rows)
  {
    var end := SettleTaker(mid, |before|, Sum(fills, Quantity()), o.amount - Sum(fills, Quantity()));
    assert end.rows[..|before|] == mid.rows[..|before|];
  }

  /** The desk in the middle of a placement: the book knows all but the newest order. */
  ghost predicate MidOk(mid: Desk, n: nat, o: Order)
  {
    Agrees(mid.rows, mid.book, n) && TableConsistent(mid.rows) && |mid.rows| == n + 1 && mid.rows[n] == o
  }

  lemma PlaceMidOk(d: Desk, o: Order)
    requires DeskOk(d) && Fresh(o)
    ensures MidOk(MidDesk(d, o), |d.rows|, o)
  {
    PlaceMakers(d, o);
  }

  /** Placing an order keeps table and book in agreement. */
  lemma PlaceKeepsAgreement(d: Desk, o: Order)
    requires DeskOk(d) && Fresh(o)
    ensures DeskOk(Place(d, o).0)
  {
    PlaceMidOk(d, o);
    MidSettles(d, o);
  }

  lemma MidSettles(d: Desk, o: Order)
    requires MidOk(MidDesk(d, o), |d.rows|, o) && Fresh(o)
    ensures DeskOk(Place(d, o).0)
  {
    var filled := PlaceEnds(d, o);
    SettleTakerAgrees(MidDesk(d, o), |d.rows|, o, filled);
  }

  lemma PlaceEnds(d: Desk, o: Order) returns (filled: nat)
    requires Fresh(o)
    ensures filled == Sum(PlaceFills(d, o), Quantity()) <= o.amount && |MidDesk(d, o).rows| == |d.rows| + 1
    ensures Place(d, o).0 == SettleTaker(MidDesk(d, o), |d.rows|, filled, o.amount - filled)
  {
    filled := Sum(PlaceFills(d, o), Quantity());
    PlaceUnfolds(d, o);
  }

  /** cancelOrder for an open order: the book forgets it first, then the table transaction commits or rolls back. */
  function CancelOn(d: Desk, id: OrderId, commits: bool): Desk
    requires id < |d.rows|
  {
    Desk(if commits then d.rows[id := d.rows[id].(status := CANCELLED)] else d.rows,
         Remove(d.book, id, d.rows[id].pair, d.rows[id].side))
  }

  /** Agreement survives a cancel exactly when its transaction commits: the removal from the book is not undone. */
  lemma CancelKeepsAgreementIff(d: Desk, id: OrderId, commits: bool)
    requires DeskOk(d) && Listed(d.rows, |d.rows|, id)
    ensures DeskOk(CancelOn(d, id, commits)) <==> commits
  {
    if commits {
      RemoveAgrees(d.rows, d.book, |d.rows|, id, d.rows[id].(status := CANCELLED));
    } else {
      assert id !in CancelOn(d, id, false).book.details;
    }
  }

  /** How the order transaction ends: it commits, or it dies after some of the match's writes to the live book. */
  datatype Ending = Commits | DiesAfter(writes: nat)

  /** The book after a number of the match's writes: one a fill, and the listing of what is left of the taker. */
  function BookAfter(d: Desk, o: Order, writes: nat): Book
  {
    var fills := PlaceFills(d, o);
    if writes > |fills| then Place(d, o).0.book
    else ApplyFills(Desk(d.rows + [o], d.book), o.side, fills[..writes]).book
  }

  /** The table is rolled back by a transaction that dies; what it wrote to the book stays. */
  function PlaceOn(d: Desk, o: Order, ending: Ending): Desk
  {
    match ending
    case Commits => Place(d, o).0
    case DiesAfter(writes) => Desk(d.rows, BookAfter(d, o, writes))
  }

  lemma {:induction false} GoodPrefix(rows: seq<Order>, n: nat, pair: Pair, side: Side, fills: seq<Fill>, k: nat)
    requires GoodFills(rows, n, pair, side, fills) && k <= |fills|
    ensures GoodFills(rows, n, pair, side, fills[..k])
  {
    var some := fills[..k];
    assert forall i :: 0 <= i < |some| ==> some[i] == fills[i];
  }

  /** The first fill's write alone makes the book disagree with the old table, whatever follows. */
  lemma {:induction false} FilledMakerDisagrees(rows: seq<Order>, after: seq<Order>, b: Book, n: nat, m: nat,
                                                j: OrderId)
    requires Agrees(after, b, m) && j < |rows| && j < |after| && Listed(rows, n, j) && n == |rows|
    requires after[j].remaining < rows[j].remaining
    ensures !Agrees(rows, b, n)
  {
    if j in b.details {
      assert b.details[j] == EntryOf(after, j) != EntryOf(rows, j);
    }
  }

  lemma {:induction false} PartialMatchDisagrees(d: Desk, o: Order, writes: nat)
    requires DeskOk(d) && Fresh(o) && 0 < writes <= |PlaceFills(d, o)|
    ensures !Agrees(d.rows, BookAfter(d, o, writes), |d.rows|)
  {
    var n, start, fills := |d.rows|, Desk(d.rows + [o], d.book), PlaceFills(d, o);
    PlaceFillsAreGood(d, o);
    GoodPrefix(start.rows, n, o.pair, o.side, fills, writes);
    var some := fills[..writes];
    FillsAgree(start, n, o.pair, o.side, some);
    var mid := ApplyFills(start, o.side, some);
    assert some[0] == fills[0] && mid.rows[fills[0].maker.id].remaining < d.rows[fills[0].maker.id].remaining;
    assert Listed(d.rows, n, fills[0].maker.id);
    FilledMakerDisagrees(d.rows, mid.rows, mid.book, n, n, fills[0].maker.id);
  }

  lemma {:induction false} FullMatchDisagrees(d: Desk, o: Order)
    requires DeskOk(d) && Fresh(o)
    ensures !Agrees(d.rows, Place(d, o).0.book, |d.rows|)
  {
    var end, n, fills := Place(d, o).0, |d.rows|, PlaceFills(d, o);
    PlaceKeepsAgreement(d, o);
    PlaceMovesRows(d, o);
    if end.rows[n].Active() {
      assert Listed(end.rows, n + 1, n) && n in end.book.details;
    } else {
      assert fills != [];
      var j := fills[0].maker.id;
      PlaceFillsAreGood(d, o);
      assert end.rows[..n][j] == end.rows[j];
      assert Listed(d.rows, n, j);
      FilledMakerDisagrees(d.rows, end.rows, end.book, n, n + 1, j);
    }
  }

  /**
   Agreement survives a create exactly when its transaction commits or dies before the first write to the live book,
   since book writes are not undone: a transaction that dies amid the fills, after all of them, or after listing its
   rest leaves a book that disagrees with the table.
   */
  lemma PlaceKeepsAgreementIff(d: Desk, o: Order, ending: Ending)
    requires DeskOk(d) && Fresh(o)
    ensures DeskOk(PlaceOn(d, o, ending)) <==> (ending.Commits? || ending.writes == 0)
  {
    match ending
    case Commits => PlaceKeepsAgreement(d, o);
    case DiesAfter(writes) =>
      if writes == 0 {
        assert PlaceFills(d, o)[..0] == [];
      } else if writes <= |PlaceFills(d, o)| {
        PartialMatchDisagrees(d, o, writes);
      } else {
        FullMatchDisagrees(d, o);
      }
  }

  // ---------------------------------------------------------------------------------------------------------
  // Rehydration
  // ---------------------------------------------------------------------------------------------------------

  function ActiveEntries(rows: seq<Order>, ids: seq<OrderId>): (entries: seq<Entry>)
    requires forall i :: 0 <= i < |ids| ==> ids[i] < |rows|
    ensures |entries| == |ids| && forall i :: 0 <= i < |ids| ==> entries[i] == EntryOf(rows, ids[i])
  {
    seq(|ids|, i requires 0 <= i < |ids| => EntryOf(rows, ids[i]))
  }

  function Rehydrated(rows: seq<Order>, b: Book): Book
  {
    ActiveIdsMeaning(rows);
    AddAll(b, ActiveEntries(rows, ActiveIds(rows)))
  }

  /** Adding one entry of the table puts it into its own set, at its own price, and leaves the rest alone. */
  lemma AddMembers(rows: seq<Order>, b: Book, id: OrderId)
    requires id < |rows| && SetsSorted(b)
    ensures var c := Add(b, EntryOf(rows, id));
            && SetsSorted(c)
            && c.details == b.details[id := EntryOf(rows, id)]
            && (forall k: ZKey, m: Member :: m in ZSet(c, k) <==>
                  if m.id == id && k == KeyOf(rows[id]) then m == MemberOf(rows, id) else m in ZSet(b, k))
  {
    var k, x := KeyOf(rows[id]), MemberOf(rows, id);
    var z := ZAdd(ZSet(b, k), x);
    ZAddMembers(ZSet(b, k), x);
    assert x in z;
    WithZSetSets(b, k, z);
    assert forall j: ZKey :: ZSet(Add(b, EntryOf(rows, id)), j) == ZSet(WithZSet(b, k, z), j);
  }

  /** A member after adding the given orders: their own members in their own sets, the old book's elsewhere. */
  predicate AddedMember(rows: seq<Order>, b: Book, ids: seq<OrderId>, k: ZKey, m: Member)
    requires forall i :: 0 <= i < |ids| ==> ids[i] < |rows|
  {
    if m.id in ids && k == KeyOf(rows[m.id]) then m == MemberOf(rows, m.id) else m in ZSet(b, k)
  }

  /** Adding entries of the table: each is listed under its own key, everything else of the old book stays. */
  lemma {:induction false} AddAllMembers(rows: seq<Order>, b: Book, ids: seq<OrderId>)
    requires forall i :: 0 <= i < |ids| ==> ids[i] < |rows|
    requires SetsSorted(b)
    ensures var c := AddAll(b, ActiveEntries(rows, ids));
            && SetsSorted(c)
            && (forall id: OrderId :: id in c.details <==> (id in b.details || id in ids))
            && (forall id: OrderId :: id in c.details ==>
                  c.details[id] == if id in ids then EntryOf(rows, id) else b.details[id])
            && (forall k: ZKey, m: Member :: m in ZSet(c, k) <==> AddedMember(rows, b, ids, k, m))
  {
    if ids != [] {
      var init, id := ids[..|ids| - 1], ids[|ids| - 1];
      var entries := ActiveEntries(rows, ids);
      assert entries[..|entries| - 1] == ActiveEntries(rows, init);
      assert ids == init + [id];
      AddAllMembers(rows, b, init);
      var mid := AddAll(b, ActiveEntries(rows, init));
      AddMembers(rows, mid, id);
      var c := AddAll(b, entries);
      forall j: ZKey, m: Member ensures m in ZSet(c, j) <==> AddedMember(rows, b, ids, j, m) {
        assert m in ZSet(mid, j) <==> AddedMember(rows, b, init, j, m);
      }
    }
  }

  /** Every entry the book had before belongs to an open order, and sits in that order's own set. */
  ghost predicate NothingStale(rows: seq<Order>, b: Book)
  {
    && (forall id: OrderId :: id in b.details ==> Listed(rows, |rows|, id))
    && (forall k: ZKey, m: Member :: m in ZSet(b, k) ==> Listed(rows, |rows|, m.id) && k == KeyOf(rows[m.id]))
  }

  lemma RehydratedMembers(rows: seq<Order>, b: Book)
    requires SetsSorted(b)
    ensures var ids, c := ActiveIds(rows), Rehydrated(rows, b);
            && (forall i :: 0 <= i < |ids| ==> ids[i] < |rows|)
            && SetsSorted(c)
            && (forall id: OrderId :: id in c.details <==> (id in b.details || Listed(rows, |rows|, id)))
            && (forall id: OrderId :: id in c.details ==>
                  c.details[id] == if Listed(rows, |rows|, id) then EntryOf(rows, id) else b.details[id])
            && (forall k: ZKey, m: Member :: m in ZSet(c, k) <==> AddedMember(rows, b, ids, k, m))
  {
    var ids := ActiveIds(rows);
    ActiveIdsMeaning(rows);
    AddAllMembers(rows, b, ids);
    assert forall id: OrderId :: Listed(rows, |rows|, id) <==> id in ids;
  }

  lemma RehydrationAdds(rows: seq<Order>, b: Book)
    requires SetsSorted(b) && NothingStale(rows, b)
    ensures Agrees(rows, Rehydrated(rows, b), |rows|)
  {
    var ids, c := ActiveIds(rows), Rehydrated(rows, b);
    ActiveIdsMeaning(rows);
    RehydratedMembers(rows, b);
    forall k: ZKey, m: Member ensures m in ZSet(c, k) <==> InSet(rows, |rows|, k, m) {
      assert m in ZSet(c, k) <==> AddedMember(rows, b, ids, k, m);
      assert m in ZSet(b, k) ==> Listed(rows, |rows|, m.id);
    }
  }

  lemma {:induction false} RehydrationRemovesNothing(rows: seq<Order>, b: Book)
    requires SetsSorted(b) && Agrees(rows, Rehydrated(rows, b), |rows|)
    ensures NothingStale(rows, b)
  {
    var ids, c := ActiveIds(rows), Rehydrated(rows, b);
    ActiveIdsMeaning(rows);
    RehydratedMembers(rows, b);
    forall k: ZKey, m: Member | m in ZSet(b, k) ensures Listed(rows, |rows|, m.id) && k == KeyOf(rows[m.id]) {
      assert m in ZSet(c, k) <==> AddedMember(rows, b, ids, k, m);
      assert m in ZSet(c, k) ==> InSet(rows, |rows|, k, m);
    }
    forall id: OrderId | id in b.details ensures Listed(rows, |rows|, id) {
      assert id in c.details;
    }
  }

  /**
   Cold-start rehydration makes the book agree with the table if and only if the book held nothing stale: it adds and
   corrects open orders, wrong prices and amounts included, but removes nothing.
   */
  lemma RehydrationRestoresIff(rows: seq<Order>, b: Book)
    requires SetsSorted(b)
    ensures Agrees(rows, Rehydrated(rows, b), |rows|) <==> NothingStale(rows, b)
  {
    if NothingStale(rows, b) {
      RehydrationAdds(rows, b);
    }
    if Agrees(rows, Rehydrated(rows, b), |rows|) {
      RehydrationRemovesNothing(rows, b);
    }
  }

  /** Rehydrating a book that already agrees changes nothing. */
  lemma RehydrationIsIdempotent(rows: seq<Order>, b: Book)
    requires Agrees(rows, b, |rows|)
    ensures Rehydrated(rows, b) == b
  {
    forall k: ZKey, m: Member | m in ZSet(b, k) ensures Listed(rows, |rows|, m.id) && k == KeyOf(rows[m.id]) {
      assert InSet(rows, |rows|, k, m);
    }
    RehydrationRestoresIff(rows, b);
    AgreementDetermines(rows, b, Rehydrated(rows, b), |rows|);
  }

  // ---------------------------------------------------------------------------------------------------------
  // The book never stays crossed
  // ---------------------------------------------------------------------------------------------------------

  /** No open bid reaches an open ask of another user on the same pair. */
  predicate Uncrossed(rows: seq<Order>)
  {
    forall i, j :: 0 <= i < |rows| && 0 <= j < |rows| && rows[i].Active() && rows[j].Active()
                   && rows[i].side == BUY && rows[j].side == SELL && rows[i].pair == rows[j].pair
                   && rows[i].user != rows[j].user
                   ==> rows[i].price < rows[j].price
  }

  /** If the fills leave the taker short, they took every eligible candidate whole. */
  lemma {:induction false} ShortTakerExhausts(candidates: seq<Entry>, user: UserId, side: Side, limit: nat, need: nat,
                                              e: Entry)
    requires BestFirst(side, candidates) && e in candidates && Eligible(e, user, side, limit)
    requires Sum(Fills(candidates, user, side, limit, need), Quantity()) < need
    ensures Fill(e, e.remaining) in Fills(candidates, user, side, limit, need)
  {
    var first, rest := candidates[0], candidates[1..];
    assert candidates == [first] + rest;
    assert BestFirst(side, rest);
    if first.user == user {
      ShortTakerExhausts(rest, user, side, limit, need, e);
    } else if !Crosses(side, limit, first.price) {
      NothingCrossesLater(candidates, user, side, limit);
    } else {
      var q := Min(need, first.remaining);
      FillsFront(candidates, user, side, limit, need);
      if e != first {
        ShortTakerExhausts(rest, user, side, limit, need - q, e);
      } else {
        FillsFit(rest, user, side, limit, need - q);
      }
    }
  }

  /** A match only fills old rows; it opens none and changes nobody's user, pair, side or price. */
  lemma OldRowsOnlyFill(d: Desk, o: Order, id: OrderId)
    requires DeskOk(d) && Fresh(o) && id < |d.rows|
    ensures var after := Place(d, o).0.rows;
            && id < |after| && (after[id].Active() ==> d.rows[id].Active())
            && after[id] == d.rows[id].(filled := after[id].filled, remaining := after[id].remaining,
                                        status := after[id].status)
  {
    var fills := PlaceFills(d, o);
    PlaceMovesRows(d, o);
    PlaceFillsAreGood(d, o);
    assert Place(d, o).0.rows[..|d.rows|][id] == Place(d, o).0.rows[id];
    if !NotMaker(fills, id) {
      var i :| 0 <= i < |fills| && fills[i].maker.id == id;
      assert Listed(d.rows + [o], |d.rows|, id);
    }
  }

  /** An open order of another user that the new order crosses and that the fetched candidates do not show. */
  predicate Unseen(d: Desk, o: Order, id: OrderId)
  {
    && Listed(d.rows, |d.rows|, id) && d.rows[id].pair == o.pair && d.rows[id].side == o.side.Opposite()
    && Eligible(EntryOf(d.rows, id), o.user, o.side, o.price)
    && EntryOf(d.rows, id) !in BestOpposing(d.book, o.pair, o.side)
  }

  /** The fetched orders cannot fill the new order, while a crossing order of another user hides behind them. */
  predicate BlindSpot(d: Desk, o: Order)
  {
    && Sum(BestOpposing(d.book, o.pair, o.side), EligibleRemaining(o.user, o.side, o.price)) < o.amount
    && exists id :: 0 <= id < |d.rows| && Unseen(d, o, id)
  }

  /** If part of the order stays open, every crossing order of another user that it saw was filled whole. */
  lemma {:induction false} CrossingIsFilledWhole(d: Desk, o: Order, id: OrderId)
    requires DeskOk(d) && Fresh(o) && Listed(d.rows, |d.rows|, id)
    requires EntryOf(d.rows, id) in BestOpposing(d.book, o.pair, o.side)
    requires Sum(PlaceFills(d, o), Quantity()) < o.amount
    requires d.rows[id].side == o.side.Opposite() && d.rows[id].pair == o.pair && d.rows[id].user != o.user
    requires Crosses(o.side, o.price, d.rows[id].price)
    ensures id < |Place(d, o).0.rows|
    ensures Place(d, o).0.rows[id] == Filled(d.rows[id], d.rows[id].remaining)
  {
    var fills, rows := PlaceFills(d, o), d.rows + [o];
    PlaceMovesRows(d, o);
    PlaceFillsAreGood(d, o);
    var e := EntryOf(rows, id);
    assert e == EntryOf(d.rows, id);
    ShortTakerExhausts(BestOpposing(d.book, o.pair, o.side), o.user, o.side, o.price, o.remaining, e);
    var i :| 0 <= i < |fills| && fills[i] == Fill(e, e.remaining);
    assert fills[i].maker.id == id;
  }

  lemma {:induction false} NothingCrossesTheRest(d: Desk, o: Order, id: OrderId)
    requires DeskOk(d) && Fresh(o) && id < |d.rows|
    requires !Unseen(d, o, id)
    requires |Place(d, o).0.rows| == |d.rows| + 1
    requires Place(d, o).0.rows[|d.rows|].Active() && Place(d, o).0.rows[id].Active()
    requires d.rows[id].side == o.side.Opposite() && d.rows[id].pair == o.pair && d.rows[id].user != o.user
    ensures !Crosses(o.side, o.price, d.rows[id].price)
  {
    PlaceMovesRows(d, o);
    OldRowsOnlyFill(d, o, id);
    if Crosses(o.side, o.price, d.rows[id].price) {
      CrossingIsFilledWhole(d, o, id);
    }
  }

  lemma {:induction false} RestIsShort(d: Desk, o: Order)
    requires DeskOk(d) && Fresh(o)
    ensures |Place(d, o).0.rows| == |d.rows| + 1
    ensures Place(d, o).0.rows[|d.rows|].Active()
       <==> Sum(BestOpposing(d.book, o.pair, o.side), EligibleRemaining(o.user, o.side, o.price)) < o.amount
  {
    PlaceMovesRows(d, o);
    PlaceFillsAreGood(d, o);
    FillsAreExact(BestOpposing(d.book, o.pair, o.side), o.user, o.side, o.price, o.amount);
  }

  /** An order that the match does not see stays as it is. */
  lemma {:induction false} UnseenStays(d: Desk, o: Order, id: OrderId)
    requires DeskOk(d) && Fresh(o) && id < |d.rows| && Unseen(d, o, id)
    ensures id < |Place(d, o).0.rows| && Place(d, o).0.rows[id] == d.rows[id]
  {
    var fills, candidates := PlaceFills(d, o), BestOpposing(d.book, o.pair, o.side);
    PlaceMovesRows(d, o);
    PlaceFillsAreGood(d, o);
    FillsAreSound(candidates, o.user, o.side, o.price, o.remaining);
    forall i | 0 <= i < |fills| ensures fills[i].maker.id != id {
      assert fills[i] in fills && fills[i].maker in candidates;
    }
    assert NotMaker(fills, id);
    assert Place(d, o).0.rows[..|d.rows|][id] == d.rows[id];
  }

  /**
   Placing an order leaves an uncrossed book uncrossed if and only if it has no blind spot: no crossing order of another
   user hides behind the fifty fetched ones while these cannot fill the order.
   */
  lemma {:induction false} PlaceUncrossedIff(d: Desk, o: Order)
    requires DeskOk(d) && Fresh(o) && Uncrossed(d.rows)
    ensures Uncrossed(Place(d, o).0.rows) <==> !BlindSpot(d, o)
  {
    var after, n := Place(d, o).0.rows, |d.rows|;
    RestIsShort(d, o);
    PlaceMovesRows(d, o);
    if BlindSpot(d, o) {
      var id :| 0 <= id < |d.rows| && Unseen(d, o, id);
      UnseenStays(d, o, id);
      assert after[n].Active() && after[id].Active() && Crosses(o.side, o.price, after[id].price);
      assert !Uncrossed(after) by {
        var i, j := if o.side == BUY then n else id, if o.side == BUY then id else n;
        assert after[i].price >= after[j].price && after[i].side == BUY && after[j].side == SELL;
      }
    } else {
      forall i, j | 0 <= i < |after| && 0 <= j < |after| && after[i].Active() && after[j].Active()
                    && after[i].side == BUY && after[j].side == SELL && after[i].pair == after[j].pair
                    && after[i].user != after[j].user
        ensures after[i].price < after[j].price
      {
        if i < n { OldRowsOnlyFill(d, o, i); }
        if j < n { OldRowsOnlyFill(d, o, j); }
        if i == n {
          NothingCrossesTheRest(d, o, j);
        } else if j == n {
          NothingCrossesTheRest(d, o, i);
        }
      }
    }
  }

  /** A side that fits into the fetched candidates has no blind spot. */
  lemma {:induction false} ShortSideIsSeen(d: Desk, o: Order)
    requires DeskOk(d) && Fresh(o) && |ZSet(d.book, ZKey(o.pair, o.side.Opposite()))| <= 50
    ensures !BlindSpot(d, o)
  {
    forall id | 0 <= id < |d.rows| ensures !Unseen(d, o, id) {
      if Listed(d.rows, |d.rows|, id) && d.rows[id].pair == o.pair && d.rows[id].side == o.side.Opposite() {
        CandidatesAreAll(d.rows, d.book, |d.rows|, o.pair, o.side, id);
      }
    }
  }

  /** Placing an order whose opposing side fits into the 50 fetched candidates leaves the book uncrossed. */
  lemma {:induction false} PlaceKeepsUncrossed(d: Desk, o: Order)
    requires DeskOk(d) && Fresh(o) && Uncrossed(d.rows)
    requires |ZSet(d.book, ZKey(o.pair, o.side.Opposite()))| <= 50
    ensures Uncrossed(Place(d, o).0.rows)
  {
    ShortSideIsSeen(d, o);
    PlaceUncrossedIff(d, o);
  }

  /** Fifty asks of user 0 at price 1, and one of user 1 at the same price behind them. */
  function OwnWall(): (rows: seq<Order>)
    ensures |rows| == 51
    ensures forall i :: 0 <= i <= 50 ==>
              rows[i] == NewOrder(if i < 50 then 0 else 1, BTC_USDT, SELL, 1, 1, "")
  {
    seq(51, i => NewOrder(if i < 50 then 0 else 1, BTC_USDT, SELL, 1, 1, ""))
  }

  function Wall(): Desk
  {
    Desk(OwnWall(), Rehydrated(OwnWall(), Book(map[], map[])))
  }

  lemma {:induction false} WallIsOk()
    ensures DeskOk(Wall()) && Uncrossed(Wall().rows)
  {
    var rows := OwnWall();
    assert SetsSorted(Book(map[], map[]));
    RehydrationAdds(rows, Book(map[], map[]));
  }

  lemma WallRows()
    ensures Wall().rows == OwnWall()
  {
  }

  /** The asks in the order of their ids. */
  function WallMembers(): (z: seq<Member>)
    ensures |z| == 51 && forall i :: 0 <= i <= 50 ==> z[i] == Member(1, i)
    ensures Sorted(z)
  {
    seq(51, (i: nat) => Member(1, i))
  }

  lemma {:induction false} SortedAt(b: Book, k: ZKey)
    requires SetsSorted(b)
    ensures Sorted(ZSet(b, k))
  {
  }

  lemma {:induction false} WallSide(b: Book)
    requires SetsAgree(OwnWall(), b, 51) && SetsSorted(b)
    ensures ZSet(b, ZKey(BTC_USDT, SELL)) == WallMembers()
  {
    hide SetsSorted;
    var rows, k, z := OwnWall(), ZKey(BTC_USDT, SELL), WallMembers();
    forall m: Member ensures m in ZSet(b, k) <==> m in z {
      assert m in ZSet(b, k) <==> InSet(rows, |rows|, k, m);
      if m.id <= 50 {
        assert z[m.id] == Member(1, m.id);
      }
    }
    SortedAt(b, k);
    SortedIsUnique(ZSet(b, k), z);
  }

  lemma {:induction false} WallCandidates(b: Book)
    requires Agrees(OwnWall(), b, 51)
    ensures forall i :: 0 <= i < |BestOpposing(b, BTC_USDT, BUY)| ==> BestOpposing(b, BTC_USDT, BUY)[i].user == 0
  {
    hide DetailsAgree, SetsAgree, SetsSorted, OwnWall, WallMembers;
    var fetched := Fetched(b, BTC_USDT, BUY);
    WallSide(b);
    FirstEntries(OwnWall(), b, 51, BTC_USDT, BUY, fetched);
    forall i | 0 <= i < |fetched| ensures OwnWall()[fetched[i].id].user == 0 {
      assert fetched[i] == WallMembers()[i];
    }
  }

  /** The ask of user 1 is the fifty-first member. */
  lemma {:induction false} WallHides(d: Desk)
    requires d.rows == OwnWall() && Agrees(d.rows, d.book, |d.rows|)
    ensures BlindSpot(d, NewOrder(0, BTC_USDT, BUY, 1, 1, ""))
  {
    hide Agrees, BestOpposing, OwnWall;
    var candidates := BestOpposing(d.book, BTC_USDT, BUY);
    WallCandidates(d.book);
    SumZero(candidates, EligibleRemaining(0, BUY, 1));
    assert EntryOf(d.rows, 50).user == 1;
    assert Unseen(d, NewOrder(0, BTC_USDT, BUY, 1, 1, ""), 50);
  }

  /** Behind fifty asks of the taker's own, an ask of another user is not found: the book becomes crossed. */
  lemma {:induction false} OwnWallCrossesBook()
    ensures Uncrossed(Wall().rows)
    ensures !Uncrossed(Place(Wall(), NewOrder(0, BTC_USDT, BUY, 1, 1, "")).0.rows)
  {
    hide Place, BlindSpot, Wall;
    WallIsOk();
    WallRows();
    WallHides(Wall());
    PlaceUncrossedIff(Wall(), NewOrder(0, BTC_USDT, BUY, 1, 1, ""));
  }

  /** Cancelling never crosses a book. */
  lemma CancelKeepsUncrossed(rows: seq<Order>, id: OrderId)
    requires Uncrossed(rows) && id < |rows|
    ensures Uncrossed(rows[id := rows[id].(status := CANCELLED)])
  {
  }
}
