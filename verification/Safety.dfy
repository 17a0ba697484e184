/**
 Every step of the exchange keeps its invariant, in every environment. Nothing here needs induction except the last
 lemma, over runs.
 */
module Safety {
  import opened Wrappers
  import opened Domain
  import opened Sums
  import opened Ledger
  import opened Settlement
  import opened OrderBook
  import opened Matching
  import opened Agreement
  import opened Reservations
  import opened Delivery
  import opened Exchange
  import opened Calls
  import W = Withdrawals

  lemma EmptyIsOk()
    ensures Inv(EMPTY)
  {
  }

  // ---------------------------------------------------------------------------------------------------------
  // Deposits
  // ---------------------------------------------------------------------------------------------------------

  /** A call about no trade and no order leaves the ledger sound and the rows of trades and cancels as they are. */
  lemma {:induction false} OtherCallKeeps(s: State, m: Mutation, reaches: bool)
    requires Inv(s) && !m.reference.TradeRef? && !m.reference.OrderRef?
    ensures var b := Call(s.books, m, reaches).books;
            && LedgerOk(b) && FourRowsEach(b.rows, s.processed) && TradesEntered(b.rows, s.trades, s.processed)
            && CancelsEntered(b.rows, s.cancels)
  {
    hide LedgerOk, MarketOk, ChannelOk, FourRowsEach, TradesEntered, CreatesOk, OrdersLinked, CancelsOk, CancelsEntered,
         WithdrawalsOk, LockedOk, CoveredOk;
    CallKeepsLedger(s.books, m, reaches);
    CallKeepsFourRows(s.books, m, reaches, s.processed);
    CallKeepsTrades(s.books, m, reaches, s.trades, s.processed);
    CallKeepsCancels(s.books, m, reaches, s.cancels);
  }

  /** A call that moves nothing locked and belongs to no saga only touches the ledger. */
  lemma {:induction false} NeutralCallKeeps(s: State, m: Mutation, reaches: bool)
    requires Inv(s) && Foreign(m) && Unrelated(m) && LockedDelta(m.kind, m.amount) == 0
    requires !m.reference.TradeRef? && !m.reference.OrderRef?
    ensures Inv(s.(books := Call(s.books, m, reaches).books))
  {
    hide LedgerOk, MarketOk, ChannelOk, FourRowsEach, TradesEntered, CreatesOk, OrdersLinked, CancelsOk, CancelsEntered,
         WithdrawalsOk, CoveredOk;
    var b := Call(s.books, m, reaches).books;
    OtherCallKeeps(s, m, reaches);
    CallKeepsCreates(s.books, m, reaches, s.creates);
    CallKeepsWithdrawals(s.books, m, reaches, s.withdrawals);
    forall a: Account ensures BalanceOf(b, a).locked == BalanceOf(s.books, a).locked {
      CallMovesLocked(s.books, m, reaches, a);
    }
  }

  lemma {:induction false} DepositKeeps(s: State, onChain: bool, account: Account, amount: nat, key: string,
                                        reference: string)
    requires Inv(s)
    ensures Inv(StepDeposit(s, onChain, account, amount, key, reference))
  {
    hide Inv;
    NeutralCallKeeps(s, DepositRequest(onChain, account, amount, key, reference), true);
  }

  // ---------------------------------------------------------------------------------------------------------
  // createOrder up to its transaction
  // ---------------------------------------------------------------------------------------------------------

  lemma {:induction false} BeginCreateKeeps(s: State, user: UserId, pair: Pair, side: Side, price: nat, amount: nat,
                                            key: string)
    requires Inv(s)
    ensures Inv(StepBeginCreate(s, user, pair, side, price, amount, key))
  {
    if price > 0 && amount > 0 && !KeyUsed(s.creates, key) {
      var c := Create(user, pair, side, price, amount, key, BEGUN, false, false, false, false);
      var creates := s.creates + [c];
      NewCreateOk(s.books.rows, s.creates, c);
      MoreCreatesLinked(s.desk.rows, s.creates, c);
      forall a: Account
        ensures Sum(creates, Held(a)) == Sum(s.creates, Held(a))
        ensures Sum(creates, Backing(a)) == Sum(s.creates, Backing(a))
      {
        SumAppend(s.creates, c, Held(a));
        SumAppend(s.creates, c, Backing(a));
      }
      CoveredByEqualBacking(s.creates, creates, s.desk.rows, s.trades, s.cancels);
    }
  }

  lemma {:induction false} NewCreateOk(rows: seq<Row>, creates: seq<Create>, c: Create)
    requires CreatesOk(rows, creates) && !KeyUsed(creates, c.key)
    requires c.phase == BEGUN && !c.lockApplied && !c.unlockApplied && 0 < c.price && 0 < c.amount
    ensures CreatesOk(rows, creates + [c])
  {
    var more := creates + [c];
    assert !Recorded(rows, LockKey(c.key), LOCK) && !Recorded(rows, UnlockKey(c.key), UNLOCK);
    forall key: string | KeyUsed(creates, key) ensures KeyUsed(more, key) {
      var i :| 0 <= i < |creates| && creates[i].key == key;
      assert more[i].key == key;
    }
    forall i | 0 <= i < |more| ensures CreateOk(rows, more[i]) {
      if i < |creates| {
        assert CreateOk(rows, creates[i]);
      }
    }
    forall i, j | 0 <= i < j < |more| ensures more[i].key != more[j].key {
      if j == |creates| {
        assert more[i] == creates[i];
      }
    }
  }

  lemma {:induction false} MoreCreatesLinked(orders: seq<Order>, creates: seq<Create>, c: Create)
    requires OrdersLinked(orders, creates)
    ensures OrdersLinked(orders, creates + [c])
  {
    var more := creates + [c];
    forall id | 0 <= id < |orders| ensures HasCreate(more, orders[id]) {
      var i :| 0 <= i < |creates| && Stored(creates[i], orders[id]);
      assert Stored(more[i], orders[id]);
    }
  }

  lemma {:induction false} CoveredByEqualBacking(one: seq<Create>, two: seq<Create>, orders: seq<Order>,
                                                 trades: seq<Trade>, cancels: seq<Cancel>)
    requires CoveredOk(one, orders, trades, cancels)
    requires forall a: Account :: Sum(two, Backing(a)) == Sum(one, Backing(a))
    ensures CoveredOk(two, orders, trades, cancels)
  {
    forall a: Account ensures 0 <= Dust(two, orders, trades, cancels, a) <= 2 * Sum(trades, BuysOn(a)) {
      assert Dust(two, orders, trades, cancels, a) == Dust(one, orders, trades, cancels, a);
    }
  }

  /** Replacing a create by one with the same key: the others only see the ledger change. */
  lemma {:induction false} ReplacedCreateOk(rows: seq<Row>, creates: seq<Create>, i: nat, c: Create)
    requires i < |creates| && c.key == creates[i].key && CreateOk(rows, c)
    requires forall j :: 0 <= j < |creates| && j != i ==> CreateOk(rows, creates[j])
    requires forall j, k :: 0 <= j < k < |creates| ==> creates[j].key != creates[k].key
    requires forall key: string :: Recorded(rows, LockKey(key), LOCK) ==> KeyUsed(creates, key)
    requires forall key: string :: Recorded(rows, UnlockKey(key), UNLOCK) ==> KeyUsed(creates, key)
    ensures CreatesOk(rows, creates[i := c])
  {
    forall key: string | KeyUsed(creates, key) ensures KeyUsed(creates[i := c], key) {
      var j :| 0 <= j < |creates| && creates[j].key == key;
      assert creates[i := c][j].key == key;
    }
  }

  /** A saga's own call keeps every other create's entries apart. */
  lemma {:induction false} OwnCallKeepsCreates(b: Books, m: Mutation, reaches: bool, creates: seq<Create>, i: nat,
                                               c: Create)
    requires CreatesOk(b.rows, creates) && i < |creates| && c.key == creates[i].key
    requires (m.kind == LOCK && m.key == LockKey(c.key)) || (m.kind == UNLOCK && m.key == UnlockKey(c.key))
    requires CreateOk(Call(b, m, reaches).books.rows, c)
    ensures CreatesOk(Call(b, m, reaches).books.rows, creates[i := c])
  {
    var rows := Call(b, m, reaches).books.rows;
    forall j | 0 <= j < |creates| && j != i ensures CreateOk(rows, creates[j]) {
      KeysApart(c.key, creates[j].key);
      CallKeepsCreate(b, m, reaches, creates[j]);
    }
    forall key: string
      ensures Recorded(rows, LockKey(key), LOCK) ==> KeyUsed(creates, key)
      ensures Recorded(rows, UnlockKey(key), UNLOCK) ==> KeyUsed(creates, key)
    {
      KeysApart(key, c.key);
      CallRecords(b, m, reaches, LockKey(key), LOCK);
      CallRecords(b, m, reaches, UnlockKey(key), UNLOCK);
      assert creates[i].key == c.key;
    }
    ReplacedCreateOk(rows, creates, i, c);
  }

  lemma {:induction false} ReplacedCreateLinked(orders: seq<Order>, creates: seq<Create>, i: nat, c: Create)
    requires OrdersLinked(orders, creates) && i < |creates| && creates[i].phase != STORED
    ensures OrdersLinked(orders, creates[i := c])
  {
    forall id | 0 <= id < |orders| ensures HasCreate(creates[i := c], orders[id]) {
      var j :| 0 <= j < |creates| && Stored(creates[j], orders[id]);
      assert creates[i := c][j] == creates[j];
    }
  }

  /** A create that is not stored before or after may change without touching what stored orders are backed by. */
  lemma {:induction false} UnstoredKeepsCover(s: State, i: nat, c: Create)
    requires Inv(s) && i < |s.creates| && s.creates[i].phase != STORED && c.phase != STORED
    ensures OrdersLinked(s.desk.rows, s.creates[i := c])
    ensures CoveredOk(s.creates[i := c], s.desk.rows, s.trades, s.cancels)
  {
    ReplacedCreateLinked(s.desk.rows, s.creates, i, c);
    forall a: Account ensures Sum(s.creates[i := c], Backing(a)) == Sum(s.creates, Backing(a)) {
      SumUpdate(s.creates, i, c, Backing(a));
    }
    CoveredByEqualBacking(s.creates, s.creates[i := c], s.desk.rows, s.trades, s.cancels);
  }

  /** What a create's entries look like after its own lock call. */
  lemma {:induction false} LockedCreateOk(b: Books, c: Create, reaches: bool, acknowledged: bool)
    requires CreateOk(b.rows, c) && c.phase == BEGUN
    ensures var r := Call(b, LockRequest(c), reaches);
            && (r.accepted ==> r.applied)
            && CreateOk(r.books.rows, AfterLock(c, r, acknowledged))
  {
    CallPosts(b, LockRequest(c), reaches);
    CallRecords(b, LockRequest(c), reaches, LockKey(c.key), LOCK);
    CallRecords(b, LockRequest(c), reaches, UnlockKey(c.key), UNLOCK);
  }

  lemma {:induction false} LockFundsKeeps(s: State, create: nat, reaches: bool, acknowledged: bool)
    requires Inv(s)
    ensures Inv(StepLockFunds(s, create, reaches, acknowledged))
  {
    hide LedgerOk, MarketOk, ChannelOk, FourRowsEach, TradesEntered, CreatesOk, OrdersLinked, CancelsOk, CancelsEntered,
         WithdrawalsOk, LockedOk, CoveredOk;
    if create < |s.creates| && s.creates[create].phase == BEGUN {
      var c := s.creates[create];
      var m := LockRequest(c);
      var r := Call(s.books, m, reaches);
      var d := AfterLock(c, r, acknowledged);
      forall key: string ensures m.key != WithdrawLockKey(key) {
        KeysApart(key, c.key);
      }
      OtherCallKeeps(s, m, reaches);
      CallKeepsWithdrawals(s.books, m, reaches, s.withdrawals);
      CreateAt(s.books.rows, s.creates, create);
      LockedCreateOk(s.books, c, reaches, acknowledged);
      OwnCallKeepsCreates(s.books, m, reaches, s.creates, create, d);
      UnstoredKeepsCover(s, create, d);
      HeldFollowsCall(s, m, reaches, create, d);
    }
  }

  function CallDelta(b: Books, m: Mutation, reaches: bool, a: Account): int
  {
    if Call(b, m, reaches).applied && a == m.account then LockedDelta(m.kind, m.amount) else 0
  }

  /** The locked balance moves by what the create newly holds. */
  lemma {:induction false} HeldFollowsCall(s: State, m: Mutation, reaches: bool, i: nat, c: Create)
    requires LockedOk(s.books, s.creates, s.cancels, s.trades, s.processed, s.withdrawals) && i < |s.creates|
    requires forall a: Account :: Held(a)(c) == Held(a)(s.creates[i]) + CallDelta(s.books, m, reaches, a)
    ensures LockedOk(Call(s.books, m, reaches).books, s.creates[i := c], s.cancels, s.trades, s.processed,
                     s.withdrawals)
  {
    var b := Call(s.books, m, reaches).books;
    forall a: Account
      ensures BalanceOf(b, a).locked
           == Sum(s.creates[i := c], Held(a)) - Sum(s.cancels, Unlocked(a))
              - SumMarked(s.trades, s.processed, TradeDeduction(a)) + Sum(s.withdrawals, NetOf(a))
    {
      CallMovesLocked(s.books, m, reaches, a);
      SumUpdate(s.creates, i, c, Held(a));
    }
  }

  lemma {:induction false} CreateAt(rows: seq<Row>, creates: seq<Create>, i: nat)
    requires CreatesOk(rows, creates) && i < |creates|
    ensures CreateOk(rows, creates[i])
  {
  }

  lemma {:induction false} SameHeldKeepsLocked(s: State, i: nat, c: Create)
    requires LockedOk(s.books, s.creates, s.cancels, s.trades, s.processed, s.withdrawals) && i < |s.creates|
    requires forall a: Account :: Held(a)(c) == Held(a)(s.creates[i])
    ensures LockedOk(s.books, s.creates[i := c], s.cancels, s.trades, s.processed, s.withdrawals)
  {
    forall a: Account ensures Sum(s.creates[i := c], Held(a)) == Sum(s.creates, Held(a)) {
      SumUpdate(s.creates, i, c, Held(a));
    }
  }

  lemma {:induction false} AbortedCreateOk(rows: seq<Row>, creates: seq<Create>, i: nat, c: Create)
    requires CreatesOk(rows, creates) && i < |creates| && creates[i].phase == LOCKED
    requires c == creates[i].(phase := COMPENSATING) || c == creates[i].(phase := STORED)
    ensures CreatesOk(rows, creates[i := c])
  {
    assert CreateOk(rows, creates[i]);
    ReplacedCreateOk(rows, creates, i, c);
  }

  lemma {:induction false} AbortKeeps(s: State, create: nat)
    requires Inv(s)
    ensures Inv(StepAbort(s, create))
  {
    hide LedgerOk, MarketOk, ChannelOk, FourRowsEach, TradesEntered, CreatesOk, OrdersLinked, CancelsOk, CancelsEntered,
         WithdrawalsOk, LockedOk, CoveredOk;
    if create < |s.creates| && s.creates[create].phase == LOCKED {
      var c := s.creates[create].(phase := COMPENSATING);
      AbortedCreateOk(s.books.rows, s.creates, create, c);
      UnstoredKeepsCover(s, create, c);
      SameHeldKeepsLocked(s, create, c);
    }
  }

  lemma {:induction false} UnlockedCreateOk(b: Books, c: Create, reaches: bool)
    requires CreateOk(b.rows, c) && c.phase == COMPENSATING
    ensures var r := Call(b, UnlockRequest(c), reaches);
            CreateOk(r.books.rows, AfterUnlock(c, r, reaches))
  {
    CallPosts(b, UnlockRequest(c), reaches);
    CallRecords(b, UnlockRequest(c), reaches, LockKey(c.key), LOCK);
    CallRecords(b, UnlockRequest(c), reaches, UnlockKey(c.key), UNLOCK);
    CallFinds(b, UnlockRequest(c), reaches, LockKey(c.key));
  }

  lemma {:induction false} CompensateKeeps(s: State, create: nat, reaches: bool)
    requires Inv(s)
    ensures Inv(StepCompensate(s, create, reaches))
  {
    hide LedgerOk, MarketOk, ChannelOk, FourRowsEach, TradesEntered, CreatesOk, OrdersLinked, CancelsOk, CancelsEntered,
         WithdrawalsOk, LockedOk, CoveredOk;
    if create < |s.creates| && s.creates[create].phase == COMPENSATING {
      var c := s.creates[create];
      var m := UnlockRequest(c);
      var r := Call(s.books, m, reaches);
      var d := AfterUnlock(c, r, reaches);
      forall key: string ensures m.key != CompensateKey(key) && m.key != WithdrawUnlockKey(key) {
        KeysApart(key, c.key);
      }
      OtherCallKeeps(s, m, reaches);
      CallKeepsWithdrawals(s.books, m, reaches, s.withdrawals);
      CreateAt(s.books.rows, s.creates, create);
      UnlockedCreateOk(s.books, c, reaches);
      OwnCallKeepsCreates(s.books, m, reaches, s.creates, create, d);
      UnstoredKeepsCover(s, create, d);
      HeldFollowsCall(s, m, reaches, create, d);
    }
  }

  // ---------------------------------------------------------------------------------------------------------
  // The order transaction
  // ---------------------------------------------------------------------------------------------------------

  /** Rows may be added and filled; nobody's user, pair, side, price, amount or key changes. */
  predicate Kept(before: seq<Order>, after: seq<Order>)
  {
    && |before| <= |after|
    && forall id :: 0 <= id < |before| ==>
         after[id] == before[id].(filled := after[id].filled, remaining := after[id].remaining,
                                  status := after[id].status)
  }

  /** Cancelled rows are left alone and no other row becomes one. */
  predicate CancelledKept(before: seq<Order>, after: seq<Order>)
  {
    && |before| <= |after|
    && (forall id :: 0 <= id < |before| && before[id].status == CANCELLED ==> after[id] == before[id])
    && (forall id :: 0 <= id < |before| && after[id].status == CANCELLED ==> before[id].status == CANCELLED)
    && (forall id :: |before| <= id < |after| ==> after[id].status != CANCELLED)
  }

  lemma {:induction false} PlaceKeepsRows(d: Desk, o: Order)
    requires DeskOk(d) && Fresh(o)
    ensures |Place(d, o).0.rows| == |d.rows| + 1
    ensures Kept(d.rows, Place(d, o).0.rows)
  {
    var after := Place(d, o).0.rows;
    PlaceMovesRows(d, o);
    forall id | 0 <= id < |d.rows|
      ensures after[id] == d.rows[id].(filled := after[id].filled, remaining := after[id].remaining,
                                       status := after[id].status)
    {
      OldRowsOnlyFill(d, o, id);
    }
  }

  lemma {:induction false} MakersWereOpen(before: seq<Order>, o: Order, pair: Pair, side: Side, fills: seq<Fill>,
                                          after: seq<Order>, id: OrderId)
    requires MakersMoved(before, fills, after) && GoodFills(before + [o], |before|, pair, side, fills)
    requires id < |before|
    ensures before[id].status == CANCELLED ==> after[id] == before[id]
    ensures after[id].status == CANCELLED ==> before[id].status == CANCELLED
  {
    if !NotMaker(fills, id) {
      var i :| 0 <= i < |fills| && fills[i].maker.id == id;
      assert Listed(before + [o], |before|, id);
      assert after[id] == Filled(before[id], fills[i].quantity);
    }
  }

  lemma {:induction false} PlaceKeepsCancelled(d: Desk, o: Order)
    requires DeskOk(d) && Fresh(o)
    ensures CancelledKept(d.rows, Place(d, o).0.rows)
  {
    hide MakersMoved, GoodFills, DeskOk, Place;
    var after, fills := Place(d, o).0.rows, PlaceFills(d, o);
    PlaceMovesRows(d, o);
    PlaceFillsAreGood(d, o);
    forall id | 0 <= id < |d.rows|
      ensures d.rows[id].status == CANCELLED ==> after[id] == d.rows[id]
      ensures after[id].status == CANCELLED ==> d.rows[id].status == CANCELLED
    {
      MakersWereOpen(d.rows, o, o.pair, o.side, fills, after[..|d.rows|], id);
    }
  }

  lemma {:induction false} PlaceWritesTaker(d: Desk, o: Order)
    requires DeskOk(d) && Fresh(o)
    ensures |Place(d, o).0.rows| == |d.rows| + 1
    ensures var taker := Place(d, o).0.rows[|d.rows|];
            taker == o.(filled := taker.filled, remaining := taker.remaining, status := taker.status)
  {
    PlaceMovesRows(d, o);
  }

  lemma {:induction false} KeptTradesFit(before: seq<Order>, after: seq<Order>, trades: seq<Trade>)
    requires TradesFit(before, trades) && Kept(before, after)
    ensures TradesFit(after, trades)
  {
    forall i | 0 <= i < |trades| ensures TradeFits(after, trades[i]) {
      assert TradeFits(before, trades[i]);
    }
  }

  /** The trades of a match pair different users on one pair at a price inside both limits. */
  lemma {:induction false} NewTradesFit(d: Desk, o: Order)
    requires DeskOk(d) && Fresh(o)
    ensures TradesFit(Place(d, o).0.rows, Place(d, o).1)
  {
    var n, fills := |d.rows|, PlaceFills(d, o);
    var (end, trades) := Place(d, o);
    PlaceFillsAreGood(d, o);
    PlaceFillsCross(d, o);
    PlaceKeepsRows(d, o);
    PlaceWritesTaker(d, o);
    PlaceTaker(d, o);
    forall k | 0 <= k < |trades| ensures TradeFits(end.rows, trades[k]) {
      var f := fills[k];
      assert trades[k] == TradeOf(o, n, f);
      assert f.maker == Matching.EntryOf(d.rows + [o], f.maker.id) && Eligible(f.maker, o.user, o.side, o.price);
      FitsOne(end.rows, o, n, f);
    }
  }

  lemma {:induction false} FitsOne(rows: seq<Order>, o: Order, n: nat, f: Fill)
    requires n < |rows| && f.maker.id < |rows| && 0 < f.quantity
    requires rows[n].user == o.user && rows[n].pair == o.pair && rows[n].side == o.side && rows[n].price == o.price
    requires var m := rows[f.maker.id];
             && m.user == f.maker.user && m.pair == o.pair && m.side == o.side.Opposite() && m.price == f.maker.price
    requires Eligible(f.maker, o.user, o.side, o.price)
    ensures TradeFits(rows, TradeOf(o, n, f))
  {
  }

  lemma {:induction false} PlaceKeepsMarket(d: Desk, o: Order, trades: seq<Trade>)
    requires MarketOk(d, trades) && Fresh(o)
    ensures MarketOk(Place(d, o).0, trades + Place(d, o).1)
  {
    hide OrdersAccounted, DeskOk;
    var (end, more) := Place(d, o);
    PlaceKeepsAgreement(d, o);
    PlaceKeepsRows(d, o);
    NewTradesFit(d, o);
    KeptTradesFit(d.rows, end.rows, trades);
    PlaceKeepsAccounts(d, o, trades);
  }

  lemma {:induction false} PlaceLinks(d: Desk, creates: seq<Create>, i: nat, rows: seq<Row>)
    requires DeskOk(d) && OrdersLinked(d.rows, creates) && CreatesOk(rows, creates)
    requires i < |creates| && creates[i].phase == LOCKED && Fresh(creates[i].Request())
    ensures OrdersLinked(Place(d, creates[i].Request()).0.rows, creates[i := creates[i].(phase := STORED)])
  {
    var o, n := creates[i].Request(), |d.rows|;
    var after, more := Place(d, o).0.rows, creates[i := creates[i].(phase := STORED)];
    PlaceKeepsRows(d, o);
    PlaceWritesTaker(d, o);
    forall id | 0 <= id < |after|
      ensures HasCreate(more, after[id])
      ensures id < n ==> after[id].key != o.key
    {
      if id < n {
        assert HasCreate(creates, d.rows[id]);
        var j :| 0 <= j < |creates| && Stored(creates[j], d.rows[id]);
        assert Stored(more[j], after[id]);
      } else {
        assert Stored(more[i], after[n]);
      }
    }
  }

  lemma {:induction false} KeptCancelsOk(before: seq<Order>, after: seq<Order>, cancels: seq<Cancel>)
    requires CancelsOk(before, cancels) && CancelledKept(before, after)
    ensures CancelsOk(after, cancels)
  {
    forall j | 0 <= j < |cancels| ensures CancelOk(after, cancels[j]) {
      assert CancelOk(before, cancels[j]);
    }
  }

  /** The stored order is backed by its lock, and the match releases what its trades will take. */
  lemma {:induction false} PlaceKeepsDust(d: Desk, creates: seq<Create>, i: nat, trades: seq<Trade>,
                                          cancels: seq<Cancel>, a: Account)
    requires DeskOk(d) && 0 <= Dust(creates, d.rows, trades, cancels, a) <= 2 * Sum(trades, BuysOn(a))
    requires i < |creates| && creates[i].phase == LOCKED && Fresh(creates[i].Request())
    ensures var (end, more) := Place(d, creates[i].Request());
            var dust := Dust(creates[i := creates[i].(phase := STORED)], end.rows, trades + more, cancels, a);
            Dust(creates, d.rows, trades, cancels, a) <= dust <= 2 * Sum(trades + more, BuysOn(a))
  {
    hide Place, DeskOk;
    var c := creates[i];
    var o := c.Request();
    var (end, more) := Place(d, o);
    PlaceReleases(d, o, a);
    SumUpdate(creates, i, c.(phase := STORED), Backing(a));
    SumConcat(trades, more, TradeDeduction(a));
    SumConcat(trades, more, BuysOn(a));
    BackingIsReservation(c, a);
  }

  lemma {:induction false} BackingIsReservation(c: Create, a: Account)
    requires c.phase == LOCKED
    ensures Reserved(a)(c.Request()) == Backing(a)(c.(phase := STORED)) - Backing(a)(c)
  {
  }

  lemma {:induction false} PlaceKeepsCover(d: Desk, creates: seq<Create>, i: nat, trades: seq<Trade>,
                                           cancels: seq<Cancel>)
    requires DeskOk(d) && CoveredOk(creates, d.rows, trades, cancels)
    requires i < |creates| && creates[i].phase == LOCKED && Fresh(creates[i].Request())
    ensures var (end, more) := Place(d, creates[i].Request());
            CoveredOk(creates[i := creates[i].(phase := STORED)], end.rows, trades + more, cancels)
  {
    hide Place, DeskOk;
    var (end, more) := Place(d, creates[i].Request());
    var stored := creates[i := creates[i].(phase := STORED)];
    forall a: Account ensures 0 <= Dust(stored, end.rows, trades + more, cancels, a) <= 2 * Sum(trades + more, BuysOn(a))
    {
      PlaceKeepsDust(d, creates, i, trades, cancels, a);
    }
  }

  /** New trades are not settled yet, so the locked balance is still accounted for. */
  lemma {:induction false} MoreTradesKeepLocked(s: State, more: seq<Trade>)
    requires LockedOk(s.books, s.creates, s.cancels, s.trades, s.processed, s.withdrawals)
    requires forall id :: id in s.processed ==> id < |s.trades|
    ensures LockedOk(s.books, s.creates, s.cancels, s.trades + more, s.processed, s.withdrawals)
  {
    forall a: Account
      ensures SumMarked(s.trades + more, s.processed, TradeDeduction(a))
           == SumMarked(s.trades, s.processed, TradeDeduction(a))
    {
      SumMarkedConcat(s.trades, more, s.processed, TradeDeduction(a));
    }
  }

  lemma {:induction false} ProcessedExist(c: Channel, count: nat, processed: set<nat>)
    requires ChannelOk(c, count, processed)
    ensures forall id :: id in processed ==> id < count
  {
    forall id | id in processed ensures id < count {
      assert id in c.log;
    }
  }

  /** The trades of a new order have no rows yet. */
  lemma {:induction false} MoreTradesEntered(rows: seq<Row>, trades: seq<Trade>, processed: set<nat>, more: seq<Trade>)
    requires TradesEntered(rows, trades, processed) && forall id :: id in processed ==> id < |trades|
    ensures TradesEntered(rows, trades + more, processed)
  {
  }

  lemma {:induction false} RequestIsFresh(rows: seq<Row>, creates: seq<Create>, i: nat)
    requires CreatesOk(rows, creates) && i < |creates|
    ensures Fresh(creates[i].Request())
  {
    assert CreateOk(rows, creates[i]);
  }

  lemma {:induction false} DeskOf(d: Desk, trades: seq<Trade>)
    requires MarketOk(d, trades)
    ensures DeskOk(d)
  {
  }

  lemma {:induction false} CommitKeeps(s: State, create: nat)
    requires Inv(s)
    ensures Inv(StepCommit(s, create))
  {
    hide LedgerOk, MarketOk, ChannelOk, FourRowsEach, TradesEntered, CreatesOk, OrdersLinked, CancelsOk, CancelsEntered,
         WithdrawalsOk, LockedOk, CoveredOk, DeskOk, Place, Fresh;
    if create < |s.creates| && s.creates[create].phase == LOCKED {
      var c := s.creates[create];
      var o := c.Request();
      var (desk, more) := Place(s.desk, o);
      var creates := s.creates[create := c.(phase := STORED)];
      RequestIsFresh(s.books.rows, s.creates, create);
      DeskOf(s.desk, s.trades);
      PlaceKeepsMarket(s.desk, o, s.trades);
      EnqueueKeepsChannel(s.channel, |s.trades|, s.processed + s.deadLettered, |more|);
      AbortedCreateOk(s.books.rows, s.creates, create, c.(phase := STORED));
      PlaceLinks(s.desk, s.creates, create, s.books.rows);
      PlaceKeepsCancelled(s.desk, o);
      KeptCancelsOk(s.desk.rows, desk.rows, s.cancels);
      PlaceKeepsCover(s.desk, s.creates, create, s.trades, s.cancels);
      ProcessedExist(s.channel, |s.trades|, s.processed + s.deadLettered);
      MoreTradesKeepLocked(s, more);
      MoreTradesEntered(s.books.rows, s.trades, s.processed, more);
      SameHeldKeepsLocked(s.(trades := s.trades + more), create, c.(phase := STORED));
    }
  }

  // ---------------------------------------------------------------------------------------------------------
  // cancelOrder
  // ---------------------------------------------------------------------------------------------------------

  function Cancelled(orders: seq<Order>, id: OrderId): seq<Order>
    requires id < |orders|
  {
    orders[id := orders[id].(status := CANCELLED)]
  }

  lemma {:induction false} CancelKeepsMarket(d: Desk, id: OrderId, trades: seq<Trade>)
    requires MarketOk(d, trades) && Listed(d.rows, |d.rows|, id)
    ensures MarketOk(CancelOn(d, id, true), trades)
  {
    CancelKeepsAgreementIff(d, id, true);
    var after := Cancelled(d.rows, id);
    KeptTradesFit(d.rows, after, trades);
    forall k: OrderId | k < |after| ensures OrderAccounted(after[k], k, trades) {
      assert OrderAccounted(d.rows[k], k, trades);
    }
  }

  lemma {:induction false} CancelKeepsLinks(orders: seq<Order>, id: OrderId, creates: seq<Create>)
    requires OrdersLinked(orders, creates) && id < |orders|
    ensures OrdersLinked(Cancelled(orders, id), creates)
  {
    forall k | 0 <= k < |orders| ensures HasCreate(creates, Cancelled(orders, id)[k]) {
      assert HasCreate(creates, orders[k]);
      var i :| 0 <= i < |creates| && Stored(creates[i], orders[k]);
      assert Stored(creates[i], Cancelled(orders, id)[k]);
    }
  }

  lemma {:induction false} NewCancelOk(orders: seq<Order>, id: OrderId, cancels: seq<Cancel>, c: Cancel)
    requires CancelsOk(orders, cancels) && id < |orders| && orders[id].Active()
    requires c.order == id && c.account == orders[id].Funding() && !c.applied
    requires c.amount == LockAmount(orders[id].side, orders[id].price, orders[id].remaining)
    ensures CancelsOk(Cancelled(orders, id), cancels + [c])
  {
    var after, more := Cancelled(orders, id), cancels + [c];
    forall j | 0 <= j < |more| ensures CancelOk(after, more[j]) && (j < |cancels| ==> more[j].order != id) {
      if j < |cancels| {
        assert CancelOk(orders, cancels[j]);
      }
    }
    forall k | 0 <= k < |after| && after[k].status == CANCELLED ensures HasCancel(more, k) {
      if k == id {
        assert more[|cancels|].order == k;
      } else {
        assert HasCancel(cancels, k);
        var j :| 0 <= j < |cancels| && cancels[j].order == k;
        assert more[j].order == k;
      }
    }
  }

  /** The cancelled rest moves from the order's reservation to the cancel. */
  lemma {:induction false} CancelKeepsCover(creates: seq<Create>, orders: seq<Order>, trades: seq<Trade>,
                                            cancels: seq<Cancel>, id: OrderId, c: Cancel)
    requires CoveredOk(creates, orders, trades, cancels) && id < |orders| && orders[id].Active()
    requires c.account == orders[id].Funding()
    requires c.amount == LockAmount(orders[id].side, orders[id].price, orders[id].remaining)
    ensures CoveredOk(creates, Cancelled(orders, id), trades, cancels + [c])
  {
    forall a: Account
      ensures 0 <= Dust(creates, Cancelled(orders, id), trades, cancels + [c], a) <= 2 * Sum(trades, BuysOn(a))
    {
      SumUpdate(orders, id, orders[id].(status := CANCELLED), Reserved(a));
      SumAppend(cancels, c, Freed(a));
      assert Dust(creates, Cancelled(orders, id), trades, cancels + [c], a) == Dust(creates, orders, trades, cancels, a);
    }
  }

  lemma {:induction false} CancelKeepsLocked(s: State, c: Cancel)
    requires LockedOk(s.books, s.creates, s.cancels, s.trades, s.processed, s.withdrawals) && !c.applied
    ensures LockedOk(s.books, s.creates, s.cancels + [c], s.trades, s.processed, s.withdrawals)
  {
    forall a: Account ensures Sum(s.cancels + [c], Unlocked(a)) == Sum(s.cancels, Unlocked(a)) {
      SumAppend(s.cancels, c, Unlocked(a));
    }
  }

  lemma {:induction false} CancelOrderKeeps(s: State, order: OrderId, user: UserId, key: string)
    requires Inv(s)
    ensures Inv(StepCancelOrder(s, order, user, key))
  {
    hide LedgerOk, MarketOk, ChannelOk, FourRowsEach, TradesEntered, CreatesOk, OrdersLinked, CancelsOk, CancelsEntered,
         WithdrawalsOk, LockedOk, CoveredOk;
    if order < |s.desk.rows| && s.desk.rows[order].user == user && s.desk.rows[order].Active() {
      var o := s.desk.rows[order];
      var c := Cancel(order, o.Funding(), LockAmount(o.side, o.price, o.remaining), key, false, false, false);
      CancelKeepsMarket(s.desk, order, s.trades);
      CancelKeepsLinks(s.desk.rows, order, s.creates);
      NewCancelOk(s.desk.rows, order, s.cancels, c);
      CancelKeepsCover(s.creates, s.desk.rows, s.trades, s.cancels, order, c);
      CancelKeepsLocked(s, c);
      NewCancelEntered(s.books.rows, s.cancels, c);
    }
  }

  lemma {:induction false} NewCancelEntered(rows: seq<Row>, cancels: seq<Cancel>, c: Cancel)
    requires CancelsEntered(rows, cancels) && !c.applied
    ensures CancelsEntered(rows, cancels + [c])
  {
    forall id: OrderId ensures Sum(cancels + [c], UnlockedFor(id)) == Sum(cancels, UnlockedFor(id)) {
      SumAppend(cancels, c, UnlockedFor(id));
    }
  }

  lemma {:induction false} AttemptedCancelOk(orders: seq<Order>, cancels: seq<Cancel>, j: nat, c: Cancel)
    requires CancelsOk(orders, cancels) && j < |cancels|
    requires c == cancels[j].(attempted := true, lost := c.lost, applied := c.applied)
    ensures CancelsOk(orders, cancels[j := c])
  {
    var after := cancels[j := c];
    forall k | 0 <= k < |after| ensures CancelOk(orders, after[k]) {
      assert CancelOk(orders, cancels[k]);
    }
    forall id | 0 <= id < |orders| && orders[id].status == CANCELLED ensures HasCancel(after, id) {
      assert HasCancel(cancels, id);
      var k :| 0 <= k < |cancels| && cancels[k].order == id;
      assert after[k].order == id;
    }
  }

  lemma {:induction false} AttemptedCancelKeepsCover(creates: seq<Create>, orders: seq<Order>, trades: seq<Trade>,
                                                     cancels: seq<Cancel>, j: nat, c: Cancel)
    requires CoveredOk(creates, orders, trades, cancels) && j < |cancels|
    requires c.account == cancels[j].account && c.amount == cancels[j].amount
    ensures CoveredOk(creates, orders, trades, cancels[j := c])
  {
    var after := cancels[j := c];
    forall a: Account ensures 0 <= Dust(creates, orders, trades, after, a) <= 2 * Sum(trades, BuysOn(a)) {
      SumUpdate(cancels, j, c, Freed(a));
      assert Dust(creates, orders, trades, after, a) == Dust(creates, orders, trades, cancels, a);
    }
  }

  lemma {:induction false} UnlockFollowsCall(s: State, j: nat, reaches: bool)
    requires LockedOk(s.books, s.creates, s.cancels, s.trades, s.processed, s.withdrawals)
    requires j < |s.cancels| && !s.cancels[j].applied
    ensures var r := Call(s.books, CancelRequest(s.cancels[j]), reaches);
            var c := s.cancels[j].(attempted := true, lost := !reaches, applied := r.applied);
            LockedOk(r.books, s.creates, s.cancels[j := c], s.trades, s.processed, s.withdrawals)
  {
    var r := Call(s.books, CancelRequest(s.cancels[j]), reaches);
    var c := s.cancels[j].(attempted := true, lost := !reaches, applied := r.applied);
    var after := s.cancels[j := c];
    forall a: Account
      ensures BalanceOf(r.books, a).locked
           == Sum(s.creates, Held(a)) - Sum(after, Unlocked(a))
              - SumMarked(s.trades, s.processed, TradeDeduction(a)) + Sum(s.withdrawals, NetOf(a))
    {
      CallMovesLocked(s.books, CancelRequest(s.cancels[j]), reaches, a);
      SumUpdate(s.cancels, j, c, Unlocked(a));
    }
  }

  /** The unlock writes the cancel's own entry, the only one that refers to its order. */
  lemma {:induction false} UnlockedCancelEntered(b: Books, cancels: seq<Cancel>, j: nat, reaches: bool)
    requires CancelsEntered(b.rows, cancels) && j < |cancels| && !cancels[j].applied
    ensures var r := Call(b, CancelRequest(cancels[j]), reaches);
            CancelsEntered(r.books.rows,
                           cancels[j := cancels[j].(attempted := true, lost := !reaches, applied := r.applied)])
  {
    var m := CancelRequest(cancels[j]);
    var r := Call(b, m, reaches);
    var c := cancels[j].(attempted := true, lost := !reaches, applied := r.applied);
    var after := cancels[j := c];
    CallPosts(b, m, reaches);
    forall k | 0 <= k < |after| && after[k].applied
      ensures Entered(r.books.rows, CancelKey(after[k].key), UNLOCK, after[k].account, after[k].amount)
    {
      if k != j {
        CallKeepsEntry(b, m, reaches, CancelKey(after[k].key), UNLOCK, after[k].account, after[k].amount);
      }
    }
    forall id: OrderId ensures Sum(r.books.rows, LockedByOrder(id)) == 0 - Sum(after, UnlockedFor(id)) {
      CallMovesOrder(b, m, reaches, id);
      SumUpdate(cancels, j, c, UnlockedFor(id));
    }
  }

  lemma {:induction false} CancelAt(orders: seq<Order>, cancels: seq<Cancel>, j: nat)
    requires CancelsOk(orders, cancels) && j < |cancels|
    ensures CancelOk(orders, cancels[j])
  {
  }

  lemma {:induction false} UnlockCancelledKeeps(s: State, cancel: nat, reaches: bool)
    requires Inv(s)
    ensures Inv(StepUnlockCancelled(s, cancel, reaches))
  {
    hide LedgerOk, MarketOk, ChannelOk, FourRowsEach, TradesEntered, CreatesOk, OrdersLinked, CancelsOk, CancelsEntered,
         WithdrawalsOk, LockedOk, CoveredOk;
    if cancel < |s.cancels| && !s.cancels[cancel].attempted && s.cancels[cancel].amount > 0 {
      var c := s.cancels[cancel];
      var m := CancelRequest(c);
      var r := Call(s.books, m, reaches);
      var d := c.(attempted := true, lost := !reaches, applied := r.applied);
      CancelAt(s.desk.rows, s.cancels, cancel);
      forall key: string
        ensures m.key != UnlockKey(key) && m.key != CompensateKey(key) && m.key != WithdrawUnlockKey(key)
      {
        KeysApart(c.key, key);
        KeysApart(key, c.key);
      }
      CallKeepsLedger(s.books, m, reaches);
      CallKeepsFourRows(s.books, m, reaches, s.processed);
      CallKeepsTrades(s.books, m, reaches, s.trades, s.processed);
      UnlockedCancelEntered(s.books, s.cancels, cancel, reaches);
      CallKeepsCreates(s.books, m, reaches, s.creates);
      CallKeepsWithdrawals(s.books, m, reaches, s.withdrawals);
      AttemptedCancelOk(s.desk.rows, s.cancels, cancel, d);
      AttemptedCancelKeepsCover(s.creates, s.desk.rows, s.trades, s.cancels, cancel, d);
      UnlockFollowsCall(s, cancel, reaches);
    }
  }

  // ---------------------------------------------------------------------------------------------------------
  // Rehydration, relay and settlement
  // ---------------------------------------------------------------------------------------------------------

  lemma {:induction false} RehydrateKeeps(s: State)
    requires Inv(s)
    ensures StepRehydrate(s) == s
  {
    hide LedgerOk, ChannelOk, FourRowsEach, TradesEntered, CreatesOk, OrdersLinked, CancelsOk, CancelsEntered,
         WithdrawalsOk, LockedOk, CoveredOk;
    RehydrationIsIdempotent(s.desk.rows, s.desk.book);
  }

  lemma {:induction false} ChannelStepKeeps(s: State, c: Channel)
    requires Inv(s) && ChannelOk(c, |s.trades|, s.processed + s.deadLettered)
    ensures Inv(s.(channel := c))
  {
    hide LedgerOk, MarketOk, ChannelOk, FourRowsEach, TradesEntered, CreatesOk, OrdersLinked, CancelsOk, CancelsEntered,
         WithdrawalsOk, LockedOk, CoveredOk;
  }

  lemma {:induction false} OffsetKeepsChannel(c: Channel, count: nat, processed: set<nat>)
    requires ChannelOk(c, count, processed)
    ensures ChannelOk(CommitOffset(c), count, processed) && ChannelOk(Restart(c), count, processed)
  {
  }

  lemma {:induction false} HandleFollowsLocked(s: State, id: nat, aborts: bool)
    requires LockedOk(s.books, s.creates, s.cancels, s.trades, s.processed, s.withdrawals)
    requires id < |s.trades| && s.trades[id].buyer != s.trades[id].seller
    ensures var r := Handle(s.books, s.processed, s.trades[id], id, aborts);
            LockedOk(r.books, s.creates, s.cancels, s.trades, r.processed, s.withdrawals)
  {
    var t := s.trades[id];
    var r := Handle(s.books, s.processed, t, id, aborts);
    forall a: Account
      ensures BalanceOf(r.books, a).locked
           == Sum(s.creates, Held(a)) - Sum(s.cancels, Unlocked(a))
              - SumMarked(s.trades, r.processed, TradeDeduction(a)) + Sum(s.withdrawals, NetOf(a))
    {
      WithAccountsBalances(s.books, t, a);
      HandleBalances(s.books, s.processed, t, id, a);
      if id !in s.processed {
        SumMarkedAdd(s.trades, s.processed, id, TradeDeduction(a));
      }
    }
  }

  lemma {:induction false} TradeAt(d: Desk, trades: seq<Trade>, id: nat)
    requires MarketOk(d, trades) && id < |trades|
    ensures trades[id].buyer != trades[id].seller
  {
    assert TradeFits(d.rows, trades[id]);
  }

  /** A handled message is settled, a dead-lettered one resolved; any other stays where it is. */
  lemma {:induction false} DeliveredKeepsChannel(s: State, attempt: Attempt)
    requires ChannelOk(s.channel, |s.trades|, s.processed + s.deadLettered)
    requires forall id :: 0 <= id < |s.trades| ==> s.trades[id].buyer != s.trades[id].seller
    ensures var t := StepDeliver(s, attempt); ChannelOk(t.channel, |t.trades|, t.processed + t.deadLettered)
  {
    if s.channel.cursor < |s.channel.log| && s.channel.log[s.channel.cursor] < |s.trades| {
      hide Settle, WithAccounts;
      var id, t := s.channel.log[s.channel.cursor], StepDeliver(s, attempt);
      DeliverKeepsChannel(s.channel, |s.trades|, s.processed + s.deadLettered);
      if t.channel != s.channel {
        assert t.processed + t.deadLettered == s.processed + s.deadLettered + {id};
      }
    }
  }

  lemma {:induction false} DeliverKeeps(s: State, attempt: Attempt)
    requires Inv(s)
    ensures Inv(StepDeliver(s, attempt))
  {
    hide LedgerOk, MarketOk, ChannelOk, FourRowsEach, TradesEntered, CreatesOk, OrdersLinked, CancelsOk, CancelsEntered,
         WithdrawalsOk, LockedOk, CoveredOk, Settle, WithAccounts;
    if s.channel.cursor < |s.channel.log| && s.channel.log[s.channel.cursor] < |s.trades| {
      var id, aborts := s.channel.log[s.channel.cursor], !attempt.Succeeds?;
      var r := Handle(s.books, s.processed, s.trades[id], id, aborts);
      forall k | 0 <= k < |s.trades| ensures s.trades[k].buyer != s.trades[k].seller {
        TradeAt(s.desk, s.trades, k);
      }
      HandleKeepsLedger(s.books, s.processed, s.trades[id], id, aborts);
      HandleKeepsFourRows(s.books, s.processed, s.trades[id], id, aborts);
      HandleKeepsTrades(s.books, s.processed, s.trades, id, aborts);
      HandleKeepsCancels(s.books, s.processed, s.trades[id], id, aborts, s.cancels);
      HandleFollowsLocked(s, id, aborts);
      DeliveredKeepsChannel(s, attempt);
      forall key: string ensures FindKey(r.books.rows, key) == FindKey(s.books.rows, key) {
        HandleFinds(s.books, s.processed, s.trades[id], id, aborts, key);
      }
      SameFindsKeepCreates(s.books.rows, r.books.rows, s.creates);
      SameFindsKeepWithdrawals(s.books.rows, r.books.rows, s.withdrawals);
    }
  }

  // ---------------------------------------------------------------------------------------------------------
  // Withdrawals
  // ---------------------------------------------------------------------------------------------------------

  lemma {:induction false} MoreOwners(rows: seq<Row>, withdrawals: seq<W.Withdrawal>, w: W.Withdrawal)
    requires SagaEntriesOwned(rows, withdrawals)
    ensures SagaEntriesOwned(rows, withdrawals + [w])
  {
    forall key: string | SagaKeyUsed(withdrawals, key) ensures SagaKeyUsed(withdrawals + [w], key) {
      var i :| 0 <= i < |withdrawals| && withdrawals[i].terms.key == key;
      assert (withdrawals + [w])[i].terms.key == key;
    }
    forall id: string | SagaIdUsed(withdrawals, id) ensures SagaIdUsed(withdrawals + [w], id) {
      var i :| 0 <= i < |withdrawals| && withdrawals[i].terms.id == id;
      assert (withdrawals + [w])[i].terms.id == id;
    }
  }

  /** Under an unused key and id the ledger holds nothing of a withdrawal. */
  lemma {:induction false} FreshWithdrawalOk(rows: seq<Row>, withdrawals: seq<W.Withdrawal>, t: W.Terms)
    requires SagaEntriesOwned(rows, withdrawals) && !SagaKeyUsed(withdrawals, t.key) && !SagaIdUsed(withdrawals, t.id)
    ensures WithdrawalOk(rows, W.Requested(t))
  {
    W.InitialIsSound(W.Requested(t));
    assert !Recorded(rows, WithdrawLockKey(t.key), LOCK) && !Recorded(rows, CompensateKey(t.key), UNLOCK);
    assert !Recorded(rows, WithdrawUnlockKey(t.key), UNLOCK) && !Recorded(rows, DebitKey(t.id), WITHDRAWAL);
  }

  lemma {:induction false} NewWithdrawalOk(rows: seq<Row>, withdrawals: seq<W.Withdrawal>, w: W.Withdrawal)
    requires WithdrawalsOk(rows, withdrawals) && WithdrawalOk(rows, w)
    requires !SagaKeyUsed(withdrawals, w.terms.key) && !SagaIdUsed(withdrawals, w.terms.id)
    ensures WithdrawalsOk(rows, withdrawals + [w])
  {
    hide WithdrawalOk, SagaEntriesOwned;
    var more := withdrawals + [w];
    MoreOwners(rows, withdrawals, w);
    forall i | 0 <= i < |withdrawals|
      ensures withdrawals[i].terms.key != w.terms.key && withdrawals[i].terms.id != w.terms.id
      ensures more[i] == withdrawals[i]
    {
    }
    assert more[|withdrawals|] == w;
  }

  lemma {:induction false} FirstRequestKeeps(s: State, terms: W.Terms)
    requires Inv(s)
    ensures Inv(StepFirstRequest(s, terms))
  {
    hide LedgerOk, MarketOk, ChannelOk, FourRowsEach, TradesEntered, CreatesOk, OrdersLinked, CancelsOk, CancelsEntered,
         WithdrawalOk, SagaEntriesOwned, CoveredOk;
    if !SagaKeyUsed(s.withdrawals, terms.key) && !SagaIdUsed(s.withdrawals, terms.id) {
      var w := W.Requested(terms);
      FreshWithdrawalOk(s.books.rows, s.withdrawals, terms);
      NewWithdrawalOk(s.books.rows, s.withdrawals, w);
      forall a: Account ensures Sum(s.withdrawals + [w], NetOf(a)) == Sum(s.withdrawals, NetOf(a)) {
        SumAppend(s.withdrawals, w, NetOf(a));
      }
    }
  }

  /** An event has a ledger effect on the saga exactly when its call was applied. */
  lemma {:induction false} CallIsEffect(env: W.Environment, b: Books, w: W.Withdrawal, e: W.Event, reaches: bool)
    ensures var m := LedgerCall(w, e);
            var r := CallIfAny(b, m, reaches);
            var c := W.Step(env, w, Answered(e, m, r));
            && c.terms == w.terms && (r.applied ==> m.Some? && OwnCall(m.value, w.terms))
            && (c.locked <==> w.locked || (r.applied && m.value == WithdrawLockRequest(w.terms)))
            && (c.compensated <==> w.compensated || (r.applied && m.value == CompensateRequest(w.terms)))
            && (c.unlocked <==> w.unlocked || (r.applied && m.value == WithdrawUnlockRequest(w.terms)))
            && (c.debited <==> w.debited || (r.applied && m.value == DebitRequest(w.terms)))
  {
    hide W.Step, Call;
    SagaKeysApart(w.terms.key, w.terms.key);
    W.StepEffects(env, w, Answered(e, LedgerCall(w, e), CallIfAny(b, LedgerCall(w, e), reaches)));
  }

  /** A flag that is set exactly when the call with its key is applied stays what the ledger holds. */
  lemma {:induction false} SteppedFlag(b: Books, m: Mutation, reaches: bool, t: W.Terms, before: bool, after: bool,
                                       own: Mutation)
    requires FlagOk(b.rows, before, own.key, own.kind, t) && own.account == t.account && own.amount == t.amount
    requires after <==> before || (Call(b, m, reaches).applied && m == own)
    requires m.kind == own.kind && m.key == own.key ==> m == own
    ensures FlagOk(Call(b, m, reaches).books.rows, after, own.key, own.kind, t)
    ensures Call(b, m, reaches).applied && m == own ==> !before && after
  {
    CallRecords(b, m, reaches, own.key, own.kind);
    CallFinds(b, m, reaches, own.key);
    CallPosts(b, m, reaches);
  }

  /** What an applied call of the saga moves on its account's locked balance. */
  function SagaDelta(m: Option<Mutation>, r: Reply): int
  {
    if r.applied && m.Some? then LockedDelta(m.value.kind, m.value.amount) else 0
  }

  /** The step keeps the withdrawal's entries in line with its flags, and what it leaves locked follows the ledger. */
  lemma {:induction false} SteppedWithdrawalOk(env: W.Environment, b: Books, w: W.Withdrawal, e: W.Event, reaches: bool)
    requires WithdrawalOk(b.rows, w)
    ensures var m := LedgerCall(w, e);
            var r := CallIfAny(b, m, reaches);
            var c := W.Step(env, w, Answered(e, m, r));
            && WithdrawalOk(r.books.rows, c) && c.terms == w.terms && W.Net(c) == W.Net(w) + SagaDelta(m, r)
  {
    hide W.Step, W.Sound, FlagOk, Call, LedgerCall;
    var m, t := LedgerCall(w, e), w.terms;
    var r := CallIfAny(b, m, reaches);
    var c := W.Step(env, w, Answered(e, m, r));
    CallIsEffect(env, b, w, e, reaches);
    W.StepKeepsSound(env, w, Answered(e, m, r));
    if m.Some? {
      LedgerCallIsOwn(w, e);
      SagaKeysApart(t.key, t.key);
      SteppedFlag(b, m.value, reaches, t, w.locked, c.locked, WithdrawLockRequest(t));
      SteppedFlag(b, m.value, reaches, t, w.compensated, c.compensated, CompensateRequest(t));
      SteppedFlag(b, m.value, reaches, t, w.unlocked, c.unlocked, WithdrawUnlockRequest(t));
      SteppedFlag(b, m.value, reaches, t, w.debited, c.debited, DebitRequest(t));
    }
  }

  lemma {:induction false} LedgerCallIsOwn(w: W.Withdrawal, e: W.Event)
    requires LedgerCall(w, e).Some?
    ensures OwnCall(LedgerCall(w, e).value, w.terms)
  {
  }

  lemma {:induction false} OwnCallIsForeign(m: Mutation, t: W.Terms)
    requires OwnCall(m, t)
    ensures Foreign(m) && m.reference.Named? && m.account == t.account
  {
    forall key: string
      ensures WithdrawLockKey(t.key) != LockKey(key)
      ensures CompensateKey(t.key) != UnlockKey(key) && WithdrawUnlockKey(t.key) != UnlockKey(key)
    {
      KeysApart(t.key, key);
    }
  }

  lemma {:induction false} ReplacedOwners(rows: seq<Row>, withdrawals: seq<W.Withdrawal>, i: nat, w: W.Withdrawal)
    requires SagaEntriesOwned(rows, withdrawals) && i < |withdrawals| && w.terms == withdrawals[i].terms
    ensures SagaEntriesOwned(rows, withdrawals[i := w])
  {
    var after := withdrawals[i := w];
    forall key: string | SagaKeyUsed(withdrawals, key) ensures SagaKeyUsed(after, key) {
      var j :| 0 <= j < |withdrawals| && withdrawals[j].terms.key == key;
      assert after[j].terms.key == key;
    }
    forall id: string | SagaIdUsed(withdrawals, id) ensures SagaIdUsed(after, id) {
      var j :| 0 <= j < |withdrawals| && withdrawals[j].terms.id == id;
      assert after[j].terms.id == id;
    }
  }

  /** One saga moves, with or without a ledger call; the other withdrawals' entries are not touched. */
  lemma {:induction false} ReplacedWithdrawalOk(b: Books, withdrawals: seq<W.Withdrawal>, i: nat, m: Option<Mutation>,
                                                reaches: bool, w: W.Withdrawal)
    requires WithdrawalsOk(b.rows, withdrawals) && i < |withdrawals| && w.terms == withdrawals[i].terms
    requires m.Some? ==> OwnCall(m.value, w.terms)
    requires WithdrawalOk(CallIfAny(b, m, reaches).books.rows, w)
    ensures WithdrawalsOk(CallIfAny(b, m, reaches).books.rows, withdrawals[i := w])
  {
    hide WithdrawalOk, SagaEntriesOwned, Call, OwnCall;
    var rows := CallIfAny(b, m, reaches).books.rows;
    if m.Some? {
      OwnCallKeepsOwners(b, m.value, reaches, withdrawals, i);
    }
    ReplacedOwners(rows, withdrawals, i, w);
    forall j | 0 <= j < |withdrawals| && j != i ensures WithdrawalOk(rows, withdrawals[j]) {
      if m.Some? {
        OwnCallKeepsOthers(b, m.value, reaches, w.terms, withdrawals[j]);
      }
    }
  }

  lemma {:induction false} WithdrawalAt(rows: seq<Row>, withdrawals: seq<W.Withdrawal>, i: nat)
    requires WithdrawalsOk(rows, withdrawals) && i < |withdrawals|
    ensures WithdrawalOk(rows, withdrawals[i])
  {
  }

  /** A withdrawal's flags say what the ledger holds of it. */
  lemma {:induction false} FlagsAreEntries(s: State, i: nat)
    requires Inv(s) && i < |s.withdrawals|
    ensures var w, rows := s.withdrawals[i], s.books.rows;
            && W.Sound(w) && FlagOk(rows, w.locked, WithdrawLockKey(w.terms.key), LOCK, w.terms)
            && FlagOk(rows, w.compensated, CompensateKey(w.terms.key), UNLOCK, w.terms)
            && FlagOk(rows, w.unlocked, WithdrawUnlockKey(w.terms.key), UNLOCK, w.terms)
            && FlagOk(rows, w.debited, DebitKey(w.terms.id), WITHDRAWAL, w.terms)
  {
    hide LedgerOk, MarketOk, ChannelOk, FourRowsEach, TradesEntered, CreatesOk, OrdersLinked, CancelsOk, CancelsEntered,
         LockedOk, CoveredOk, W.Sound, FlagOk, SagaEntriesOwned;
    assert WithdrawalOk(s.books.rows, s.withdrawals[i]);
  }

  /** The locked balance moves by what the withdrawal leaves locked more or less. */
  lemma {:induction false} NetFollowsCall(s: State, i: nat, m: Option<Mutation>, reaches: bool, w: W.Withdrawal)
    requires LockedOk(s.books, s.creates, s.cancels, s.trades, s.processed, s.withdrawals) && i < |s.withdrawals|
    requires w.terms == s.withdrawals[i].terms && (m.Some? ==> m.value.account == w.terms.account)
    requires W.Net(w) == W.Net(s.withdrawals[i]) + SagaDelta(m, CallIfAny(s.books, m, reaches))
    ensures LockedOk(CallIfAny(s.books, m, reaches).books, s.creates, s.cancels, s.trades, s.processed,
                     s.withdrawals[i := w])
  {
    hide W.Net;
    var b, after := CallIfAny(s.books, m, reaches).books, s.withdrawals[i := w];
    forall a: Account
      ensures BalanceOf(b, a).locked
           == Sum(s.creates, Held(a)) - Sum(s.cancels, Unlocked(a))
              - SumMarked(s.trades, s.processed, TradeDeduction(a)) + Sum(after, NetOf(a))
    {
      if m.Some? {
        CallMovesLocked(s.books, m.value, reaches, a);
      }
      SumUpdate(s.withdrawals, i, w, NetOf(a));
    }
  }

  /** In any environment, a saga's step keeps the invariant: the ledger grants what its own guards allow. */
  lemma {:induction false} WithdrawKeeps(env: W.Environment, s: State, i: nat, e: W.Event, reaches: bool)
    requires Inv(s)
    ensures Inv(StepSaga(env, s, i, e, reaches))
  {
    hide LedgerOk, MarketOk, ChannelOk, FourRowsEach, TradesEntered, CreatesOk, OrdersLinked, CancelsOk, CancelsEntered,
         WithdrawalsOk, LockedOk, CoveredOk, WithdrawalOk, W.Step, W.Net, Foreign, OwnCall, LedgerCall, Call;
    if i < |s.withdrawals| {
      var w := s.withdrawals[i];
      var m := LedgerCall(w, e);
      var r := CallIfAny(s.books, m, reaches);
      var c := W.Step(env, w, Answered(e, m, r));
      WithdrawalAt(s.books.rows, s.withdrawals, i);
      SteppedWithdrawalOk(env, s.books, w, e, reaches);
      if m.Some? {
        LedgerCallIsOwn(w, e);
        OwnCallIsForeign(m.value, w.terms);
        OtherCallKeeps(s, m.value, reaches);
        CallKeepsCreates(s.books, m.value, reaches, s.creates);
      }
      ReplacedWithdrawalOk(s.books, s.withdrawals, i, m, reaches, c);
      NetFollowsCall(s, i, m, reaches, c);
    }
  }

  // ---------------------------------------------------------------------------------------------------------
  // Every step, every run
  // ---------------------------------------------------------------------------------------------------------

  lemma {:induction false} StepKeeps(env: W.Environment, s: State, e: Event)
    requires Inv(s)
    ensures Inv(Step(env, s, e))
  {
    hide Inv, ChannelOk;
    match e
    case Deposit(onChain, account, amount, key, reference) => DepositKeeps(s, onChain, account, amount, key, reference);
    case BeginCreate(user, pair, side, price, amount, key) =>
      BeginCreateKeeps(s, user, pair, side, price, amount, key);
    case LockFunds(create, reaches, acknowledged) => LockFundsKeeps(s, create, reaches, acknowledged);
    case Commit(create) => CommitKeeps(s, create);
    case Abort(create) => AbortKeeps(s, create);
    case Compensate(create, reaches) => CompensateKeeps(s, create, reaches);
    case CancelOrder(order, user, key) => CancelOrderKeeps(s, order, user, key);
    case UnlockCancelled(cancel, reaches) => UnlockCancelledKeeps(s, cancel, reaches);
    case Rehydrate => RehydrateKeeps(s);
    case RelayOutbox(batch, sent, marked) =>
      ChannelOf(s);
      RelayKeepsChannel(s.channel, |s.trades|, s.processed + s.deadLettered, batch, sent, marked);
      ChannelStepKeeps(s, Relay(s.channel, batch, sent, marked));
    case Deliver(attempt) => DeliverKeeps(s, attempt);
    case ResolveOffset =>
      ChannelOf(s);
      OffsetKeepsChannel(s.channel, |s.trades|, s.processed + s.deadLettered);
      ChannelStepKeeps(s, CommitOffset(s.channel));
    case RestartConsumer =>
      ChannelOf(s);
      OffsetKeepsChannel(s.channel, |s.trades|, s.processed + s.deadLettered);
      ChannelStepKeeps(s, Restart(s.channel));
    case FirstRequest(terms) => FirstRequestKeeps(s, terms);
    case Withdraw(withdrawal, event, reaches) => WithdrawKeeps(env, s, withdrawal, event, reaches);
  }

  lemma {:induction false} ChannelOf(s: State)
    requires Inv(s)
    ensures ChannelOk(s.channel, |s.trades|, s.processed + s.deadLettered)
  {
  }

  lemma {:induction false} RunKeeps(env: W.Environment, events: seq<Event>)
    ensures Inv(Run(env, events))
  {
    hide Inv, Step;
    if events == [] {
      EmptyIsOk();
    } else {
      RunKeeps(env, events[..|events| - 1]);
      StepKeeps(env, Run(env, events[..|events| - 1]), events[|events| - 1]);
    }
  }
}
