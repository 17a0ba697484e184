/**
 What the exchange guarantees in every state that any run of it can reach, in any environment unless a lemma says which.
 The induction over runs is done in Safety and Solvency, so Dafny is kept from trying its own.
 */
module Guarantees {
  import opened Wrappers
  import opened Domain
  import opened Sums
  import opened Ledger
  import opened Settlement
  import opened OrderBook
  import opened Matching
  import opened Agreement
  import opened Reservations
  import Money
  import opened Delivery
  import opened Exchange
  import opened Calls
  import opened Safety
  import opened Solvency
  import opened Coverage
  import W = Withdrawals

  // ---------------------------------------------------------------------------------------------------------
  // One order's money
  // ---------------------------------------------------------------------------------------------------------

  function FreedFor(id: OrderId): Cancel -> int
  {
    (c: Cancel) => if c.order == id then c.amount else 0
  }

  lemma {:induction false} FreedOnce(orders: seq<Order>, cancels: seq<Cancel>, id: OrderId)
    requires CancelsOk(orders, cancels) && id < |orders|
    ensures Sum(cancels, FreedFor(id))
         == if orders[id].status == CANCELLED
            then LockAmount(orders[id].side, orders[id].price, orders[id].remaining) else 0
  {
    if orders[id].status == CANCELLED {
      assert HasCancel(cancels, id);
      var j :| 0 <= j < |cancels| && cancels[j].order == id;
      assert CancelOk(orders, cancels[j]);
      SumRemoveAt(cancels, j, FreedFor(id));
      SumZero(cancels[..j] + cancels[j + 1..], FreedFor(id));
    } else {
      forall j | 0 <= j < |cancels| ensures FreedFor(id)(cancels[j]) == 0 {
        assert CancelOk(orders, cancels[j]);
      }
      SumZero(cancels, FreedFor(id));
    }
  }

  /** The part of an order's lock that its open remainder still needs. */
  function OpenPart(o: Order): nat
  {
    if o.Active() then LockAmount(o.side, o.price, o.remaining) else 0
  }

  lemma {:induction false} OrderRest(d: Desk, trades: seq<Trade>, cancels: seq<Cancel>, id: OrderId)
    requires MarketOk(d, trades) && CancelsOk(d.rows, cancels) && id < |d.rows|
    ensures var o := d.rows[id];
            var rest := LockAmount(o.side, o.price, o.amount) - OpenPart(o) - Sum(cancels, FreedFor(id));
            && (o.side == BUY ==> 0 <= rest - Sum(trades, PaidBy(id)) <= 2 * Sum(trades, BoughtBy(id)))
            && (o.side == SELL ==> rest == Sum(trades, TradedBy(id)))
  {
    hide CancelsOk;
    FreedOnce(d.rows, cancels, id);
    assert Consistent(d.rows[id]) && OrderAccounted(d.rows[id], id, trades);
    assert Money.MulHalfUp(d.rows[id].price, 0) == 0;
  }

  predicate Concerns(t: Trade, id: OrderId)
  {
    t.buyOrder == id || t.sellOrder == id
  }

  /** What the trades of an order take out of an account. */
  function TakenFor(id: OrderId, a: Account): Trade -> int
  {
    (t: Trade) => if Concerns(t, id) then TradeDeduction(a)(t) else 0
  }

  /** The locked deltas of the ledger rows on an account that belong to trades of an order. */
  function LockedByTrades(trades: seq<Trade>, id: OrderId, a: Account): Row -> int
  {
    (r: Row) =>
      if r.account == a && r.reference.TradeRef? && r.reference.trade < |trades|
         && Concerns(trades[r.reference.trade], id)
      then r.lockedDelta else 0
  }

  lemma {:induction false} LockedByTradesSum(rows: seq<Row>, trades: seq<Trade>, n: nat, processed: set<nat>,
                                             id: OrderId, a: Account)
    requires TradesEntered(rows, trades, processed) && n <= |trades|
    ensures Sum(rows, LockedByTrades(trades[..n], id, a)) == 0 - SumMarked(trades[..n], processed, TakenFor(id, a))
  {
    if n == 0 {
      SumZero(rows, LockedByTrades(trades[..0], id, a));
    } else {
      LockedByTradesSum(rows, trades, n - 1, processed, id, a);
      assert trades[..n][..n - 1] == trades[..n - 1];
      var all, earlier := LockedByTrades(trades[..n], id, a), LockedByTrades(trades[..n - 1], id, a);
      if Concerns(trades[n - 1], id) {
        forall i | 0 <= i < |rows| ensures LockedByTrade(n - 1, a)(rows[i]) == all(rows[i]) - earlier(rows[i]) {
        }
        SumDifference(rows, all, earlier, LockedByTrade(n - 1, a));
      } else {
        SameSum(rows, all, earlier);
      }
    }
  }

  /** A buy's trades take its payments out of its quote account, a sell's their quantities out of its base account. */
  function TakenBy(o: Order, id: OrderId): Trade -> int
  {
    if o.side == BUY then PaidBy(id) else TradedBy(id)
  }

  lemma {:induction false} TakenIsPaid(rows: seq<Order>, trades: seq<Trade>, id: OrderId, i: nat)
    requires TradesFit(rows, trades) && id < |rows| && i < |trades|
    ensures TakenFor(id, rows[id].Funding())(trades[i]) == TakenBy(rows[id], id)(trades[i])
  {
    var o, t := rows[id], trades[i];
    assert TradeFits(rows, t);
    if Concerns(t, id) {
      if o.side == BUY {
        assert t.buyOrder == id && BuyerQuote(t) == o.Funding() != SellerBase(t);
        assert TradeDeduction(o.Funding())(t) == Money.BuyerDeduction(t.buyerLimit, t.price, t.quantity);
      } else {
        assert t.sellOrder == id != t.buyOrder && SellerBase(t) == o.Funding() != BuyerQuote(t);
        assert TradeDeduction(o.Funding())(t) == t.quantity;
      }
    }
  }

  lemma {:induction false} SameSumMarked<T>(s: seq<T>, marked: set<nat>, f: T -> int, g: T -> int)
    requires forall i :: 0 <= i < |s| ==> f(s[i]) == g(s[i])
    ensures SumMarked(s, marked, f) == SumMarked(s, marked, g)
  {
    if s != [] {
      var init := s[..|s| - 1];
      assert forall i :: 0 <= i < |init| ==> init[i] == s[i];
      SameSumMarked(init, marked, f, g);
    }
  }

  function KeyLocked(key: string, kind: Kind): Row -> int
  {
    (r: Row) => if r.key == Some(key) && r.kind == kind then r.lockedDelta else 0
  }

  lemma {:induction false} SumOfKey(rows: seq<Row>, key: string, kind: Kind)
    requires KeysUnique(rows)
    ensures Sum(rows, KeyLocked(key, kind))
         == if Recorded(rows, key, kind) then FindKey(rows, key).value.lockedDelta else 0
  {
    if rows != [] {
      var init, last := rows[..|rows| - 1], rows[|rows| - 1];
      SumOfKey(init, key, kind);
      FindKeyMeaning(init, key);
    }
  }

  /**
   What the ledger holds locked for an order: its lock, its compensating unlock, the entries that refer to it, and the
   entries of its trades on its funding account.
   */
  function HeldFor(s: State, id: OrderId): int
    requires id < |s.desk.rows|
  {
    var o, rows := s.desk.rows[id], s.books.rows;
    Sum(rows, KeyLocked(LockKey(o.key), LOCK)) + Sum(rows, KeyLocked(UnlockKey(o.key), UNLOCK))
    + Sum(rows, LockedByOrder(id)) + Sum(rows, LockedByTrades(s.trades, id, o.Funding()))
  }

  /** What an order still needs locked: its open part, a cancelled rest not yet unlocked, its unsettled trades. */
  function NeededFor(s: State, id: OrderId): int
    requires id < |s.desk.rows|
  {
    var o := s.desk.rows[id];
    OpenPart(o) + (Sum(s.cancels, FreedFor(id)) - Sum(s.cancels, UnlockedFor(id)))
    + (Sum(s.trades, TakenBy(o, id)) - SumMarked(s.trades, s.processed, TakenBy(o, id)))
  }

  lemma {:induction false} StoredKeys(s: State, id: OrderId)
    requires KeysUnique(s.books.rows) && CreatesOk(s.books.rows, s.creates) && OrdersLinked(s.desk.rows, s.creates)
    requires id < |s.desk.rows|
    ensures var o, rows := s.desk.rows[id], s.books.rows;
            && Entered(rows, LockKey(o.key), LOCK, o.Funding(), LockAmount(o.side, o.price, o.amount))
            && !Recorded(rows, UnlockKey(o.key), UNLOCK)
            && Sum(rows, KeyLocked(LockKey(o.key), LOCK)) == LockAmount(o.side, o.price, o.amount)
            && Sum(rows, KeyLocked(UnlockKey(o.key), UNLOCK)) == 0
  {
    assert HasCreate(s.creates, s.desk.rows[id]);
    var i :| 0 <= i < |s.creates| && Stored(s.creates[i], s.desk.rows[id]);
    assert CreateOk(s.books.rows, s.creates[i]);
    SumOfKey(s.books.rows, LockKey(s.desk.rows[id].key), LOCK);
    SumOfKey(s.books.rows, UnlockKey(s.desk.rows[id].key), UNLOCK);
  }

  /** The ledger holds for each order what the order still needs and, for a buy, 0 to 2n units more after n trades. */
  lemma {:induction false} OrderHolds(env: W.Environment, events: seq<Event>, id: OrderId)
    requires id < |Run(env, events).desk.rows|
    ensures var s := Run(env, events);
            var dust := HeldFor(s, id) - NeededFor(s, id);
            if s.desk.rows[id].side == BUY then 0 <= dust <= 2 * Sum(s.trades, BoughtBy(id)) else dust == 0
  {
    hide LedgerOk, MarketOk, ChannelOk, FourRowsEach, TradesEntered, CreatesOk, OrdersLinked, CancelsOk,
         CancelsEntered, WithdrawalsOk, LockedOk, CoveredOk, Run;
    var s := Run(env, events);
    RunKeeps(env, events);
    var o := s.desk.rows[id];
    UniqueKeys(s.books);
    StoredKeys(s, id);
    assert Sum(s.books.rows, LockedByOrder(id)) == 0 - Sum(s.cancels, UnlockedFor(id)) by {
      CancelEntries(s.books.rows, s.cancels, id);
    }
    LockedByTradesSum(s.books.rows, s.trades, |s.trades|, s.processed, id, o.Funding());
    assert s.trades[..|s.trades|] == s.trades;
    TradesOfMarket(s.desk, s.trades);
    forall i | 0 <= i < |s.trades| ensures TakenFor(id, o.Funding())(s.trades[i]) == TakenBy(o, id)(s.trades[i]) {
      TakenIsPaid(s.desk.rows, s.trades, id, i);
    }
    SameSumMarked(s.trades, s.processed, TakenFor(id, o.Funding()), TakenBy(o, id));
    OrderRest(s.desk, s.trades, s.cancels, id);
  }

  lemma {:induction false} CancelEntries(rows: seq<Row>, cancels: seq<Cancel>, id: OrderId)
    requires CancelsEntered(rows, cancels)
    ensures Sum(rows, LockedByOrder(id)) == 0 - Sum(cancels, UnlockedFor(id))
  {
  }

  lemma {:induction false} TradesOfMarket(d: Desk, trades: seq<Trade>)
    requires MarketOk(d, trades)
    ensures TradesFit(d.rows, trades)
  {
  }

  /** Filled, or cancelled with nothing left to unlock, and every trade settled. */
  predicate OrderDone(s: State, id: OrderId)
  {
    && id < |s.desk.rows| && !s.desk.rows[id].Active()
    && (forall j :: 0 <= j < |s.cancels| && s.cancels[j].order == id ==>
          s.cancels[j].applied || s.cancels[j].amount == 0)
    && (forall i: nat :: i < |s.trades| && Concerns(s.trades[i], id) ==> i in s.processed)
  }

  lemma {:induction false} DoneNeedsNothing(s: State, id: OrderId)
    requires OrderDone(s, id)
    ensures NeededFor(s, id) == 0
  {
    SameSum(s.cancels, FreedFor(id), UnlockedFor(id));
    SettledSum(s.trades, s.processed, s.desk.rows[id], id);
  }

  lemma {:induction false} SettledSum(trades: seq<Trade>, processed: set<nat>, o: Order, id: OrderId)
    requires forall i: nat :: i < |trades| && Concerns(trades[i], id) ==> i in processed
    ensures Sum(trades, TakenBy(o, id)) == SumMarked(trades, processed, TakenBy(o, id))
  {
    if trades != [] {
      var n := |trades| - 1;
      forall i: nat | i < n && Concerns(trades[..n][i], id) ensures i in processed {
        assert trades[i] == trades[..n][i];
      }
      SettledSum(trades[..n], processed, o, id);
      assert Concerns(trades[n], id) || TakenBy(o, id)(trades[n]) == 0;
    }
  }

  /**
   Once an order is done, what its ledger entries leave locked is rounding dust: 0 to 2n units for a buy with n trades,
   exactly nothing for a sell.
   */
  lemma {:induction false} OrderDust(env: W.Environment, events: seq<Event>, id: OrderId)
    requires OrderDone(Run(env, events), id)
    ensures var s := Run(env, events);
            if s.desk.rows[id].side == BUY then 0 <= HeldFor(s, id) <= 2 * Sum(s.trades, BoughtBy(id))
            else HeldFor(s, id) == 0
  {
    hide Run, HeldFor, NeededFor;
    OrderHolds(env, events, id);
    DoneNeedsNothing(Run(env, events), id);
  }

  // ---------------------------------------------------------------------------------------------------------
  // Settlement
  // ---------------------------------------------------------------------------------------------------------

  /**
   A trade is settled at most once and only if it was committed: the ledger holds its four rows or none. When no outbox
   row is PENDING and every log offset is resolved, the settled trades are the committed ones without those that were
   dead-lettered and that no other copy of the event settled.
   */
  lemma {:induction false} SettledExactlyOnce(env: W.Environment, events: seq<Event>, id: nat)
    ensures var s := Run(env, events);
            && (id in s.processed ==> id < |s.trades|) && (id in s.deadLettered ==> id < |s.trades|)
            && Sum(s.books.rows, OfTrade(id)) == (if id in s.processed then 4 else 0)
            && (Quiescent(s.channel) ==>
                  (id in s.processed <==> id < |s.trades| && id !in s.deadLettered - s.processed))
  {
    hide LedgerOk, MarketOk, ChannelOk, TradesEntered, CreatesOk, OrdersLinked, CancelsOk, CancelsEntered,
         WithdrawalsOk, LockedOk, CoveredOk, Step;
    var s := Run(env, events);
    RunKeeps(env, events);
    ProcessedExist(s.channel, |s.trades|, s.processed + s.deadLettered);
    if Quiescent(s.channel) {
      QuiescentMeansResolved(s.channel, |s.trades|, s.processed + s.deadLettered);
      assert id in s.processed + s.deadLettered <==> id < |s.trades|;
    }
  }

  /** At rest every committed trade is settled if and only if every dead-lettered one was settled by another copy. */
  lemma {:induction false} AllSettledIff(env: W.Environment, events: seq<Event>)
    requires Quiescent(Run(env, events).channel)
    ensures var s := Run(env, events);
            (forall id: nat :: id < |s.trades| ==> id in s.processed) <==> s.deadLettered <= s.processed
  {
    hide Run;
    var s := Run(env, events);
    forall id: nat
      ensures id in s.processed <==> id < |s.trades| && id !in s.deadLettered - s.processed
      ensures id in s.deadLettered ==> id < |s.trades|
    {
      SettledExactlyOnce(env, events, id);
    }
  }

  /** The consumer loop takes exactly the machine's delivery steps. */
  lemma {:induction false} ConsumingIsDelivering(s: State, attempt: Attempt)
    ensures var p := Delivery.Progress.Progress(s.books, s.processed, s.deadLettered, s.channel.cursor);
            var q := ConsumeOne(s.trades, s.channel.log, p, attempt);
            StepDeliver(s, attempt)
            == s.(books := q.books, processed := q.processed, deadLettered := q.deadLettered,
                  channel := s.channel.(cursor := q.cursor))
  {
  }

  /** At rest what is still to be deducted on an account is what the lost dead-lettered trades would have deducted. */
  lemma {:induction false} UnsettledAtRest(env: W.Environment, events: seq<Event>, a: Account)
    requires Quiescent(Run(env, events).channel)
    ensures var s := Run(env, events);
            Unsettled(s.trades, s.processed, a)
            == SumMarked(s.trades, s.deadLettered - s.processed, TradeDeduction(a))
  {
    hide Run;
    var s := Run(env, events);
    forall id: nat | id < |s.trades| ensures id in s.deadLettered - s.processed <==> id !in s.processed {
      SettledExactlyOnce(env, events, id);
    }
    SumMarkedRest(s.trades, s.processed, s.deadLettered - s.processed, TradeDeduction(a));
  }

  /** The consumer's self-trade skip is never taken: every committed trade pairs two users inside both limits. */
  lemma {:induction false} EveryTradeFits(env: W.Environment, events: seq<Event>, id: nat)
    requires id < |Run(env, events).trades|
    ensures TradeFits(Run(env, events).desk.rows, Run(env, events).trades[id])
  {
    hide LedgerOk, ChannelOk, FourRowsEach, TradesEntered, CreatesOk, OrdersLinked, CancelsOk, CancelsEntered,
         WithdrawalsOk, LockedOk, CoveredOk, Step;
    RunKeeps(env, events);
  }

  // ---------------------------------------------------------------------------------------------------------
  // Creating orders
  // ---------------------------------------------------------------------------------------------------------

  /** Exactly one ledger row carries this key, and it is this entry. */
  predicate OnlyEntry(rows: seq<Row>, key: string, kind: Kind, account: Account, amount: nat)
  {
    exists i :: 0 <= i < |rows| && rows[i].key == Some(key) && rows[i].kind == kind && rows[i].account == account
      && rows[i].amount == amount && forall j :: 0 <= j < |rows| && rows[j].key == Some(key) ==> j == i
  }

  lemma {:induction false} EnteredIsOnly(rows: seq<Row>, key: string, kind: Kind, account: Account, amount: nat)
    requires KeysUnique(rows) && Entered(rows, key, kind, account, amount)
    ensures OnlyEntry(rows, key, kind, account, amount)
  {
    FindKeyMeaning(rows, key);
    var i :| 0 <= i < |rows| && rows[i] == FindKey(rows, key).value;
    assert rows[i].key == Some(key);
  }

  lemma {:induction false} UniqueKeys(b: Books)
    requires LedgerOk(b)
    ensures KeysUnique(b.rows)
  {
  }

  /**
   Over any calls, repeats and failures, a key stores at most one order, and every stored order has exactly one lock
   entry of its full reservation on its own account and no compensating unlock.
   */
  lemma {:induction false} StoredOrderHasItsLock(env: W.Environment, events: seq<Event>, id: OrderId)
    requires id < |Run(env, events).desk.rows|
    ensures var s := Run(env, events);
            var o := s.desk.rows[id];
            && OnlyEntry(s.books.rows, LockKey(o.key), LOCK, o.Funding(), LockAmount(o.side, o.price, o.amount))
            && !Recorded(s.books.rows, UnlockKey(o.key), UNLOCK)
            && (forall k :: 0 <= k < |s.desk.rows| && s.desk.rows[k].key == o.key ==> k == id)
  {
    hide LedgerOk, MarketOk, ChannelOk, FourRowsEach, TradesEntered, CreatesOk, CancelsOk, CancelsEntered,
         WithdrawalsOk, LockedOk, CoveredOk, Step, OnlyEntry, HasCreate;
    var s := Run(env, events);
    RunKeeps(env, events);
    UniqueKeys(s.books);
    StoredKeys(s, id);
    var o := s.desk.rows[id];
    EnteredIsOnly(s.books.rows, LockKey(o.key), LOCK, o.Funding(), LockAmount(o.side, o.price, o.amount));
  }

  /** What the two entries of a create's saga add to the locked and to the available balance. */
  function SagaLocked(key: string): Row -> int
  {
    (r: Row) =>
      if (r.key == Some(LockKey(key)) && r.kind == LOCK) || (r.key == Some(UnlockKey(key)) && r.kind == UNLOCK)
      then r.lockedDelta else 0
  }

  lemma {:induction false} SagaSplits(rows: seq<Row>, key: string)
    ensures Sum(rows, SagaLocked(key)) == Sum(rows, KeyLocked(LockKey(key), LOCK))
                                        + Sum(rows, KeyLocked(UnlockKey(key), UNLOCK))
  {
    if rows != [] {
      SagaSplits(rows[..|rows| - 1], key);
    }
  }

  /**
   What a rejected create nets on the locked balance, in a careful environment, is nothing if and only if its lock never
   reached the ledger, or neither the lock's answer nor the compensating unlock was lost and no other entry had taken the
   unlock's key. Only a deposit under that very key can take it.
   */
  lemma {:induction false} RejectedNetsZeroIff(env: W.Environment, events: seq<Event>, i: nat)
    requires Careful(env) && i < |Run(env, events).creates| && Run(env, events).creates[i].phase == REJECTED
    ensures var s := Run(env, events);
            var c, rows := s.creates[i], s.books.rows;
            && (Sum(rows, SagaLocked(c.key)) == 0
                <==> !Recorded(rows, LockKey(c.key), LOCK)
                     || !(c.answerLost || c.unlockLost || KeyTaken(rows, UnlockKey(c.key), UNLOCK)))
            && (KeyTaken(rows, UnlockKey(c.key), UNLOCK) ==> Deposited(events, UnlockKey(c.key)))
  {
    hide Run, SafeInv;
    var s := Run(env, events);
    RunKeepsSafe(env, events);
    RejectedParts(s, i);
    var c, rows := s.creates[i], s.books.rows;
    SagaSplits(rows, c.key);
    SumOfKey(rows, LockKey(c.key), LOCK);
    SumOfKey(rows, UnlockKey(c.key), UNLOCK);
    if KeyTaken(rows, UnlockKey(c.key), UNLOCK) {
      RunKeys(env, events, UnlockKey(c.key));
      UnlockKeyFits(c.key, FindKey(rows, UnlockKey(c.key)).value.kind);
    }
  }

  lemma {:induction false} RejectedParts(s: State, i: nat)
    requires SafeInv(s) && i < |s.creates|
    ensures CreateOk(s.books.rows, s.creates[i]) && CreateExplained(s.books.rows, s.creates[i])
    ensures KeysUnique(s.books.rows)
  {
    hide LedgerOk, MarketOk, ChannelOk, FourRowsEach, TradesEntered, CreatesOk, OrdersLinked, CancelsOk,
         CancelsEntered, WithdrawalsOk, LockedOk, CoveredOk, SagasSafe, CancelsExplained, CreateExplained;
    CreateOf(s, i);
    UniqueKeys(s.books);
  }

  lemma UnlockKeyFits(key: string, kind: Kind)
    requires PrefixFits(kind, UnlockKey(key))
    ensures kind == UNLOCK || CreatesAccount(kind)
  {
    assert UnlockKey(key)[0] == 'u';
    assert LockKey("")[0] == 'l' && WithdrawLockKey("")[0] == 'w' && DebitKey("")[0] == 'w';
  }

  /** What a withdrawal that is owed its funds may still ask of the ledger. */
  predicate OwedCall(w: W.Withdrawal, m: Mutation)
  {
    && W.Owed(w) > 0
    && (m == CompensateRequest(w.terms) || m == WithdrawUnlockRequest(w.terms) || m == DebitRequest(w.terms))
  }

  /** The calls the sagas still have to make: a compensation, a cancel's unlock, a withdrawal's unlock or debit. */
  predicate Asked(s: State, m: Mutation)
  {
    || (exists i :: 0 <= i < |s.creates| && s.creates[i].phase == COMPENSATING && m == UnlockRequest(s.creates[i]))
    || (exists j :: 0 <= j < |s.cancels| && !s.cancels[j].attempted && s.cancels[j].amount > 0
                    && m == CancelRequest(s.cancels[j]))
    || (exists i :: 0 <= i < |s.withdrawals| && OwedCall(s.withdrawals[i], m))
  }

  /**
   In a careful environment none of these calls is ever refused for want of funds: one that reaches the accounts service
   is applied, unless an entry is already recorded under its key.
   */
  lemma {:induction false} AskedIsGranted(env: W.Environment, events: seq<Event>, m: Mutation)
    requires Careful(env) && Asked(Run(env, events), m)
    ensures var s := Run(env, events);
            Call(s.books, m, true).applied <==> FindKey(s.books.rows, m.key).None?
  {
    hide Run, SafeInv, Call;
    var s := Run(env, events);
    RunKeepsSafe(env, events);
    if i: nat :| i < |s.creates| && s.creates[i].phase == COMPENSATING && m == UnlockRequest(s.creates[i]) {
      CompensationGranted(s, i);
    } else if j: nat :| j < |s.cancels| && !s.cancels[j].attempted && s.cancels[j].amount > 0
                        && m == CancelRequest(s.cancels[j]) {
      CancelGranted(s, j);
    } else {
      var i: nat :| i < |s.withdrawals| && OwedCall(s.withdrawals[i], m);
      SagaCallGranted(s, i, m);
    }
  }

  /** The kind of an entry that has the key of a saga's unlock or debit: the call's own kind, or a deposit's. */
  lemma SagaKeyKinds(key: string, kind: Kind)
    ensures PrefixFits(kind, CompensateKey(key)) ==> kind == UNLOCK || CreatesAccount(kind)
    ensures PrefixFits(kind, WithdrawUnlockKey(key)) ==> kind == UNLOCK || CreatesAccount(kind)
    ensures PrefixFits(kind, DebitKey(key)) ==> kind == WITHDRAWAL || CreatesAccount(kind)
    ensures PrefixFits(kind, CancelKey(key)) ==> kind == UNLOCK || CreatesAccount(kind)
  {
    var c, u, d := CompensateKey(key), WithdrawUnlockKey(key), DebitKey(key);
    assert c[0] == 'w' && c[8] == '-' && c[13] == '-' && u[0] == 'w' && u[8] == 'a' && u[11] == 'u';
    assert d[0] == 'w' && d[8] == 'a' && d[11] == 'd' && CancelKey(key)[0] == 'c';
    assert LockKey("")[0] == 'l' && WithdrawLockKey("")[0] == 'w' && WithdrawLockKey("")[8] == '-';
    assert WithdrawLockKey("")[13] == ':' && DebitKey("")[0] == 'w' && DebitKey("")[8] == 'a' && DebitKey("")[11] == 'd';
    assert UnlockKey("")[0] == 'u' && CancelKey("")[0] == 'c' && CompensateKey("")[8] == '-';
    assert WithdrawUnlockKey("")[8] == 'a' && WithdrawUnlockKey("")[11] == 'u';
  }

  lemma {:induction false} OwedIsUnrecorded(s: State, i: nat)
    requires SafeInv(s) && i < |s.withdrawals| && W.Owed(s.withdrawals[i]) > 0
    ensures var t, rows := s.withdrawals[i].terms, s.books.rows;
            && !Recorded(rows, CompensateKey(t.key), UNLOCK) && !Recorded(rows, WithdrawUnlockKey(t.key), UNLOCK)
            && !Recorded(rows, DebitKey(t.id), WITHDRAWAL)
  {
    hide Inv, CreatesExplained, CancelsExplained;
    FlagsAreEntries(s, i);
    assert W.Orderly(s.withdrawals[i]);
  }

  /** What can be recorded under such a call's key: a deposit that chose it, or another cancel with the same key. */
  lemma {:induction false} AskedKeyIsTakenBy(env: W.Environment, events: seq<Event>, m: Mutation)
    requires Careful(env) && Asked(Run(env, events), m) && FindKey(Run(env, events).books.rows, m.key).Some?
    ensures var s := Run(env, events);
            Deposited(events, m.key)
            || (Recorded(s.books.rows, m.key, UNLOCK)
                && exists j :: 0 <= j < |s.cancels| && m == CancelRequest(s.cancels[j]))
  {
    hide Run, SafeInv, PrefixFits;
    var s := Run(env, events);
    RunKeepsSafe(env, events);
    RunKeys(env, events, m.key);
    var kind := FindKey(s.books.rows, m.key).value.kind;
    if i: nat :| i < |s.creates| && s.creates[i].phase == COMPENSATING && m == UnlockRequest(s.creates[i]) {
      UnlockKeyFits(s.creates[i].key, kind);
      CreateOf(s, i);
    } else if j: nat :| j < |s.cancels| && !s.cancels[j].attempted && s.cancels[j].amount > 0
                        && m == CancelRequest(s.cancels[j]) {
      SagaKeyKinds(s.cancels[j].key, kind);
    } else {
      var i: nat :| i < |s.withdrawals| && OwedCall(s.withdrawals[i], m);
      OwedIsUnrecorded(s, i);
      SagaKeyKinds(s.withdrawals[i].terms.key, kind);
      SagaKeyKinds(s.withdrawals[i].terms.id, kind);
    }
  }

  const SELLER := Account(0, BTC)
  const SALE := Create(0, BTC_USDT, SELL, 1, 5, "k", BEGUN, false, false, false, false)
  const NO_EVENTS: seq<Event> := []
  const FUNDED := NO_EVENTS + [Event.Deposit(false, SELLER, 5, UnlockKey("k"), "deposit")]
                  + [BeginCreate(0, BTC_USDT, SELL, 1, 5, "k")]
  const TAKEN_KEY := FUNDED + [LockFunds(0, true, true)] + [Abort(0)] + [Compensate(0, true)]

  lemma {:induction false} RunFunded(env: W.Environment)
    ensures var s := Run(env, FUNDED);
            && s.creates == [SALE] && SELLER in s.books.accounts && BalanceOf(s.books, SELLER) == Balance(5, 0)
            && FindKey(s.books.rows, UnlockKey("k")).Some? && FindKey(s.books.rows, UnlockKey("k")).value.kind == DEPOSIT
            && FindKey(s.books.rows, LockKey("k")).None?
  {
    var m := DepositRequest(false, SELLER, 5, UnlockKey("k"), "deposit");
    RunMore(env, NO_EVENTS, Event.Deposit(false, SELLER, 5, UnlockKey("k"), "deposit"));
    RunMore(env, NO_EVENTS + [Event.Deposit(false, SELLER, 5, UnlockKey("k"), "deposit")],
            BeginCreate(0, BTC_USDT, SELL, 1, 5, "k"));
    assert Run(env, NO_EVENTS) == EMPTY && FindKey([], UnlockKey("k")).None?;
    CallFinds(EMPTY.books, m, true, LockKey("k"));
    CallPosts(EMPTY.books, m, true);
    assert UnlockKey("k")[0] == 'u' && LockKey("k")[0] == 'l';
    assert !KeyUsed([], "k");
  }

  /** A deposit may take the key of a compensating unlock; then the unlock is refused and the funds stay locked. */
  lemma {:induction false} TakenKeyRefusesUnlock(env: W.Environment)
    ensures var s := Run(env, TAKEN_KEY);
            && s.creates == [SALE.(phase := REJECTED, lockApplied := true)]
            && BalanceOf(s.books, SELLER) == Balance(0, 5)
  {
    hide Run, FindKey;
    var s := Run(env, FUNDED);
    RunFunded(env);
    assert SALE.Lock() == 5 && SALE.LockAccount() == SELLER;
    RunMore(env, FUNDED, LockFunds(0, true, true));
    var locked := Run(env, FUNDED + [LockFunds(0, true, true)]);
    assert locked.creates == [SALE.(phase := LOCKED, lockApplied := true)];
    CallFinds(s.books, LockRequest(SALE), true, UnlockKey("k"));
    RunMore(env, FUNDED + [LockFunds(0, true, true)], Abort(0));
    var aborted := Run(env, FUNDED + [LockFunds(0, true, true)] + [Abort(0)]);
    assert aborted.creates == [SALE.(phase := COMPENSATING, lockApplied := true)] && aborted.books == locked.books;
    RunMore(env, FUNDED + [LockFunds(0, true, true)] + [Abort(0)], Compensate(0, true));
  }

  // ---------------------------------------------------------------------------------------------------------
  // Ledger and book
  // ---------------------------------------------------------------------------------------------------------

  /** Money is conserved: per currency, all accounts together hold what came in from outside minus what went out. */
  lemma {:induction false} MoneyIsConserved(env: W.Environment, events: seq<Event>, c: Currency)
    ensures Circulating(Run(env, events).books, c) == Sum(Run(env, events).books.rows, External(c))
  {
    hide MarketOk, ChannelOk, FourRowsEach, TradesEntered, CreatesOk, OrdersLinked, CancelsOk, CancelsEntered,
         WithdrawalsOk, LockedOk, CoveredOk, Replays, Step;
    RunKeeps(env, events);
  }

  /** The ledger replays: balances are sums of deltas, rows carry the prefix sums, no key appears twice. */
  lemma {:induction false} LedgerReplays(env: W.Environment, events: seq<Event>)
    ensures Replays(Run(env, events).books)
  {
    hide MarketOk, ChannelOk, FourRowsEach, TradesEntered, CreatesOk, OrdersLinked, CancelsOk, CancelsEntered,
         WithdrawalsOk, LockedOk, CoveredOk, Conserves, Step, Replays;
    RunKeeps(env, events);
  }

  /** The live book is the table's: amounts add up, statuses follow, and a restart would rebuild the same book. */
  lemma {:induction false} BookMatchesTable(env: W.Environment, events: seq<Event>)
    ensures DeskOk(Run(env, events).desk)
    ensures Rehydrated(Run(env, events).desk.rows, Run(env, events).desk.book) == Run(env, events).desk.book
  {
    hide LedgerOk, ChannelOk, FourRowsEach, TradesEntered, CreatesOk, OrdersLinked, CancelsOk, CancelsEntered,
         WithdrawalsOk, LockedOk, CoveredOk, Step, TradesFit, OrdersAccounted;
    RunKeeps(env, events);
    RehydrationIsIdempotent(Run(env, events).desk.rows, Run(env, events).desk.book);
  }

  /** An open order on the other side of a new one. */
  predicate Faces(r: Order, o: Order)
  {
    r.Active() && r.pair == o.pair && r.side == o.side.Opposite()
  }

  /**
   Whatever order comes next in a reachable state: its match trades all the fetched orders allow, positively, best price
   first and inside both limits, and no way to trade the same quantity with any orders of the whole opposing side would
   be better.
   */
  lemma {:induction false} EveryMatchIsBest(env: W.Environment, events: seq<Event>, o: Order, take: seq<nat>)
    requires Fresh(o)
    ensures var d := Run(env, events).desk;
            var candidates, fills := BestOpposing(d.book, o.pair, o.side), PlaceFills(d, o);
            var all := Opposing(d.book, o.pair, o.side);
            && 0 <= Sum(candidates, EligibleRemaining(o.user, o.side, o.price))
            && Sum(fills, Quantity()) == Min(o.amount, Sum(candidates, EligibleRemaining(o.user, o.side, o.price)))
            && (forall k, l :: 0 <= k < l < |fills| ==>
                  Rank(o.side, fills[k].maker.price) <= Rank(o.side, fills[l].maker.price))
            && (forall f :: f in fills ==>
                  0 < f.quantity <= f.maker.remaining && Eligible(f.maker, o.user, o.side, o.price))
            && (forall id :: 0 <= id < |d.rows| && Faces(d.rows[id], o) ==> Matching.EntryOf(d.rows, id) in all)
            && (Allocation(all, o.user, o.side, o.price, take) && Taken(take) == Sum(fills, Quantity()) ==>
                  Sum(fills, FillCost(o.side)) <= AllocationCost(o.side, all, take))
  {
    hide Run, DeskOk;
    var d := Run(env, events).desk;
    BookMatchesTable(env, events);
    PlaceFillsAreGood(d, o);
    WholeSide(d, o);
    var candidates := BestOpposing(d.book, o.pair, o.side);
    FillsAreExact(candidates, o.user, o.side, o.price, o.amount);
    FillPricesAreMonotone(candidates, o.user, o.side, o.price, o.amount);
    FillsAreSound(candidates, o.user, o.side, o.price, o.amount);
    var all := Opposing(d.book, o.pair, o.side);
    if Allocation(all, o.user, o.side, o.price, take) && Taken(take) == Sum(PlaceFills(d, o), Quantity()) {
      FrontIsOptimal(candidates, all, o.user, o.side, o.price, o.amount, take);
    }
  }

  lemma {:induction false} WholeSide(d: Desk, o: Order)
    requires DeskOk(d) && Fresh(o)
    ensures var all := Opposing(d.book, o.pair, o.side);
            && BestOpposing(d.book, o.pair, o.side) <= all && BestFirst(o.side, all)
            && (forall id :: 0 <= id < |d.rows| && Faces(d.rows[id], o) ==> Matching.EntryOf(d.rows, id) in all)
  {
    hide Agrees;
    CandidatesAreFront(d.rows, d.book, |d.rows|, o.pair, o.side);
  }

  /** The order this step commits has no blind spot: no crossing order hides behind the fetched ones. */
  predicate NoBlindSpot(s: State, e: Event)
  {
    e.Commit? && e.create < |s.creates| && s.creates[e.create].phase == LOCKED ==>
      !BlindSpot(s.desk, s.creates[e.create].Request())
  }

  predicate NoBlindSpotAlong(env: W.Environment, events: seq<Event>)
  {
    events == []
    || (NoBlindSpotAlong(env, events[..|events| - 1])
        && NoBlindSpot(Run(env, events[..|events| - 1]), events[|events| - 1]))
  }

  /**
   No resting bid ever reaches a resting ask of another user as long as no committed order has a blind spot; the first
   one that has crosses the book.
   */
  lemma {:induction false} BookStaysUncrossed(env: W.Environment, events: seq<Event>)
    requires NoBlindSpotAlong(env, events)
    ensures Uncrossed(Run(env, events).desk.rows)
    ensures forall e: Event :: Uncrossed(Step(env, Run(env, events), e).desk.rows) <==> NoBlindSpot(Run(env, events), e)
  {
    hide Inv, Step, Uncrossed, NoBlindSpot;
    if events == [] {
      NothingIsUncrossed();
    } else {
      BookStaysUncrossed(env, events[..|events| - 1]);
    }
    RunKeeps(env, events);
    forall e: Event
      ensures Uncrossed(Step(env, Run(env, events), e).desk.rows) <==> NoBlindSpot(Run(env, events), e)
    {
      StepUncrossedIff(env, Run(env, events), e);
    }
  }

  lemma {:induction false} NothingIsUncrossed()
    ensures Uncrossed(EMPTY.desk.rows)
  {
  }

  lemma {:induction false} StepUncrossedIff(env: W.Environment, s: State, e: Event)
    requires Inv(s) && Uncrossed(s.desk.rows)
    ensures Uncrossed(Step(env, s, e).desk.rows) <==> NoBlindSpot(s, e)
  {
    hide Uncrossed, LedgerOk, ChannelOk, FourRowsEach, TradesEntered, CreatesOk, OrdersLinked, CancelsOk, CancelsEntered,
         WithdrawalsOk, LockedOk, CoveredOk, Place, DeskOk, Fresh, BlindSpot, Call, Handle, CallIfAny, W.Step, TradesFit,
         OrdersAccounted;
    match e
    case Commit(create) =>
      if create < |s.creates| && s.creates[create].phase == LOCKED {
        RequestIsFresh(s.books.rows, s.creates, create);
        PlaceUncrossedIff(s.desk, s.creates[create].Request());
      }
    case CancelOrder(order, user, key) =>
      if order < |s.desk.rows| {
        CancelKeepsUncrossed(s.desk.rows, order);
      }
    case _ =>
  }

  // ---------------------------------------------------------------------------------------------------------
  // Withdrawals
  // ---------------------------------------------------------------------------------------------------------

  /**
   Over any crashes, recoveries and repeated requests, a withdrawal is claimed and broadcast at most once, and the ledger
   holds at most one lock, compensation, debit and unlock of its amount on its account: the lock once it is inserted, the
   debit once it is COMPLETED and only on a successful receipt. If waiting never throws, a recorded transaction that
   succeeded is never unlocked.
   */
  lemma {:induction false} WithdrawalsAreSafe(env: W.Environment, events: seq<Event>, i: nat)
    requires i < |Run(env, events).withdrawals|
    ensures var s := Run(env, events);
            var w, rows := s.withdrawals[i], s.books.rows;
            var t := w.terms;
            && w.broadcasts <= w.claims <= 1
            && (w.status != W.REQUESTED ==> Recorded(rows, WithdrawLockKey(t.key), LOCK))
            && (w.status == W.COMPLETED ==> Recorded(rows, DebitKey(t.id), WITHDRAWAL))
            && (Recorded(rows, DebitKey(t.id), WITHDRAWAL) ==> t.receipt && w.hash)
            && (Recorded(rows, CompensateKey(t.key), UNLOCK) ==> Recorded(rows, WithdrawLockKey(t.key), LOCK))
            && (!env.waitMayThrow && Recorded(rows, WithdrawUnlockKey(t.key), UNLOCK) && w.hash ==> !t.receipt)
            && OnlyIfAny(rows, WithdrawLockKey(t.key), LOCK, t) && OnlyIfAny(rows, CompensateKey(t.key), UNLOCK, t)
            && OnlyIfAny(rows, WithdrawUnlockKey(t.key), UNLOCK, t) && OnlyIfAny(rows, DebitKey(t.id), WITHDRAWAL, t)
  {
    hide Run, Inv, OnlyIfAny, FlagOk;
    var s := Run(env, events);
    RunKeeps(env, events);
    KeysOf(s);
    FlagsAreEntries(s, i);
    if !env.waitMayThrow {
      Coverage.RunKeepsDecided(env, events);
    }
    var t, w := s.withdrawals[i].terms, s.withdrawals[i];
    FlagIsOnly(s.books.rows, w.locked, WithdrawLockKey(t.key), LOCK, t);
    FlagIsOnly(s.books.rows, w.compensated, CompensateKey(t.key), UNLOCK, t);
    FlagIsOnly(s.books.rows, w.unlocked, WithdrawUnlockKey(t.key), UNLOCK, t);
    FlagIsOnly(s.books.rows, w.debited, DebitKey(t.id), WITHDRAWAL, t);
  }

  /** An entry of this kind under the key is the only one under it, and moves the withdrawal's amount. */
  predicate OnlyIfAny(rows: seq<Row>, key: string, kind: Kind, t: W.Terms)
  {
    Recorded(rows, key, kind) ==> OnlyEntry(rows, key, kind, t.account, t.amount)
  }

  lemma {:induction false} FlagIsOnly(rows: seq<Row>, flag: bool, key: string, kind: Kind, t: W.Terms)
    requires KeysUnique(rows) && FlagOk(rows, flag, key, kind, t)
    ensures OnlyIfAny(rows, key, kind, t) && (flag <==> Recorded(rows, key, kind))
  {
    if flag {
      EnteredIsOnly(rows, key, kind, t.account, t.amount);
    }
  }

  lemma {:induction false} KeysOf(s: State)
    requires Inv(s)
    ensures KeysUnique(s.books.rows)
  {
    hide MarketOk, ChannelOk, FourRowsEach, TradesEntered, CreatesOk, OrdersLinked, CancelsOk, CancelsEntered,
         WithdrawalsOk, LockedOk, CoveredOk;
    UniqueKeys(s.books);
  }
}
