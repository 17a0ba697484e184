/**
 What the operations bring about, in the terms of the tables: when a deposit, an order, a cancel or a withdrawal succeeds
 and which account, by the name of its currency, it moves by how much; and that everything committed can still be settled.
 */
module Outcomes {
  import opened Wrappers
  import opened Domain
  import opened Sums
  import opened Ledger
  import opened Settlement
  import opened Matching
  import opened Agreement
  import opened Reservations
  import opened Market
  import opened Delivery
  import opened Exchange
  import opened Calls
  import opened Safety
  import Guarantees
  import Orders
  import Transfers
  import Money
  import W = Withdrawals

  // ---------------------------------------------------------------------------------------------------------
  // Calls to the accounts service
  // ---------------------------------------------------------------------------------------------------------

  predicate NewTo(rows: seq<Row>, key: string)
  {
    forall i :: 0 <= i < |rows| ==> rows[i].key != Some(key)
  }

  predicate HasAvailable(b: Books, a: Account, amount: nat)
  {
    a in b.accounts && amount <= b.accounts[a].available
  }

  predicate HasLocked(b: Books, a: Account, amount: nat)
  {
    a in b.accounts && amount <= b.accounts[a].locked
  }

  /** The books with one account moved, and the row that says so. */
  function Moved(b: Books, a: Account, kind: Kind, amount: nat, available: int, locked: int, key: string,
                 reference: Reference): Books
  {
    var was := if a in b.accounts then b.accounts[a] else Balance(0, 0);
    var now := Balance(was.available + available, was.locked + locked);
    Books(b.accounts[a := now],
          b.rows + [Row(a, kind, amount, available, locked, now.available, now.locked, Some(key), reference)])
  }

  lemma LockCall(b: Books, a: Account, amount: nat, key: string, reference: Reference, reaches: bool)
    ensures var r := Call(b, Mutation(LOCK, a, amount, key, reference), reaches);
            && (r.applied <==> reaches && 0 < amount && NewTo(b.rows, key) && HasAvailable(b, a, amount))
            && r.books == if r.applied then Moved(b, a, LOCK, amount, 0 - amount, amount, key, reference) else b
  {
    MutateSucceedsIff(b, Mutation(LOCK, a, amount, key, reference));
  }

  lemma UnlockCall(b: Books, a: Account, amount: nat, key: string, reference: Reference, reaches: bool)
    ensures var r := Call(b, Mutation(UNLOCK, a, amount, key, reference), reaches);
            && (r.applied <==> reaches && 0 < amount && NewTo(b.rows, key) && HasLocked(b, a, amount))
            && r.books == if r.applied then Moved(b, a, UNLOCK, amount, amount, 0 - amount, key, reference) else b
  {
    MutateSucceedsIff(b, Mutation(UNLOCK, a, amount, key, reference));
  }

  lemma DebitCall(b: Books, a: Account, amount: nat, key: string, reference: Reference, reaches: bool)
    ensures var r := Call(b, Mutation(WITHDRAWAL, a, amount, key, reference), reaches);
            && (r.applied <==> reaches && 0 < amount && NewTo(b.rows, key) && HasLocked(b, a, amount))
            && r.books == if r.applied then Moved(b, a, WITHDRAWAL, amount, 0, 0 - amount, key, reference) else b
  {
    MutateSucceedsIff(b, Mutation(WITHDRAWAL, a, amount, key, reference));
  }

  /** A deposit under a new key arrives, on an account that exists or not; a repeated or empty one changes nothing. */
  lemma DepositArrives(s: State, onChain: bool, a: Account, amount: nat, key: string, reference: string)
    ensures StepDeposit(s, onChain, a, amount, key, reference)
         == s.(books := if amount > 0 && NewTo(s.books.rows, key)
                        then Moved(s.books, a, if onChain then ON_CHAIN_DEPOSIT else DEPOSIT, amount, amount, 0, key,
                                   if onChain then Named(reference) else NoReference)
                        else s.books)
  {
    MutateSucceedsIff(s.books, DepositRequest(onChain, a, amount, key, reference));
  }

  // ---------------------------------------------------------------------------------------------------------
  // Creating an order
  // ---------------------------------------------------------------------------------------------------------

  /** A buyer pays in USDT, a seller in the coin of the pair. */
  function FundingOf(user: UserId, pair: Pair, side: Side): Account
  {
    Account(user, if side == BUY then USDT else if pair == BTC_USDT then BTC else ETH)
  }

  /** A buyer reserves price times amount, rounded half-up to eight decimals, a seller the amount. */
  function ReservationFor(side: Side, price: nat, amount: nat): nat
  {
    if side == BUY then (2 * (price * amount) + 100_000_000) / 200_000_000 else amount
  }

  lemma ReservationIsLock(o: Order)
    ensures o.Funding() == FundingOf(o.user, o.pair, o.side)
    ensures LockAmount(o.side, o.price, o.remaining) == ReservationFor(o.side, o.price, o.remaining)
    ensures LockAmount(o.side, o.price, o.amount) == ReservationFor(o.side, o.price, o.amount)
  {
  }

  /** The lock call of a new key is accepted exactly if it is applied. */
  lemma {:induction false} NewLockIsOwn(s: State, c: Create, reaches: bool)
    requires Inv(s) && !KeyUsed(s.creates, c.key)
    ensures var r := Call(s.books, LockRequest(c), reaches); r.accepted <==> r.applied
  {
    hide LedgerOk, MarketOk, ChannelOk, FourRowsEach, TradesEntered, OrdersLinked, CancelsOk, CancelsEntered,
         WithdrawalsOk, LockedOk, CoveredOk;
    CallPosts(s.books, LockRequest(c), reaches);
  }

  /** The lock of a new create is applied. */
  predicate Locks(b: Books, r: Orders.Request, key: string, f: Orders.Faults)
  {
    var a, amount := FundingOf(r.user, r.pair, r.side), ReservationFor(r.side, r.price, r.amount);
    f.lockReaches && 0 < amount && NewTo(b.rows, "lock:" + key) && HasAvailable(b, a, amount)
  }

  /** The books after a create that stores no order: its lock, if applied, and the unlock, if it was tried and granted. */
  function BooksOfFailure(b: Books, a: Account, amount: nat, lock: string, unlock: string, reference: Reference,
                          tried: bool): Books
  {
    var locked := Moved(b, a, LOCK, amount, 0 - amount, amount, lock, reference);
    if tried && NewTo(locked.rows, unlock) && HasLocked(locked, a, amount)
    then Moved(locked, a, UNLOCK, amount, amount, 0 - amount, unlock, reference) else locked
  }

  /**
   A new create stores its order if and only if its lock call arrives and is answered, its transaction commits, and its
   account has the reservation available under a key that the ledger has not seen. Then the reservation moves from
   available to locked, and the order is placed. Otherwise neither the table nor the trades change; a lock whose answer is
   lost stays, and one whose transaction failed is given back, if that call arrives and its key is new.
   */
  lemma {:induction false} CreateSucceedsIff(s: State, r: Orders.Request, key: string, f: Orders.Faults)
    requires Inv(s) && r.price > 0 && r.amount > 0 && !KeyUsed(s.creates, key)
    ensures var t := Orders.CreateSteps(s, r, key, f);
            var o := NewOrder(r.user, r.pair, r.side, r.price, r.amount, key);
            var a, amount := FundingOf(r.user, r.pair, r.side), ReservationFor(r.side, r.price, r.amount);
            var stored := Locks(s.books, r, key, f) && f.lockAcknowledged && f.commits;
            && |t.creates| == |s.creates| + 1 && (t.creates[|s.creates|].phase == STORED <==> stored)
            && (stored ==>
                  && t.books == Moved(s.books, a, LOCK, amount, 0 - amount, amount, "lock:" + key, Named(key))
                  && s.trades <= t.trades && Placement(s.desk.rows, o, t.desk.rows, t.trades[|s.trades|..])
                  && t.channel.pending == s.channel.pending + Interval(|s.trades|, |t.trades| - |s.trades|))
            && (!stored ==>
                  && t.desk == s.desk && t.trades == s.trades && t.channel == s.channel
                  && t.books == if Locks(s.books, r, key, f)
                                then BooksOfFailure(s.books, a, amount, "lock:" + key, "unlock:" + key, Named(key),
                                                    f.lockAcknowledged && f.unlockReaches)
                                else s.books)
  {
    hide Inv, Place, Call, Placement, NewTo, HasAvailable, HasLocked, Moved;
    var c := Create(r.user, r.pair, r.side, r.price, r.amount, key, BEGUN, false, false, false, false);
    var begun := StepBeginCreate(s, r.user, r.pair, r.side, r.price, r.amount, key);
    assert begun == s.(creates := s.creates + [c]);
    NewLockIsOwn(s, c, f.lockReaches);
    ReservationIsLock(c.Request());
    LockCall(s.books, c.LockAccount(), c.Lock(), LockKey(key), Named(key), f.lockReaches);
    var locked := Call(s.books, LockRequest(c), f.lockReaches).books;
    UnlockCall(locked, c.LockAccount(), c.Lock(), UnlockKey(key), Named(key), f.unlockReaches);
    StepsOfCreate(s, c, f);
    DeskOfInv(s);
    PlacementOnTable(s.desk, c.Request());
  }

  lemma {:induction false} DeskOfInv(s: State)
    requires Inv(s)
    ensures DeskOk(s.desk)
  {
    hide LedgerOk, ChannelOk, FourRowsEach, TradesEntered, CreatesOk, OrdersLinked, CancelsOk, CancelsEntered,
         WithdrawalsOk, LockedOk, CoveredOk, DeskOk;
    DeskOf(s.desk, s.trades);
  }

  /** Where the steps of a create end. */
  lemma {:induction false} StepsOfCreate(s: State, c: Create, f: Orders.Faults)
    requires c.phase == BEGUN
    ensures var reply := Call(s.books, LockRequest(c), f.lockReaches);
            var t := Orders.FromRecord(s.(creates := s.creates + [c]), |s.creates|, f);
            var (desk, trades) := Place(s.desk, c.Request());
            && |t.creates| == |s.creates| + 1
            && (t.creates[|s.creates|].phase == STORED <==> reply.accepted && f.lockAcknowledged && f.commits)
            && (if reply.accepted && f.lockAcknowledged && f.commits
                then t.books == reply.books && t.desk == desk && t.trades == s.trades + trades
                     && t.channel.pending == s.channel.pending + Interval(|s.trades|, |trades|)
                else t.desk == s.desk && t.trades == s.trades && t.channel == s.channel
                     && t.books == if reply.accepted && f.lockAcknowledged
                                   then Call(reply.books, UnlockRequest(c), f.unlockReaches).books else reply.books)
  {
    hide Call, Place;
  }

  /**
   In every reachable state, a stored order's only entry under its lock key is a lock of its reservation on its funding
   account, and the entry of a cancel that was unlocked is an unlock of what was left, on the same account.
   */
  lemma {:induction false} OrderEntries(env: W.Environment, events: seq<Event>, id: OrderId, j: nat)
    requires id < |Run(env, events).desk.rows|
    ensures var s := Run(env, events);
            var o, rows := s.desk.rows[id], s.books.rows;
            && Guarantees.OnlyEntry(rows, "lock:" + o.key, LOCK, FundingOf(o.user, o.pair, o.side),
                                    ReservationFor(o.side, o.price, o.amount))
            && (j < |s.cancels| && s.cancels[j].order == id && s.cancels[j].applied ==>
                  Guarantees.OnlyEntry(rows, "cancel:" + s.cancels[j].key, UNLOCK, FundingOf(o.user, o.pair, o.side),
                                       ReservationFor(o.side, o.price, o.remaining)))
  {
    hide Run, Inv, Guarantees.OnlyEntry;
    var s := Run(env, events);
    var o := s.desk.rows[id];
    RunKeeps(env, events);
    ReservationIsLock(o);
    Guarantees.StoredOrderHasItsLock(env, events, id);
    if j < |s.cancels| && s.cancels[j].order == id && s.cancels[j].applied {
      Guarantees.KeysOf(s);
      CancelEntry(s, j);
      Guarantees.EnteredIsOnly(s.books.rows, CancelKey(s.cancels[j].key), UNLOCK, s.cancels[j].account,
                               s.cancels[j].amount);
    }
  }

  lemma {:induction false} CancelEntry(s: State, j: nat)
    requires Inv(s) && j < |s.cancels| && s.cancels[j].applied
    ensures var c := s.cancels[j];
            CancelOk(s.desk.rows, c) && Entered(s.books.rows, CancelKey(c.key), UNLOCK, c.account, c.amount)
  {
    hide LedgerOk, MarketOk, ChannelOk, FourRowsEach, TradesEntered, CreatesOk, OrdersLinked, WithdrawalsOk, LockedOk,
         CoveredOk;
  }

  // ---------------------------------------------------------------------------------------------------------
  // Cancelling an order
  // ---------------------------------------------------------------------------------------------------------

  /**
   Cancelling one's own open order cancels that row and no other, takes the order out of the book, and gives back what it
   still reserves, if that is not nothing, the call arrives, its key is new and so much is locked.
   */
  lemma {:induction false} CancelReturns(s: State, id: OrderId, user: UserId, key: string, reaches: bool)
    requires Inv(s) && id < |s.desk.rows| && s.desk.rows[id].user == user
    requires s.desk.rows[id].status == OPEN || s.desk.rows[id].status == PARTIALLY_FILLED
    ensures var t := StepUnlockCancelled(StepCancelOrder(s, id, user, key), |s.cancels|, reaches);
            var o := s.desk.rows[id];
            var a, rest := FundingOf(user, o.pair, o.side), ReservationFor(o.side, o.price, o.remaining);
            && t.desk.rows == s.desk.rows[id := o.(status := CANCELLED)]
            && DeskOk(t.desk) && id !in t.desk.book.details
            && t.trades == s.trades && t.creates == s.creates && t.channel == s.channel
            && t.books == if reaches && 0 < rest && NewTo(s.books.rows, "cancel:" + key) && HasLocked(s.books, a, rest)
                          then Moved(s.books, a, UNLOCK, rest, rest, 0 - rest, "cancel:" + key, OrderRef(id))
                          else s.books
  {
    hide Inv, Call, NewTo, HasLocked, DeskOk;
    var o := s.desk.rows[id];
    ReservationIsLock(o);
    UnlockCall(s.books, o.Funding(), LockAmount(o.side, o.price, o.remaining), CancelKey(key), OrderRef(id), reaches);
    CancelOrderKeeps(s, id, user, key);
    DeskOfInv(StepCancelOrder(s, id, user, key));
  }

  // ---------------------------------------------------------------------------------------------------------
  // Everything committed can still be settled
  // ---------------------------------------------------------------------------------------------------------

  lemma {:induction false} ListOf(s: set<nat>) returns (list: seq<nat>)
    ensures forall x :: x in list <==> x in s
    decreases |s|
  {
    if s == {} {
      list := [];
    } else {
      var x :| x in s;
      var rest := ListOf(s - {x});
      list := rest + [x];
    }
  }

  lemma {:induction false} RunMore(env: W.Environment, events: seq<Event>, e: Event)
    ensures Run(env, events + [e]) == Step(env, Run(env, events), e)
  {
    assert (events + [e])[..|events|] == events;
  }

  /** What only a relay or a delivery may change. */
  predicate SameBusiness(s: State, t: State)
  {
    && t.desk == s.desk && t.trades == s.trades && t.creates == s.creates && t.cancels == s.cancels
    && t.withdrawals == s.withdrawals && t.deadLettered == s.deadLettered
  }

  /** The relay sends whatever is pending and marks it. */
  lemma {:induction false} RelayAll(env: W.Environment, events: seq<Event>) returns (more: seq<Event>)
    ensures var s, t := Run(env, events), Run(env, more);
            events <= more && SameBusiness(s, t) && t.channel.pending == {}
  {
    var s := Run(env, events);
    var batch := ListOf(s.channel.pending);
    RunMore(env, events, RelayOutbox(batch, 0, true));
    more := events + [RelayOutbox(batch, 0, true)];
    assert forall x :: x in s.channel.pending ==> exists i :: 0 <= i < |batch| && batch[i] == x;
  }

  /** The consumer handles what is left of the log. */
  lemma {:induction false} DeliverAll(env: W.Environment, events: seq<Event>) returns (more: seq<Event>)
    ensures var s, t := Run(env, events), Run(env, more);
            && events <= more && SameBusiness(s, t)
            && t.channel.cursor == |t.channel.log| && t.channel.pending == s.channel.pending
    decreases |Run(env, events).channel.log| - Run(env, events).channel.cursor
  {
    hide Run, Inv, Handle;
    var s := Run(env, events);
    RunKeeps(env, events);
    ChannelOf(s);
    if s.channel.cursor == |s.channel.log| {
      more := events;
    } else {
      RunMore(env, events, Deliver(Succeeds));
      HandledOnSuccess(s.books, s.processed, s.trades[s.channel.log[s.channel.cursor]],
                       s.channel.log[s.channel.cursor]);
      more := DeliverAll(env, events + [Deliver(Succeeds)]);
    }
  }

  lemma HandledOnSuccess(b: Books, processed: set<nat>, t: Trade, id: nat)
    ensures Handle(b, processed, t, id, false).handled
  {
  }

  /**
   Whatever has happened, faults, crashes and restarts included: from every reachable state the relay and the consumer can
   go on to a state at rest in which every committed trade is settled, except those that were dead-lettered before and
   that no other copy settled. Nothing else changes on the way.
   */
  lemma {:induction false} EverythingSettles(env: W.Environment, events: seq<Event>) returns (more: seq<Event>)
    ensures var s, t := Run(env, events), Run(env, more);
            && events <= more && SameBusiness(s, t) && Quiescent(t.channel)
            && (forall id: nat :: id < |s.trades| ==> id in t.processed || id in s.deadLettered)
  {
    hide Run, Inv;
    var sent := RelayAll(env, events);
    more := DeliverAll(env, sent);
    var t := Run(env, more);
    RunKeeps(env, more);
    ChannelOf(t);
    QuiescentMeansResolved(t.channel, |t.trades|, t.processed + t.deadLettered);
    forall id: nat | id < |t.trades| ensures id in t.processed || id in t.deadLettered {
      assert id in t.processed + t.deadLettered;
    }
  }

  // ---------------------------------------------------------------------------------------------------------
  // Withdrawals
  // ---------------------------------------------------------------------------------------------------------

  /** The lock of a first request is applied. */
  predicate LocksRequest(b: Books, t: W.Terms, f: Transfers.RequestFaults)
  {
    f.lockReaches && 0 < t.amount && NewTo(b.rows, "withdraw-lock:" + t.key) && HasAvailable(b, t.account, t.amount)
  }

  lemma {:induction false} FirstLockIsOwn(s: State, t: W.Terms, reaches: bool)
    requires Inv(s) && !SagaKeyUsed(s.withdrawals, t.key)
    ensures var r := Call(s.books, WithdrawLockRequest(t), reaches); r.accepted <==> r.applied
  {
    hide LedgerOk, MarketOk, ChannelOk, FourRowsEach, TradesEntered, CreatesOk, OrdersLinked, CancelsOk, CancelsEntered,
         LockedOk, CoveredOk;
    CallPosts(s.books, WithdrawLockRequest(t), reaches);
  }

  /**
   A first request is inserted, PENDING, if and only if its lock call arrives and is answered, its insert works, and its
   account has the amount available under a key that the ledger has not seen. Then the amount moves from available to
   locked. A request that is not inserted leaves no row; a lock whose answer is lost stays, and one whose insert failed is
   given back, if that call arrives and its key is new.
   */
  lemma {:induction false} RequestSucceedsIff(env: W.Environment, s: State, t: W.Terms, f: Transfers.RequestFaults)
    requires Inv(s) && !SagaKeyUsed(s.withdrawals, t.key) && !SagaIdUsed(s.withdrawals, t.id)
    ensures var u := Transfers.RequestSteps(env, s, t, f);
            var inserted := LocksRequest(s.books, t, f) && f.lockAcknowledged && f.inserts;
            && |u.withdrawals| == |s.withdrawals| + 1 && u.withdrawals[..|s.withdrawals|] == s.withdrawals
            && u.withdrawals[|s.withdrawals|].terms == t
            && u.withdrawals[|s.withdrawals|].status == (if inserted then W.PENDING else W.REQUESTED)
            && u.books == if !LocksRequest(s.books, t, f) then s.books
                          else BooksOfFailure(s.books, t.account, t.amount, "withdraw-lock:" + t.key,
                                              "withdraw-lock-compensate:" + t.key, Named(t.key),
                                              f.lockAcknowledged && !f.inserts && f.unlockReaches)
  {
    hide Inv, Call, NewTo, HasAvailable, HasLocked, Moved;
    Transfers.KeyIndexMeaning(s.withdrawals, t.key);
    var w, n := W.Requested(t), |s.withdrawals|;
    var known := s.(withdrawals := s.withdrawals + [w]);
    assert Transfers.Opened(s, t) == known;
    FirstLockIsOwn(s, t, f.lockReaches);
    LockCall(s.books, t.account, t.amount, WithdrawLockKey(t.key), Named(t.key), f.lockReaches);
    var locked := Call(s.books, WithdrawLockRequest(t), f.lockReaches).books;
    UnlockCall(locked, t.account, t.amount, CompensateKey(t.key), Named(t.key), f.unlockReaches);
    FirstAttempt(env, known, n, f);
  }

  /** The first attempt of a request: lock, and insert or compensate. */
  lemma {:induction false} FirstAttempt(env: W.Environment, s: State, i: nat, f: Transfers.RequestFaults)
    requires i < |s.withdrawals| && s.withdrawals[i] == W.Requested(s.withdrawals[i].terms)
    ensures var t := s.withdrawals[i].terms;
            var r := Call(s.books, WithdrawLockRequest(t), f.lockReaches);
            var u := Transfers.AttemptSteps(env, s, i, 0, f);
            var secured := r.accepted && r.applied && f.lockAcknowledged;
            && |u.withdrawals| == |s.withdrawals| && u.withdrawals == s.withdrawals[i := u.withdrawals[i]]
            && u.withdrawals[i].terms == t
            && u.withdrawals[i].status == (if secured && f.inserts then W.PENDING else W.REQUESTED)
            && u.books == if secured && !f.inserts then Call(r.books, CompensateRequest(t), f.unlockReaches).books
                          else r.books
  {
    hide Call;
  }

  /** The books answer a withdrawal's debit and unlock with success only by applying them. */
  predicate Unanswered(b: Books, t: W.Terms, reaches: bool)
  {
    && (Call(b, DebitRequest(t), reaches).accepted <==> Call(b, DebitRequest(t), reaches).applied)
    && (Call(b, WithdrawUnlockRequest(t), reaches).accepted <==> Call(b, WithdrawUnlockRequest(t), reaches).applied)
  }

  /** The withdrawal and the books after a debit, or an unlock, by the agent that decided so. */
  lemma {:induction false} Finishes(env: W.Environment, s: State, i: nat, agent: nat, f: Transfers.Faults)
    requires i < |s.withdrawals| && agent < |s.withdrawals[i].agents|
    requires s.withdrawals[i].agents[agent] == W.DEBITING || s.withdrawals[i].agents[agent] == W.UNLOCKING
    requires !s.withdrawals[i].debited && !s.withdrawals[i].unlocked
    requires Unanswered(s.books, s.withdrawals[i].terms, f.ledgerReaches)
    ensures var w, u := s.withdrawals[i], Transfers.FinishSteps(env, s, i, agent, f);
            && EndsWith(s, i, w.agents[agent] == W.DEBITING, f, u)
            && i < |u.withdrawals| && u.withdrawals[i].hash == w.hash && u.withdrawals[i].broadcasts == w.broadcasts
  {
    hide Call, Moved, NewTo, HasLocked, StepSaga;
    var w := s.withdrawals[i];
    var t := w.terms;
    DebitCall(s.books, t.account, t.amount, DebitKey(t.id), Named(t.id), f.ledgerReaches);
    UnlockCall(s.books, t.account, t.amount, WithdrawUnlockKey(t.key), Named(t.id), f.ledgerReaches);
    if w.agents[agent] == W.DEBITING {
      var r := Call(s.books, DebitRequest(t), f.ledgerReaches);
      Transfers.DebitMove(env, s, i, agent, f.ledgerAcknowledged, f.ledgerReaches);
      if r.applied && f.ledgerAcknowledged {
        var debited := w.(debited := true, agents := w.agents[agent := W.COMPLETING]);
        LastMove(env, s.(books := r.books, withdrawals := s.withdrawals[i := debited]), i, agent, f.stores);
      }
    } else {
      var r := Call(s.books, WithdrawUnlockRequest(t), f.ledgerReaches);
      Transfers.UnlockMove(env, s, i, agent, f.ledgerAcknowledged, f.ledgerReaches);
      var unlocked := w.(unlocked := r.applied, agents := w.agents[agent := W.FAILING]);
      LastMove(env, s.(books := r.books, withdrawals := s.withdrawals[i := unlocked]), i, agent, f.stores);
    }
  }

  /** The final status is stored, if that works. */
  lemma {:induction false} LastMove(env: W.Environment, s: State, i: nat, agent: nat, stores: bool)
    requires i < |s.withdrawals| && agent < |s.withdrawals[i].agents|
    requires s.withdrawals[i].agents[agent] == W.COMPLETING || s.withdrawals[i].agents[agent] == W.FAILING
    ensures var w := s.withdrawals[i];
            var status := if !stores then w.status else if w.agents[agent] == W.COMPLETING then W.COMPLETED else W.FAILED;
            StepSaga(env, s, i, W.Move(agent, W.Went(stores, false)), true)
            == s.(withdrawals := s.withdrawals[i := w.(status := status, agents := w.agents[agent := W.GONE])])
  {
  }

  /** The debit or unlock of a withdrawal that has had neither is accepted exactly if it is applied. */
  lemma {:induction false} OwnEntry(s: State, i: nat, reaches: bool)
    requires Inv(s) && i < |s.withdrawals| && !s.withdrawals[i].debited && !s.withdrawals[i].unlocked
    ensures Unanswered(s.books, s.withdrawals[i].terms, reaches)
  {
    hide Inv;
    var t := s.withdrawals[i].terms;
    FlagsAreEntries(s, i);
    CallPosts(s.books, DebitRequest(t), reaches);
    CallPosts(s.books, WithdrawUnlockRequest(t), reaches);
  }

  /**
   How a withdrawal ends. A debit takes the amount out of the locked balance if its call arrives, its key is new and so
   much is locked; the withdrawal is completed if it did and that was acknowledged, and otherwise left as it is. An unlock
   makes the amount available again on the same conditions, and the withdrawal is failed whatever became of it. A final
   status that cannot be stored is not.
   */
  predicate EndsWith(s: State, i: nat, debits: bool, f: Transfers.Faults, u: State)
  {
    i < |s.withdrawals| && i < |u.withdrawals| &&
    var t, w := s.withdrawals[i].terms, u.withdrawals[i];
    var covered := f.ledgerReaches && 0 < t.amount && HasLocked(s.books, t.account, t.amount);
    var debited := debits && covered && NewTo(s.books.rows, "withdrawal-debit:" + t.id);
    var unlocked := !debits && covered && NewTo(s.books.rows, "withdrawal-unlock:" + t.key);
    && w.terms == t && w.debited == debited && w.unlocked == unlocked
    && w.status == (if !f.stores then s.withdrawals[i].status
                    else if debited && f.ledgerAcknowledged then W.COMPLETED
                    else if debits then s.withdrawals[i].status
                    else W.FAILED)
    && u.books == (if debited then Moved(s.books, t.account, WITHDRAWAL, t.amount, 0, 0 - t.amount,
                                         "withdrawal-debit:" + t.id, Named(t.id))
                   else if unlocked then Moved(s.books, t.account, UNLOCK, t.amount, t.amount, 0 - t.amount,
                                               "withdrawal-unlock:" + t.key, Named(t.id))
                   else s.books)
    && u == s.(books := u.books, withdrawals := s.withdrawals[i := w])
  }

  /**
   A claimed withdrawal ends with a debit if it is sent, its hash is stored and the receipt comes in and is a success, and
   with an unlock if anything of that fails. The hash is stored exactly if sending and storing worked, and the transaction
   went out if the chain took it, whatever the sender was told.
   */
  lemma {:induction false} ExecutionEnds(env: W.Environment, s: State, i: nat, agent: nat, f: Transfers.Faults)
    requires Inv(s) && i < |s.withdrawals| && agent < |s.withdrawals[i].agents|
    requires s.withdrawals[i].agents[agent] == W.CLAIMED && Transfers.Possible(env, f)
    ensures var u := Transfers.ExecuteSteps(env, s, i, agent, f);
            && i < |u.withdrawals| && u.withdrawals[i].hash == (f.sends && f.records)
            && u.withdrawals[i].broadcasts == (if f.sends || f.chainTakes then 1 else 0)
            && EndsWith(s, i, f.sends && f.records && f.waits && s.withdrawals[i].terms.receipt, f, u)
  {
    hide Inv, Transfers.FinishSteps, Transfers.FailSteps, Transfers.ExecuteSteps, Unanswered, EndsWith;
    var w := s.withdrawals[i];
    ClaimedIsFresh(s, i, agent);
    OwnEntry(s, i, f.ledgerReaches);
    var debits := f.sends && f.records && f.waits && w.terms.receipt;
    var waited := w.(hash := f.sends && f.records, broadcasts := if f.sends || f.chainTakes then 1 else 0,
                     agents := w.agents[agent := if debits then W.DEBITING else W.UNLOCKING]);
    SentAndWaited(env, s, i, agent, f);
    Finishes(env, s.(withdrawals := s.withdrawals[i := waited]), i, agent, f);
    EndsAlike(s, i, waited, debits, f, Transfers.ExecuteSteps(env, s, i, agent, f));
  }

  lemma EndsAlike(s: State, i: nat, w: W.Withdrawal, debits: bool, f: Transfers.Faults, u: State)
    requires i < |s.withdrawals| && w.terms == s.withdrawals[i].terms && w.status == s.withdrawals[i].status
    requires EndsWith(s.(withdrawals := s.withdrawals[i := w]), i, debits, f, u)
    ensures EndsWith(s, i, debits, f, u)
  {
    hide Moved, NewTo, HasLocked;
    assert s.withdrawals[i := w][i := u.withdrawals[i]] == s.withdrawals[i := u.withdrawals[i]];
  }

  /** Recovery of a claimed withdrawal with a stored hash that has had neither debit nor unlock ends the same way. */
  lemma {:induction false} RecoveryEnds(env: W.Environment, s: State, i: nat, f: Transfers.Faults)
    requires Inv(s) && i < |s.withdrawals| && f.waits
    requires var w := s.withdrawals[i]; w.status == W.PROCESSING && w.hash && !w.debited && !w.unlocked
    ensures EndsWith(s, i, s.withdrawals[i].terms.receipt, f, Transfers.RecoverSteps(env, s, i, f))
  {
    hide Inv, Transfers.FinishSteps, Unanswered, EndsWith;
    var w := s.withdrawals[i];
    OwnEntry(s, i, f.ledgerReaches);
    Transfers.NoCallMoves(env, s, i, W.Recover);
    var woken := w.(agents := w.agents + [if w.terms.receipt then W.DEBITING else W.UNLOCKING]);
    Finishes(env, s.(withdrawals := s.withdrawals[i := woken]), i, |w.agents|, f);
    EndsAlike(s, i, woken, w.terms.receipt, f, Transfers.RecoverSteps(env, s, i, f));
  }

  /** Recovery of one whose debit is in the ledger already only completes it: the repeated debit is a replay. */
  lemma {:induction false} RecoveryCompletes(env: W.Environment, s: State, i: nat, f: Transfers.Faults)
    requires Inv(s) && i < |s.withdrawals| && s.withdrawals[i].terms.amount > 0
    requires f.waits && f.ledgerReaches && f.ledgerAcknowledged && f.stores
    requires var w := s.withdrawals[i]; w.status == W.PROCESSING && w.hash && w.debited
    ensures var u := Transfers.RecoverSteps(env, s, i, f);
            && u.books == s.books && i < |u.withdrawals| && u.withdrawals[i].status == W.COMPLETED
            && u == s.(withdrawals := s.withdrawals[i := u.withdrawals[i]])
  {
    hide Inv, Call;
    var w := s.withdrawals[i];
    DebitReplays(s, i);
    Transfers.NoCallMoves(env, s, i, W.Recover);
    var woken := s.(withdrawals := s.withdrawals[i := w.(agents := w.agents + [W.DEBITING])]);
    Transfers.DebitMove(env, woken, i, |w.agents|, true, true);
  }

  lemma {:induction false} FailureIsStored(env: W.Environment, s: State, i: nat, agent: nat, f: Transfers.Faults)
    requires Transfers.AgentAt(s, i, agent, W.UNLOCKING) && f.stores
    ensures var u := Transfers.FailSteps(env, s, i, agent, f);
            |u.withdrawals| == |s.withdrawals| && u.withdrawals[i].status == W.FAILED
            && u.withdrawals == s.withdrawals[i := u.withdrawals[i]]
  {
    hide Call, StepSaga;
    Transfers.UnlockMove(env, s, i, agent, f.ledgerAcknowledged, f.ledgerReaches);
    var r := Call(s.books, WithdrawUnlockRequest(s.withdrawals[i].terms), f.ledgerReaches);
    var w := s.withdrawals[i];
    var unlocked := w.(unlocked := w.unlocked || r.applied, agents := w.agents[agent := W.FAILING]);
    LastMove(env, s.(books := r.books, withdrawals := s.withdrawals[i := unlocked]), i, agent, true);
  }

  lemma {:induction false} RecoveryTouchesOne(env: W.Environment, s: State, i: nat, f: Transfers.Faults)
    ensures var u := Transfers.RecoverSteps(env, s, i, f);
            && |u.withdrawals| == |s.withdrawals|
            && (forall k :: 0 <= k < |s.withdrawals| && k != i ==> u.withdrawals[k] == s.withdrawals[k])
  {
    hide Call, W.Step;
  }

  lemma {:induction false} RecoveryFails(env: W.Environment, s: State, i: nat, f: Transfers.Faults)
    requires i < |s.withdrawals| && f.waits && f.stores
    requires var w := s.withdrawals[i]; w.status == W.PROCESSING && w.hash && !w.terms.receipt
    ensures var u := Transfers.RecoverSteps(env, s, i, f);
            i < |u.withdrawals| && u.withdrawals[i].status == W.FAILED
  {
    hide StepSaga, Transfers.FailSteps, Transfers.CompleteSteps;
    Transfers.NoCallMoves(env, s, i, W.Recover);
    FailureIsStored(env, StepSaga(env, s, i, W.Recover, true), i, |s.withdrawals[i].agents|, f);
  }

  /** A start-up recovery gets to every stuck request: each whose transaction was reverted is failed. */
  lemma {:induction false} RecoveryReachesAll(env: W.Environment, s: State, at: seq<nat>, stuck: seq<nat>,
                                              f: nat -> Transfers.Faults, k: nat)
    requires forall j :: 0 <= j < |stuck| ==> stuck[j] < |at|
    requires forall j, l :: 0 <= j < l < |stuck| ==> at[stuck[j]] != at[stuck[l]]
    requires k < |stuck| && at[stuck[k]] < |s.withdrawals| && f(stuck[k]).waits && f(stuck[k]).stores
    requires var w := s.withdrawals[at[stuck[k]]]; w.status == W.PROCESSING && w.hash && !w.terms.receipt
    ensures var u := Transfers.RecoverAllSteps(env, s, at, stuck, f);
            at[stuck[k]] < |u.withdrawals| && u.withdrawals[at[stuck[k]]].status == W.FAILED
  {
    hide Transfers.RecoverSteps;
    var init, j := stuck[..|stuck| - 1], stuck[|stuck| - 1];
    var before := Transfers.RecoverAllSteps(env, s, at, init, f);
    RecoveryTouchesOne(env, before, at[j], f(j));
    if k < |init| {
      RecoveryReachesAll(env, s, at, init, f, k);
    } else {
      RecoveryLeavesOthers(env, s, at, init, f, at[j]);
      RecoveryFails(env, before, at[j], f(j));
    }
  }

  lemma {:induction false} RecoveryLeavesOthers(env: W.Environment, s: State, at: seq<nat>, stuck: seq<nat>,
                                                f: nat -> Transfers.Faults, i: nat)
    requires forall j :: 0 <= j < |stuck| ==> stuck[j] < |at| && at[stuck[j]] != i
    requires i < |s.withdrawals|
    ensures var u := Transfers.RecoverAllSteps(env, s, at, stuck, f);
            |u.withdrawals| == |s.withdrawals| && u.withdrawals[i] == s.withdrawals[i]
  {
    hide Transfers.RecoverSteps;
    if stuck != [] {
      var init, j := stuck[..|stuck| - 1], stuck[|stuck| - 1];
      RecoveryLeavesOthers(env, s, at, init, f, i);
      RecoveryTouchesOne(env, Transfers.RecoverAllSteps(env, s, at, init, f), at[j], f(j));
    }
  }

  lemma {:induction false} DebitReplays(s: State, i: nat)
    requires Inv(s) && i < |s.withdrawals| && s.withdrawals[i].terms.amount > 0 && s.withdrawals[i].debited
    ensures s.withdrawals[i].terms.receipt
    ensures Call(s.books, DebitRequest(s.withdrawals[i].terms), true) == Reply(s.books, false, true)
  {
    hide MarketOk, ChannelOk, FourRowsEach, TradesEntered, CreatesOk, OrdersLinked, CancelsOk, CancelsEntered,
         WithdrawalsOk, LockedOk, CoveredOk, W.Sound;
    FlagsAreEntries(s, i);
    SoundDebit(s.withdrawals[i]);
    FindKeyMeaning(s.books.rows, DebitKey(s.withdrawals[i].terms.id));
  }

  lemma SoundDebit(w: W.Withdrawal)
    requires W.Sound(w) && w.debited
    ensures w.terms.receipt
  {
  }

  lemma {:induction false} ClaimedIsFresh(s: State, i: nat, agent: nat)
    requires Inv(s) && i < |s.withdrawals| && agent < |s.withdrawals[i].agents|
    requires s.withdrawals[i].agents[agent] == W.CLAIMED
    ensures var w := s.withdrawals[i];
            !w.hash && w.broadcasts == 0 && !w.debited && !w.unlocked && w.status == W.PROCESSING
  {
    hide Inv;
    FlagsAreEntries(s, i);
    assert W.AgentSound(s.withdrawals[i], s.withdrawals[i].agents[agent]);
  }

  /** Sending, storing the hash and waiting, up to the decision. */
  lemma {:induction false} SentAndWaited(env: W.Environment, s: State, i: nat, agent: nat, f: Transfers.Faults)
    requires i < |s.withdrawals| && agent < |s.withdrawals[i].agents| && Transfers.Possible(env, f)
    requires s.withdrawals[i].agents[agent] == W.CLAIMED && s.withdrawals[i].broadcasts == 0 && !s.withdrawals[i].hash
    ensures var w := s.withdrawals[i];
            var debits := f.sends && f.records && f.waits && w.terms.receipt;
            var waited := w.(hash := f.sends && f.records, broadcasts := if f.sends || f.chainTakes then 1 else 0,
                             agents := w.agents[agent := if debits then W.DEBITING else W.UNLOCKING]);
            Transfers.ExecuteSteps(env, s, i, agent, f)
            == Transfers.FinishSteps(env, s.(withdrawals := s.withdrawals[i := waited]), i, agent, f)
  {
    hide Transfers.FinishSteps, Transfers.FailSteps, Transfers.ExecuteSteps, StepSaga;
    if f.sends {
      SentEnds(env, s, i, agent, f);
    } else {
      UnsentEnds(env, s, i, agent, f);
    }
  }

  lemma {:induction false} UnsentEnds(env: W.Environment, s: State, i: nat, agent: nat, f: Transfers.Faults)
    requires i < |s.withdrawals| && agent < |s.withdrawals[i].agents| && Transfers.Possible(env, f) && !f.sends
    requires s.withdrawals[i].agents[agent] == W.CLAIMED && s.withdrawals[i].broadcasts == 0
    ensures var w := s.withdrawals[i].(broadcasts := if f.chainTakes then 1 else 0);
            Transfers.ExecuteSteps(env, s, i, agent, f)
            == Transfers.FinishSteps(env, WithAgent(s, i, agent, w, W.UNLOCKING), i, agent, f)
  {
    hide Transfers.FinishSteps, Transfers.FailSteps, StepSaga;
    QuietMove(env, s, i, agent, false, f.chainTakes);
    UnlockerFails(env, s, i, agent, s.withdrawals[i].(broadcasts := if f.chainTakes then 1 else 0), f);
  }

  lemma {:induction false} SentEnds(env: W.Environment, s: State, i: nat, agent: nat, f: Transfers.Faults)
    requires i < |s.withdrawals| && agent < |s.withdrawals[i].agents| && Transfers.Possible(env, f) && f.sends
    requires s.withdrawals[i].agents[agent] == W.CLAIMED && s.withdrawals[i].broadcasts == 0 && !s.withdrawals[i].hash
    ensures var w := s.withdrawals[i].(broadcasts := 1, hash := f.records);
            var debits := f.records && f.waits && w.terms.receipt;
            Transfers.ExecuteSteps(env, s, i, agent, f)
            == Transfers.FinishSteps(env, WithAgent(s, i, agent, w, if debits then W.DEBITING else W.UNLOCKING), i, agent,
                                     f)
  {
    hide Transfers.FinishSteps, Transfers.FailSteps, StepSaga;
    var sent := s.withdrawals[i].(broadcasts := 1);
    QuietMove(env, s, i, agent, true, f.chainTakes);
    NextMove(env, s, i, agent, sent, W.SENT, f.records);
    if !f.records {
      UnlockerFails(env, s, i, agent, sent, f);
    } else {
      NextMove(env, s, i, agent, sent.(hash := true), W.WAITING, f.waits);
    }
  }

  /** A withdrawal with its agent somewhere else. */
  function WithAgent(s: State, i: nat, agent: nat, w: W.Withdrawal, a: W.Agent): State
    requires i < |s.withdrawals| && agent < |w.agents|
  {
    s.(withdrawals := s.withdrawals[i := w.(agents := w.agents[agent := a])])
  }

  lemma {:induction false} NextMove(env: W.Environment, s: State, i: nat, agent: nat, w: W.Withdrawal, a: W.Agent,
                                    ok: bool)
    requires i < |s.withdrawals| && agent < |w.agents| && (a == W.SENT || a == W.WAITING)
    requires ok || (a == W.SENT && env.recordMayThrow) || (a == W.WAITING && env.waitMayThrow)
    ensures var next := if !ok then W.UNLOCKING
                        else if a == W.SENT then W.WAITING
                        else if w.terms.receipt then W.DEBITING else W.UNLOCKING;
            Transfers.Moved(env, WithAgent(s, i, agent, w, a), i, agent, ok)
            == WithAgent(s, i, agent, w.(hash := w.hash || (a == W.SENT && ok)), next)
  {
    hide StepSaga;
    var v := WithAgent(s, i, agent, w, a);
    QuietMove(env, v, i, agent, ok, false);
    var next := if !ok then W.UNLOCKING
                else if a == W.SENT then W.WAITING
                else if w.terms.receipt then W.DEBITING else W.UNLOCKING;
    var moved := w.(hash := w.hash || (a == W.SENT && ok), agents := w.agents[agent := next]);
    assert w.agents[agent := a][agent := next] == w.agents[agent := next];
    assert v.withdrawals[i := moved] == s.withdrawals[i := moved];
  }

  lemma {:induction false} UnlockerFails(env: W.Environment, s: State, i: nat, agent: nat, w: W.Withdrawal,
                                         f: Transfers.Faults)
    requires i < |s.withdrawals| && agent < |w.agents|
    ensures var v := WithAgent(s, i, agent, w, W.UNLOCKING);
            Transfers.FinishSteps(env, v, i, agent, f) == Transfers.FailSteps(env, v, i, agent, f)
  {
    hide Transfers.FailSteps;
  }

  /** A move that sends, stores or waits touches its withdrawal only. */
  lemma {:induction false} QuietMove(env: W.Environment, s: State, i: nat, agent: nat, ok: bool, taken: bool)
    requires i < |s.withdrawals| && agent < |s.withdrawals[i].agents|
    requires s.withdrawals[i].agents[agent] in {W.CLAIMED, W.SENT, W.WAITING}
    ensures var w := s.withdrawals[i];
            var a := w.agents[agent];
            var next := if !ok then W.UNLOCKING
                        else match a
                          case CLAIMED => W.SENT
                          case SENT => W.WAITING
                          case _ => if w.terms.receipt then W.DEBITING else W.UNLOCKING;
            var moved := w.(broadcasts := w.broadcasts + if a == W.CLAIMED && (ok || taken) then 1 else 0,
                            hash := w.hash || (a == W.SENT && ok), agents := w.agents[agent := next]);
            (ok || (a == W.CLAIMED && (taken ==> env.sendMayThrow)) || (a == W.SENT && env.recordMayThrow)
             || (a == W.WAITING && env.waitMayThrow)) ==>
              StepSaga(env, s, i, W.Move(agent, W.Went(ok, taken)), true) == s.(withdrawals := s.withdrawals[i := moved])
  {
    var e := W.Move(agent, W.Went(ok, taken));
    QuietStep(env, s, i, e);
    hide StepSaga;
  }

  lemma {:induction false} QuietStep(env: W.Environment, s: State, i: nat, e: W.Event)
    requires i < |s.withdrawals| && LedgerCall(s.withdrawals[i], e).None?
    ensures StepSaga(env, s, i, e, true) == s.(withdrawals := s.withdrawals[i := W.Step(env, s.withdrawals[i], e)])
  {
    hide W.Step;
  }
}
