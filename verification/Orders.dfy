/**
 The orders service. Each public method runs step by step over its tables, the live book and the accounts service, and
 moves the shared state of the whole exchange by the machine's steps.
 */
module Orders {
  import opened Wrappers
  import opened Domain
  import Money
  import Sums
  import opened Ledger
  import opened OrderBook
  import opened Matching
  import opened Agreement
  import opened Reservations
  import opened Delivery
  import opened Exchange
  import opened Safety
  import opened Shared

  datatype RecordStatus = IN_PROGRESS | COMPLETED | FAILED

  /** What the request hash stands for: two requests have the same hash only if they are equal. */
  datatype Request = Request(user: UserId, pair: Pair, side: Side, price: nat, amount: nat)

  datatype Record = Record(request: Request, key: string, status: RecordStatus, response: Option<Order>)

  /** The idempotency_records table: unique on (user, operation, key). */
  class IdempotencyRepository {
    var records: seq<Record>

    constructor ()
      ensures records == []
    {
      records := [];
    }

    /** The record of a user's key, unless it has expired. */
    method FindRecord(user: UserId, key: string, expired: bool) returns (found: Option<Record>)
      ensures found.Some? ==> found.value in records && found.value.request.user == user && found.value.key == key
      ensures found.Some? <==> HasRecord(records, user, key) && !expired
    {
      found := None;
      var i := 0;
      while i < |records|
        invariant 0 <= i <= |records|
        invariant !HasRecord(records[..i], user, key)
      {
        assert records[..i + 1] == records[..i] + [records[i]];
        if records[i].request.user == user && records[i].key == key {
          assert HasRecord(records, user, key);
          found := if expired then None else Some(records[i]);
          return;
        }
        i := i + 1;
      }
      assert records[..i] == records;
    }

    /** The insert fails on the unique index, expired records included. */
    method CreateRecord(record: Record) returns (created: bool)
      modifies this
      ensures created <==> !HasRecord(old(records), record.request.user, record.key)
      ensures records == old(records) + (if created then [record] else [])
    {
      var i := 0;
      while i < |records|
        invariant 0 <= i <= |records| && records == old(records)
        invariant forall j :: 0 <= j < i ==>
                    records[j].request.user != record.request.user || records[j].key != record.key
      {
        if records[i].request.user == record.request.user && records[i].key == record.key {
          return false;
        }
        i := i + 1;
      }
      records := records + [record];
      return true;
    }

    method CompleteRecord(id: nat, response: Order)
      requires id < |records|
      modifies this
      ensures records == old(records)[id := old(records)[id].(status := COMPLETED, response := Some(response))]
    {
      records := records[id := records[id].(status := COMPLETED, response := Some(response))];
    }

    method FailRecord(id: nat)
      requires id < |records|
      modifies this
      ensures records == old(records)[id := old(records)[id].(status := FAILED)]
    {
      records := records[id := records[id].(status := FAILED)];
    }
  }

  predicate HasRecord(records: seq<Record>, user: UserId, key: string)
  {
    exists i :: 0 <= i < |records| && records[i].request.user == user && records[i].key == key
  }

  /** The records are the machine's create calls; a completed one answers with the order it stored. */
  predicate RecordsMatch(records: seq<Record>, creates: seq<Create>)
  {
    && |records| == |creates|
    && forall i :: 0 <= i < |records| ==> RecordMatches(records[i], creates[i])
  }

  predicate RecordMatches(r: Record, c: Create)
  {
    && r.key == c.key && r.request == Request(c.user, c.pair, c.side, c.price, c.amount)
    && (r.status == COMPLETED ==> c.phase == STORED && r.response.Some? && Stored(c, r.response.value))
  }

  /** The pending outbox rows are the machine's pending trades; a trade has one row. */
  predicate OutboxMatches(rows: seq<OutboxRow>, s: State)
  {
    && PendingTrades(rows) == s.channel.pending && OneRowPerTrade(rows)
    && forall i :: 0 <= i < |rows| && rows[i].TradeEvent? ==> rows[i].trade < |s.trades|
  }

  /** How the outside calls and the transaction of one createOrder call go. */
  datatype Faults = Faults(expired: bool, lockReaches: bool, lockAcknowledged: bool, commits: bool, unlockReaches: bool)

  datatype Answer =
    | Item(order: Order)
    | InvalidRequest
    | InProgress
    | PayloadMismatch
    | DuplicateRecord
    | PaymentRequired
    | TransactionFailed
    | NotFound
    | AlreadyCancelled
    | AlreadyFilled

  /** The events of a createOrder call that got its idempotency record. */
  function CreateSteps(s: State, r: Request, key: string, f: Faults): State
  {
    FromRecord(StepBeginCreate(s, r.user, r.pair, r.side, r.price, r.amount, key), |s.creates|, f)
  }

  function FromRecord(s: State, id: nat, f: Faults): State
  {
    var locked := StepLockFunds(s, id, f.lockReaches, f.lockAcknowledged);
    if id >= |locked.creates| || locked.creates[id].phase != LOCKED then locked
    else if f.commits then StepCommit(locked, id)
    else StepCompensate(StepAbort(locked, id), id, f.unlockReaches)
  }

  /** A new, valid request runs the machine's steps and answers with the stored order, if it came to that. */
  predicate NewCall(before: State, after: State, r: Request, key: string, f: Faults, answer: Answer)
  {
    && after == CreateSteps(before, r, key, f) && |after.creates| == |before.creates| + 1
    && (answer.Item? <==> after.creates[|before.creates|].phase == STORED)
    && (answer.Item? ==>
          |after.desk.rows| == |before.desk.rows| + 1 && answer.order == after.desk.rows[|before.desk.rows|])
    && (!answer.Item? ==> answer == FailureOf(after.creates[|before.creates|], f))
  }

  /** A create fails for want of a confirmed lock, or because its transaction did. */
  function FailureOf(c: Create, f: Faults): Answer
  {
    if c.lockApplied && f.lockAcknowledged then TransactionFailed else PaymentRequired
  }

  /**
   What a known key answers: a completed record its stored order, one in progress a conflict, a failed one a mismatch if
   the request is another. A failed record of the same request, and any that has expired, is in the way of a new one.
   */
  predicate AnswersKnown(records: seq<Record>, r: Request, key: string, expired: bool, answer: Answer)
  {
    forall i :: 0 <= i < |records| && records[i].request.user == r.user && records[i].key == key ==>
      if expired then answer == DuplicateRecord
      else match records[i].status
        case COMPLETED => answer.Item? && records[i].response == Some(answer.order)
        case IN_PROGRESS => answer == InProgress
        case FAILED => answer == if records[i].request == r then DuplicateRecord else PayloadMismatch
  }

  /** The record a new call leaves behind. */
  function RecordOf(r: Request, key: string, answer: Answer): Record
  {
    if answer.Item? then Record(r, key, COMPLETED, Some(answer.order)) else Record(r, key, FAILED, None)
  }

  /** Any other request changes nothing; it may be answered with the order its key stored. */
  predicate RepeatedCall(before: State, after: State, r: Request, key: string, answer: Answer)
  {
    && after == before
    && (answer.Item? ==>
          answer.order.user == r.user && answer.order.key == key
          && exists i :: 0 <= i < |before.creates| && Stored(before.creates[i], answer.order))
  }

  class OrdersService {
    const engine: MatchingEngineService
    const balances: BalancesRepository
    const idempotency: IdempotencyRepository
    const outbox: OutboxRepository
    ghost const world: World
    var trades: seq<Trade>

    ghost predicate Valid()
      reads this, world, engine.repository, engine.orderbook, balances, idempotency, outbox
    {
      && world.Valid()
      && balances.View() == world.exchange.books && engine.View() == world.exchange.desk
      && trades == world.exchange.trades && OutboxMatches(outbox.rows, world.exchange)
      && RecordsMatch(idempotency.records, world.exchange.creates)
    }

    constructor (engine: MatchingEngineService, balances: BalancesRepository, idempotency: IdempotencyRepository,
                 outbox: OutboxRepository, ghost world: World)
      requires world.Valid() && world.exchange == EMPTY && balances.View() == EMPTY.books && engine.View() == EMPTY.desk
      requires idempotency.records == [] && outbox.rows == []
      ensures Valid() && this.world == world
      ensures this.engine == engine && this.balances == balances && this.idempotency == idempotency
      ensures this.outbox == outbox
    {
      this.engine, this.balances, this.idempotency, this.outbox := engine, balances, idempotency, outbox;
      this.world, trades := world, [];
    }

    static method LockAmountOf(r: Request) returns (account: Account, amount: nat)
      ensures account == NewOrder(r.user, r.pair, r.side, r.price, r.amount, "").Funding()
      ensures amount == LockAmount(r.side, r.price, r.amount)
    {
      var isBuy := r.side == BUY;
      account := Account(r.user, if isBuy then r.pair.Quote() else r.pair.Base());
      amount := if isBuy then Money.MulHalfUp(r.price, r.amount) else r.amount;
    }

    /** The call to lock the funds; anything but an acknowledged success fails the record. */
    method LockFunds(id: nat, r: Request, key: string, reaches: bool, acknowledged: bool) returns (ok: bool)
      requires Valid() && id < |world.exchange.creates| && world.exchange.creates[id].phase == BEGUN
      requires idempotency.records[id].request == r && idempotency.records[id].key == key
      modifies balances, idempotency, world
      ensures Valid() && world.exchange == StepLockFunds(old(world.exchange), id, reaches, acknowledged)
      ensures |world.exchange.creates| == |old(world.exchange).creates|
      ensures world.exchange.desk == old(world.exchange).desk
      ensures ok <==> world.exchange.creates[id].phase == LOCKED
      ensures !ok ==> world.exchange.creates[id].phase == REJECTED
      ensures idempotency.records == if ok then old(idempotency.records)
                                     else old(idempotency.records)[id := old(idempotency.records)[id].(status := FAILED)]
    {
      hide Inv, Mutate, Stored;
      assert RecordMatches(idempotency.records[id], world.exchange.creates[id]);
      var account, lockAmount := LockAmountOf(r);
      ok := false;
      if reaches && lockAmount > 0 {
        var outcome := balances.Lock(account, lockAmount, "lock:" + key, Named(key));
        ok := (outcome.status == OK || outcome.status == IDEMPOTENT_REPLAY) && acknowledged;
      }
      if !ok {
        idempotency.FailRecord(id);
      }
      LockFundsKeeps(world.exchange, id, reaches, acknowledged);
      world.exchange := StepLockFunds(world.exchange, id, reaches, acknowledged);
    }

    /** The saga's compensation: the unlock may fail, the record is failed anyway. */
    method Compensate(id: nat, r: Request, key: string, reaches: bool)
      requires Valid() && id < |world.exchange.creates| && world.exchange.creates[id].phase == LOCKED
      requires idempotency.records[id].request == r && idempotency.records[id].key == key
      modifies balances, idempotency, world
      ensures Valid()
      ensures world.exchange == StepCompensate(StepAbort(old(world.exchange), id), id, reaches)
      ensures |world.exchange.creates| == |old(world.exchange).creates| && world.exchange.creates[id].phase == REJECTED
      ensures idempotency.records == old(idempotency.records)[id := old(idempotency.records)[id].(status := FAILED)]
    {
      hide Inv, Mutate, Stored;
      assert RecordMatches(idempotency.records[id], world.exchange.creates[id]);
      AbortKeeps(world.exchange, id);
      world.exchange := StepAbort(world.exchange, id);
      var account, lockAmount := LockAmountOf(r);
      if reaches && lockAmount > 0 {
        var outcome := balances.Unlock(account, lockAmount, "unlock:" + key, Named(key));
      }
      idempotency.FailRecord(id);
      CompensateKeeps(world.exchange, id, reaches);
      world.exchange := StepCompensate(world.exchange, id, reaches);
    }

    /** The outbox rows of a match: the placed order, its trades, and an event for every order it filled. */
    method BuildOutbox(id: OrderId, matched: seq<Trade>) returns (list: seq<OutboxRow>)
      ensures PendingTrades(list) == Interval(|trades|, |matched|) && TradesWithin(list, |trades|, |matched|)
    {
      hide TradesWithin, PendingTrades;
      list := [OrderEvent(false)];
      FirstRow(|trades|);
      var i := 0;
      while i < |matched|
        invariant 0 <= i <= |matched|
        invariant PendingTrades(list) == Interval(|trades|, i) && TradesWithin(list, |trades|, i)
      {
        TradeRow(list, |trades|, i);
        list := list + [TradeEvent(|trades| + i, false)];
        i := i + 1;
      }
      var taker := engine.repository.FindById(id);
      if taker.Some? && taker.value.status == FILLED {
        OrderRow(list, |trades|, |matched|);
        list := list + [OrderEvent(false)];
      }
      i := 0;
      while i < |matched|
        invariant 0 <= i <= |matched|
        invariant PendingTrades(list) == Interval(|trades|, |matched|) && TradesWithin(list, |trades|, |matched|)
      {
        var maker := engine.repository.FindById(if matched[i].buyOrder == id then matched[i].sellOrder
                                                else matched[i].buyOrder);
        if maker.Some? && maker.value.status == FILLED {
          OrderRow(list, |trades|, |matched|);
          list := list + [OrderEvent(false)];
        }
        i := i + 1;
      }
    }

    /** The unit of work: insert, match, write the outbox. */
    method OrderTransaction(id: nat, r: Request, key: string) returns (order: Order)
      requires Valid() && id < |world.exchange.creates| && world.exchange.creates[id].phase == LOCKED
      requires idempotency.records[id].request == r && idempotency.records[id].key == key
      modifies engine.repository, engine.orderbook, outbox, this, world
      ensures Valid() && world.exchange == StepCommit(old(world.exchange), id)
      ensures |world.exchange.creates| == |old(world.exchange).creates| && Stored(world.exchange.creates[id], order)
      ensures |world.exchange.desk.rows| == |old(world.exchange).desk.rows| + 1
      ensures order == world.exchange.desk.rows[|old(world.exchange).desk.rows|]
      ensures idempotency.records == old(idempotency.records)
    {
      hide Match, Inv;
      assert RecordMatches(idempotency.records[id], world.exchange.creates[id]);
      var initial := NewOrder(r.user, r.pair, r.side, r.price, r.amount, key);
      var orderId := engine.repository.Create(initial);
      var levelTotalQuantity := engine.orderbook.GetLevelTotalQuantity(r.pair, r.side, r.price);
      var matched := engine.ExecuteMatch(orderId);
      MatchKeepsRequest(Desk(old(engine.repository.rows) + [initial], old(engine.orderbook.View())), orderId);
      var list := BuildOutbox(orderId, matched);
      OutboxGrows(outbox.rows, list, world.exchange, StepCommit(world.exchange, id));
      outbox.InsertMany(list);
      trades := trades + matched;
      order := engine.repository.rows[orderId];
      CommitKeeps(world.exchange, id);
      world.exchange := StepCommit(world.exchange, id);
    }

    /** The answer to a request whose record is already there, if that settles it. */
    method CheckIdempotency(r: Request, key: string, expired: bool) returns (answer: Option<Answer>)
      requires Valid()
      ensures !HasRecord(idempotency.records, r.user, key) ==> answer == None
      ensures answer.Some? ==> RepeatedCall(world.exchange, world.exchange, r, key, answer.value)
      ensures HasRecord(idempotency.records, r.user, key) ==>
                AnswersKnown(idempotency.records, r, key, expired,
                             if answer.Some? then answer.value else DuplicateRecord)
    {
      hide Inv;
      OneRecordPerKey(idempotency.records, world.exchange);
      var existing := idempotency.FindRecord(r.user, key, expired);
      if existing.Some? {
        var i :| 0 <= i < |idempotency.records| && idempotency.records[i] == existing.value;
        assert RecordMatches(idempotency.records[i], world.exchange.creates[i]);
        if existing.value.status == COMPLETED {
          return Some(Item(existing.value.response.value));
        }
        if existing.value.status == IN_PROGRESS {
          return Some(InProgress);
        }
        if existing.value.request != r {
          return Some(PayloadMismatch);
        }
      }
      return None;
    }

    method Begin(r: Request, key: string) returns (created: bool)
      requires Valid() && r.price > 0 && r.amount > 0
      requires forall c :: c in world.exchange.creates && c.key == key ==> c.user == r.user
      modifies idempotency, world
      ensures Valid() && (created <==> !HasRecord(old(idempotency.records), r.user, key))
      ensures !created ==> world.exchange == old(world.exchange) && idempotency.records == old(idempotency.records)
      ensures created ==>
                && world.exchange == StepBeginCreate(old(world.exchange), r.user, r.pair, r.side, r.price, r.amount, key)
                && |world.exchange.creates| == |old(world.exchange).creates| + 1
                && world.exchange.creates[|old(world.exchange).creates|].phase == BEGUN
                && idempotency.records == old(idempotency.records) + [Record(r, key, IN_PROGRESS, None)]
    {
      hide Inv;
      created := idempotency.CreateRecord(Record(r, key, IN_PROGRESS, None));
      if created {
        NewKey(old(idempotency.records), world.exchange.creates, r.user, key);
        BeginCreateKeeps(world.exchange, r.user, r.pair, r.side, r.price, r.amount, key);
        world.exchange := StepBeginCreate(world.exchange, r.user, r.pair, r.side, r.price, r.amount, key);
      }
    }

    /** From the inserted record on: lock, transaction, and compensation or completion. */
    method RunCreate(id: nat, r: Request, key: string, f: Faults) returns (answer: Answer)
      requires Valid() && id < |world.exchange.creates| && world.exchange.creates[id].phase == BEGUN
      requires idempotency.records[id].request == r && idempotency.records[id].key == key
      modifies engine.repository, engine.orderbook, balances, idempotency, outbox, this, world
      ensures Valid() && world.exchange == FromRecord(old(world.exchange), id, f)
      ensures |world.exchange.creates| == |old(world.exchange).creates|
      ensures answer.Item? <==> world.exchange.creates[id].phase == STORED
      ensures answer.Item? ==> |world.exchange.desk.rows| == |old(world.exchange).desk.rows| + 1
                               && answer.order == world.exchange.desk.rows[|old(world.exchange).desk.rows|]
      ensures !answer.Item? ==> answer == FailureOf(world.exchange.creates[id], f)
      ensures idempotency.records
           == old(idempotency.records)[id := old(idempotency.records)[id].(
                status := if answer.Item? then COMPLETED else FAILED,
                response := if answer.Item? then Some(answer.order) else old(idempotency.records)[id].response)]
    {
      hide Inv, StepLockFunds, StepCommit, StepAbort, StepCompensate;
      UnconfirmedLock(world.exchange, id, f.lockReaches, f.lockAcknowledged);
      var locked := LockFunds(id, r, key, f.lockReaches, f.lockAcknowledged);
      if !locked {
        return PaymentRequired;
      }
      if !f.commits {
        LockedIsApplied(world.exchange, id);
        CompensationKeepsLock(world.exchange, id, f.unlockReaches);
        Compensate(id, r, key, f.unlockReaches);
        return TransactionFailed;
      }
      var order := OrderTransaction(id, r, key);
      idempotency.CompleteRecord(id, order);
      return Item(order);
    }

    /** Every createOrder call either changes nothing or takes exactly the machine's steps for it. */
    method CreateOrder(r: Request, key: string, f: Faults) returns (answer: Answer)
      requires Valid()
      requires forall c :: c in world.exchange.creates && c.key == key ==> c.user == r.user
      modifies engine.repository, engine.orderbook, balances, idempotency, outbox, this, world
      ensures Valid()
      ensures if r.price == 0 || r.amount == 0 || HasRecord(old(idempotency.records), r.user, key)
              then RepeatedCall(old(world.exchange), world.exchange, r, key, answer)
              else NewCall(old(world.exchange), world.exchange, r, key, f, answer)
      ensures OrdersMoved(old(world.exchange), world.exchange)
      ensures if r.price == 0 || r.amount == 0 then
                answer == InvalidRequest && idempotency.records == old(idempotency.records)
              else if HasRecord(old(idempotency.records), r.user, key) then
                AnswersKnown(old(idempotency.records), r, key, f.expired, answer)
                && idempotency.records == old(idempotency.records)
              else idempotency.records == old(idempotency.records) + [RecordOf(r, key, answer)]
    {
      hide Inv, AnswersKnown;
      if r.price == 0 || r.amount == 0 {
        return InvalidRequest;
      }
      var existing := CheckIdempotency(r, key, f.expired);
      if existing.Some? {
        return existing.value;
      }
      var id := |idempotency.records|;
      var created := Begin(r, key);
      if !created {
        return DuplicateRecord;
      }
      answer := RunCreate(id, r, key, f);
      CreateMoves(old(world.exchange), r, key, f);
    }

    /** cancelOrder: the book forgets the order first, the row is cancelled, and the rest is unlocked, or is not. */
    method CancelOrder(id: OrderId, user: UserId, key: string, unlockReaches: bool) returns (answer: Answer)
      requires Valid()
      modifies engine.repository, engine.orderbook, balances, outbox, world
      ensures Valid()
      ensures var rows := old(world.exchange).desk.rows;
              && (answer.NotFound? <==> id >= |rows| || rows[id].user != user)
              && (answer.AlreadyCancelled? ==> rows[id].status == CANCELLED)
              && (answer.AlreadyFilled? ==> rows[id].status == FILLED)
              && (answer.Item? ==> rows[id].Active() && answer.order == rows[id].(status := CANCELLED))
              && (answer.Item? || answer.NotFound? || answer.AlreadyCancelled? || answer.AlreadyFilled?)
      ensures world.exchange == StepUnlockCancelled(StepCancelOrder(old(world.exchange), id, user, key),
                                              |old(world.exchange).cancels|, unlockReaches)
      ensures OrdersMoved(old(world.exchange), world.exchange)
    {
      hide Inv;
      var found := engine.repository.FindById(id);
      if found.None? || found.value.user != user {
        return NotFound;
      }
      var existing := found.value;
      if existing.status == CANCELLED {
        return AlreadyCancelled;
      }
      if existing.status == FILLED {
        return AlreadyFilled;
      }
      engine.orderbook.RemoveOrder(id, existing.pair, existing.side);
      var levelTotalQuantity := engine.orderbook.GetLevelTotalQuantity(existing.pair, existing.side, existing.price);
      var updated := engine.repository.Cancel(id, user);
      OutboxGrows(outbox.rows, [OrderEvent(false)], world.exchange, StepCancelOrder(world.exchange, id, user, key));
      outbox.InsertMany([OrderEvent(false)]);
      CancelOrderKeeps(world.exchange, id, user, key);
      world.exchange := StepCancelOrder(world.exchange, id, user, key);
      var isBuy := existing.side == BUY;
      var account := Account(user, if isBuy then existing.pair.Quote() else existing.pair.Base());
      var unlockAmount := if isBuy then Money.MulHalfUp(existing.price, existing.remaining) else existing.remaining;
      if unlockAmount > 0 && unlockReaches {
        var outcome := balances.Unlock(account, unlockAmount, "cancel:" + key, OrderRef(id));
      }
      UnlockCancelledKeeps(world.exchange, |old(world.exchange).cancels|, unlockReaches);
      world.exchange := StepUnlockCancelled(world.exchange, |old(world.exchange).cancels|, unlockReaches);
      return Item(updated.value);
    }

    /**
     Cold-start reconciliation, whatever the book holds, nothing included: every open order is added. The book agrees with
     the table afterwards if and only if it held nothing stale.
     */
    method LoadBook()
      modifies engine.orderbook
      ensures engine.orderbook.View() == Rehydrated(engine.repository.rows, old(engine.orderbook.View()))
      ensures SetsSorted(old(engine.orderbook.View())) ==>
                (Agrees(engine.repository.rows, engine.orderbook.View(), |engine.repository.rows|)
                 <==> NothingStale(engine.repository.rows, old(engine.orderbook.View())))
    {
      hide Agrees, NothingStale, SetsSorted;
      var ids := engine.repository.FindActiveOrders();
      ActiveIdsMeaning(engine.repository.rows);
      var entries: seq<Entry> := [];
      var i := 0;
      while i < |ids|
        invariant 0 <= i <= |ids|
        invariant |entries| == i
        invariant forall k :: 0 <= k < i ==> entries[k] == Matching.EntryOf(engine.repository.rows, ids[k])
      {
        entries := entries + [Matching.EntryOf(engine.repository.rows, ids[i])];
        i := i + 1;
      }
      assert entries == ActiveEntries(engine.repository.rows, ids);
      engine.orderbook.Rehydrate(entries);
      if SetsSorted(old(engine.orderbook.View())) {
        RehydrationRestoresIff(engine.repository.rows, old(engine.orderbook.View()));
      }
    }

    /** A restart while the live book is still there. */
    method OnModuleInit()
      requires Valid()
      modifies engine.orderbook, world
      ensures Valid() && world.exchange == StepRehydrate(old(world.exchange))
      ensures OrdersMoved(old(world.exchange), world.exchange)
    {
      hide Inv, RecordsMatch, OutboxMatches;
      LoadBook();
      RehydrateKeeps(world.exchange);
      world.exchange := StepRehydrate(world.exchange);
    }
  }

  lemma CreateMoves(s: State, r: Request, key: string, f: Faults)
    ensures OrdersMoved(s, CreateSteps(s, r, key, f))
  {
    hide Call, Place;
    var begun := StepBeginCreate(s, r.user, r.pair, r.side, r.price, r.amount, key);
    RecordMoves(begun, |s.creates|, f);
  }

  lemma RecordMoves(s: State, id: nat, f: Faults)
    ensures OrdersMoved(s, FromRecord(s, id, f))
  {
    hide Call, Place;
    var locked := StepLockFunds(s, id, f.lockReaches, f.lockAcknowledged);
    assert OrdersMoved(s, locked);
    assert OrdersMoved(locked, StepCommit(locked, id));
    assert OrdersMoved(locked, StepCompensate(StepAbort(locked, id), id, f.unlockReaches));
  }

  /** A lock that was not confirmed was not applied, or its answer was lost. */
  lemma {:induction false} UnconfirmedLock(s: State, id: nat, reaches: bool, acknowledged: bool)
    requires id < |s.creates| && s.creates[id].phase == BEGUN
    ensures var t := StepLockFunds(s, id, reaches, acknowledged);
            && id < |t.creates| && (t.creates[id].phase != LOCKED ==> !(t.creates[id].lockApplied && acknowledged))
            && (t.creates[id].phase == LOCKED ==> acknowledged)
  {
    hide Call;
    AppliedIsAccepted(s.books, LockRequest(s.creates[id]), reaches);
  }

  lemma {:induction false} LockedIsApplied(s: State, id: nat)
    requires Inv(s) && id < |s.creates| && s.creates[id].phase == LOCKED
    ensures s.creates[id].lockApplied
  {
    hide LedgerOk, MarketOk, ChannelOk, FourRowsEach, TradesEntered, OrdersLinked, CancelsOk, CancelsEntered,
         WithdrawalsOk, LockedOk, CoveredOk;
    assert CreateOk(s.books.rows, s.creates[id]);
  }

  lemma CompensationKeepsLock(s: State, id: nat, reaches: bool)
    requires id < |s.creates|
    ensures var t := StepCompensate(StepAbort(s, id), id, reaches);
            id < |t.creates| && t.creates[id].lockApplied == s.creates[id].lockApplied
  {
    hide Call;
  }

  lemma AppliedIsAccepted(b: Books, m: Mutation, reaches: bool)
    ensures Call(b, m, reaches).applied ==> Call(b, m, reaches).accepted
  {
  }

  /** A user has one record of a key. */
  lemma {:induction false} OneRecordPerKey(records: seq<Record>, s: State)
    requires Inv(s) && RecordsMatch(records, s.creates)
    ensures forall i, j :: 0 <= i < j < |records| ==> records[i].key != records[j].key
  {
    hide LedgerOk, MarketOk, ChannelOk, FourRowsEach, TradesEntered, OrdersLinked, CancelsOk, CancelsEntered,
         WithdrawalsOk, LockedOk, CoveredOk;
    forall i, j | 0 <= i < j < |records| ensures records[i].key != records[j].key {
      assert RecordMatches(records[i], s.creates[i]) && RecordMatches(records[j], s.creates[j]);
      assert s.creates[i].key != s.creates[j].key;
    }
  }

  lemma NewKey(records: seq<Record>, creates: seq<Create>, user: UserId, key: string)
    requires RecordsMatch(records, creates) && !HasRecord(records, user, key)
    requires forall c :: c in creates && c.key == key ==> c.user == user
    ensures !KeyUsed(creates, key)
  {
    forall i | 0 <= i < |creates| ensures creates[i].key != key {
      assert RecordMatches(records[i], creates[i]) && creates[i] in creates;
    }
  }

  /** Each trade event of the list carries a different one of the given trades. */
  predicate TradesWithin(list: seq<OutboxRow>, first: nat, count: nat)
  {
    && OneRowPerTrade(list)
    && forall k :: 0 <= k < |list| && list[k].TradeEvent? ==> first <= list[k].trade < first + count
  }

  lemma FirstRow(first: nat)
    ensures PendingTrades([OrderEvent(false)]) == Interval(first, 0) && TradesWithin([OrderEvent(false)], first, 0)
  {
  }

  lemma OrderRow(list: seq<OutboxRow>, first: nat, count: nat)
    requires TradesWithin(list, first, count)
    ensures PendingTrades(list + [OrderEvent(false)]) == PendingTrades(list)
    ensures TradesWithin(list + [OrderEvent(false)], first, count)
  {
    PendingMore(list, OrderEvent(false));
  }

  lemma TradeRow(list: seq<OutboxRow>, first: nat, count: nat)
    requires PendingTrades(list) == Interval(first, count) && TradesWithin(list, first, count)
    ensures var more := list + [TradeEvent(first + count, false)];
            PendingTrades(more) == Interval(first, count + 1) && TradesWithin(more, first, count + 1)
  {
    PendingMore(list, TradeEvent(first + count, false));
  }

  /** New rows about new trades. */
  lemma OutboxGrows(rows: seq<OutboxRow>, list: seq<OutboxRow>, s: State, t: State)
    requires OutboxMatches(rows, s) && |s.trades| <= |t.trades|
    requires TradesWithin(list, |s.trades|, |t.trades| - |s.trades|)
    requires t.channel.pending == s.channel.pending + PendingTrades(list)
    ensures OutboxMatches(rows + list, t)
  {
    var all := rows + list;
    PendingConcat(rows, list);
    forall k | 0 <= k < |all| && all[k].TradeEvent? ensures all[k].trade < |t.trades| {
      if k >= |rows| {
        assert all[k] == list[k - |rows|];
      }
    }
    forall i, j | 0 <= i < j < |all| && all[i].TradeEvent? && all[j].TradeEvent? ensures all[i].trade != all[j].trade {
      if i >= |rows| {
        assert all[i] == list[i - |rows|] && all[j] == list[j - |rows|];
      } else if j >= |rows| {
        assert all[i] == rows[i] && all[j] == list[j - |rows|];
      }
    }
  }

  lemma PendingMore(rows: seq<OutboxRow>, row: OutboxRow)
    ensures PendingTrades(rows + [row])
         == PendingTrades(rows) + (if row.TradeEvent? && !row.published then {row.trade} else {})
  {
    PendingConcat(rows, [row]);
    if row.TradeEvent? && !row.published {
      assert [row][0].trade in PendingTrades([row]);
    }
  }

  lemma PendingConcat(one: seq<OutboxRow>, two: seq<OutboxRow>)
    ensures PendingTrades(one + two) == PendingTrades(one) + PendingTrades(two)
  {
    var all := one + two;
    forall t | t in PendingTrades(one) ensures t in PendingTrades(all) {
      var i :| 0 <= i < |one| && one[i].TradeEvent? && !one[i].published && one[i].trade == t;
      assert all[i] == one[i];
    }
    forall t | t in PendingTrades(two) ensures t in PendingTrades(all) {
      var i :| 0 <= i < |two| && two[i].TradeEvent? && !two[i].published && two[i].trade == t;
      assert all[|one| + i] == two[i];
    }
  }

  predicate SameTerms(a: Order, b: Order)
  {
    b == a.(filled := b.filled, remaining := b.remaining, status := b.status)
  }

  lemma {:induction false} FillsKeepRequest(d: Desk, side: Side, fills: seq<Fill>, id: OrderId)
    requires Fitting(fills) && id < |d.rows|
    ensures |ApplyFills(d, side, fills).rows| == |d.rows|
    ensures SameTerms(d.rows[id], ApplyFills(d, side, fills).rows[id])
  {
    if fills != [] {
      FillsKeepRequest(d, side, fills[..|fills| - 1], id);
    }
  }

  /** A match adds no row and leaves what an order asked for as it was. */
  lemma MatchKeepsRequest(d: Desk, id: OrderId)
    requires id < |d.rows|
    ensures |Match(d, id).0.rows| == |d.rows| && SameTerms(d.rows[id], Match(d, id).0.rows[id])
  {
    var o, fills := d.rows[id], TakerFills(d, id);
    FillsKeepRequest(d, o.side, fills, id);
    var traded := Sums.Sum(fills, Quantity());
    assert Match(d, id).0
        == SettleTaker(ApplyFills(d, o.side, fills), id, o.filled + traded, o.remaining - traded);
  }
}
