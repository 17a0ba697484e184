/**
 The services together, over one set of tables, one book, one accounts service and one log. Every operation of any of
 them moves the shared state by the machine's steps and leaves all the others in line with it.
 */
module Platform {
  import opened Wrappers
  import opened Domain
  import opened Ledger
  import opened Settlement
  import opened OrderBook
  import opened Matching
  import opened Delivery
  import opened Exchange
  import opened Safety
  import opened Shared
  import Guarantees
  import Orders
  import Transfers
  import W = Withdrawals

  /** The relay only marks rows. */
  lemma RelayedRows(o: Outbox, busy: set<nat>, sending: Sending, s: State)
    requires Orders.OutboxMatches(o.rows, s)
    ensures var rows := RelayBatch(o, busy, sending).rows;
            OneRowPerTrade(rows) && forall i :: 0 <= i < |rows| && rows[i].TradeEvent? ==> rows[i].trade < |s.trades|
  {
    var after := RelayBatch(o, busy, sending).rows;
    MarksOf(o.rows, PendingBatch(o.rows, busy, 0, BATCH_SIZE));
    assert |after| == |o.rows|;
    assert forall k :: 0 <= k < |after| ==> after[k] == o.rows[k] || after[k] == Marked(o.rows[k]);
  }

  lemma {:induction false} RelayKeeps(s: State, batch: seq<nat>, sent: nat, marked: bool)
    requires Inv(s)
    ensures Inv(s.(channel := Relay(s.channel, batch, sent, marked)))
  {
    hide Inv, ChannelOk;
    ChannelOf(s);
    RelayKeepsChannel(s.channel, |s.trades|, s.processed + s.deadLettered, batch, sent, marked);
    ChannelStepKeeps(s, Relay(s.channel, batch, sent, marked));
  }

  lemma OneMessage(trades: seq<Trade>, log: seq<nat>, p: Delivery.Progress, attempt: Delivery.Attempt)
    ensures ConsumeBatch(trades, log, p, [attempt]) == ConsumeOne(trades, log, p, attempt)
  {
  }

  lemma DeliverTouches(s: State, attempt: Delivery.Attempt)
    ensures var t := StepDeliver(s, attempt);
            t == s.(books := t.books, processed := t.processed, deadLettered := t.deadLettered,
                    channel := s.channel.(cursor := t.channel.cursor))
  {
    hide Handle;
  }

  class Platform {
    ghost const world: World
    const balances: BalancesRepository
    const orders: Orders.OrdersService
    const transfers: Transfers.TransfersService
    const processor: Transfers.WithdrawalProcessor
    const relay: OutboxRelayService
    const consumer: SettlementLoop

    /** All services work on the same tables. */
    ghost predicate Wired()
    {
      && orders.world == world && transfers.world == world && processor.world == world
      && orders.balances == balances && transfers.balances == balances && processor.balances == balances
      && transfers.repository == processor.repository && relay.repository == orders.outbox
      && consumer.consumer.balances == balances
    }

    /** The topic, and what the settlement consumer has done with it. */
    ghost predicate LogMatches()
      reads world, relay, consumer, consumer.consumer
    {
      && relay.matchingTopic == world.exchange.channel.log && consumer.cursor == world.exchange.channel.cursor
      && consumer.consumer.processed == world.exchange.processed
      && consumer.deadLettered == world.exchange.deadLettered
    }

    ghost predicate Valid()
      reads world, balances, orders, orders.engine.repository, orders.engine.orderbook, orders.idempotency
      reads orders.outbox, transfers.repository, relay, consumer, consumer.consumer
    {
      Wired() && orders.Valid() && transfers.Valid() && LogMatches()
    }

    constructor (orders: Orders.OrdersService, transfers: Transfers.TransfersService,
                 processor: Transfers.WithdrawalProcessor, relay: OutboxRelayService, consumer: SettlementLoop)
      requires orders.Valid() && transfers.Valid() && orders.world == transfers.world == processor.world
      requires orders.balances == transfers.balances == processor.balances == consumer.consumer.balances
      requires transfers.repository == processor.repository && relay.repository == orders.outbox
      requires relay.matchingTopic == orders.world.exchange.channel.log
      requires consumer.cursor == orders.world.exchange.channel.cursor
      requires consumer.consumer.processed == orders.world.exchange.processed
      requires consumer.deadLettered == orders.world.exchange.deadLettered
      ensures Valid() && world == orders.world && this.transfers == transfers && this.orders == orders
    {
      world, balances := orders.world, orders.balances;
      this.orders, this.transfers, this.processor := orders, transfers, processor;
      this.relay, this.consumer := relay, consumer;
    }

    method Deposit(onChain: bool, account: Account, amount: nat, key: string, reference: string)
      requires Valid()
      modifies balances, world
      ensures Valid() && world.exchange == StepDeposit(old(world.exchange), onChain, account, amount, key, reference)
    {
      hide Inv, Mutate, Transfers.RowsMatch, Orders.RecordsMatch;
      DepositKeeps(world.exchange, onChain, account, amount, key, reference);
      if amount > 0 {
        if onChain {
          var outcome := balances.CreditDeposit(account, amount, key, Named(reference));
        } else {
          var outcome := balances.Deposit(account, amount, key);
        }
      }
      world.exchange := StepDeposit(world.exchange, onChain, account, amount, key, reference);
    }

    method CreateOrder(r: Orders.Request, key: string, f: Orders.Faults) returns (answer: Orders.Answer)
      requires Valid()
      requires forall c :: c in world.exchange.creates && c.key == key ==> c.user == r.user
      modifies orders.engine.repository, orders.engine.orderbook, balances, orders.idempotency, orders.outbox
      modifies orders, world
      ensures Valid() && OrdersMoved(old(world.exchange), world.exchange)
      ensures if r.price == 0 || r.amount == 0 || Orders.HasRecord(old(orders.idempotency.records), r.user, key)
              then Orders.RepeatedCall(old(world.exchange), world.exchange, r, key, answer)
              else Orders.NewCall(old(world.exchange), world.exchange, r, key, f, answer)
    {
      hide Inv, Transfers.RowsMatch, Orders.RecordsMatch, Orders.NewCall, Orders.RepeatedCall;
      answer := orders.CreateOrder(r, key, f);
    }

    method CancelOrder(id: OrderId, user: UserId, key: string, unlockReaches: bool) returns (answer: Orders.Answer)
      requires Valid()
      modifies orders.engine.repository, orders.engine.orderbook, balances, orders.outbox, world
      ensures Valid()
      ensures world.exchange == StepUnlockCancelled(StepCancelOrder(old(world.exchange), id, user, key),
                                                    |old(world.exchange).cancels|, unlockReaches)
    {
      hide Inv, Transfers.RowsMatch, Orders.RecordsMatch, StepUnlockCancelled, StepCancelOrder;
      answer := orders.CancelOrder(id, user, key, unlockReaches);
    }

    method RequestWithdrawal(t: W.Terms, f: Transfers.RequestFaults) returns (answer: Transfers.RequestAnswer)
      requires Valid() && Transfers.MayRequest(world.env, world.exchange.withdrawals, t)
      modifies transfers.repository, balances, world
      ensures Valid() && TransfersMoved(old(world.exchange), world.exchange)
      ensures answer.Created? ==>
                && world.exchange == Transfers.RequestSteps(world.env, old(world.exchange), t, f)
                && transfers.repository.rows == old(transfers.repository.rows) + [answer.row]
                && answer.row.status == W.PENDING
    {
      hide Inv, Transfers.RowsMatch, Orders.RecordsMatch, Transfers.RequestSteps;
      answer := transfers.RequestWithdrawal(t, f);
    }

    method ProcessNextWithdrawal(f: Transfers.Faults) returns (processed: Option<nat>)
      requires Valid() && Transfers.Possible(world.env, f)
      modifies transfers.repository`rows, balances, world
      ensures Valid() && TransfersMoved(old(world.exchange), world.exchange)
      ensures processed.None? <==> (forall k :: 0 <= k < |old(transfers.repository.rows)| ==>
                                      old(transfers.repository.rows)[k].status != W.PENDING)
    {
      hide Inv, Transfers.RowsMatch, Orders.RecordsMatch, Transfers.ExecuteSteps;
      processed := processor.ProcessNextWithdrawal(f);
    }

    /** One batch of the relay: the table marks rows, the topic grows, and the machine takes its relay step. */
    method RelayOutbox(busy: set<nat>, sending: Sending)
      requires Valid()
      modifies relay, orders.outbox, world
      ensures Valid()
      ensures var s, rows := old(world.exchange), old(orders.outbox.rows);
              var batch := TradeRecords(rows, PendingBatch(rows, busy, 0, BATCH_SIZE));
              var sent := if sending.Interrupted? then sending.trades else 0;
              world.exchange == s.(channel := Relay(s.channel, batch, sent, sending.Acknowledged?))
    {
      hide Inv, Transfers.RowsMatch, Orders.RecordsMatch, RelayBatch, Relay, PendingBatch;
      ghost var before, c := relay.View(), world.exchange.channel;
      ghost var batch := TradeRecords(before.rows, PendingBatch(before.rows, busy, 0, BATCH_SIZE));
      ghost var sent := if sending.Interrupted? then sending.trades else 0;
      RelayBatchRefinesRelay(before, busy, sending, c);
      RelayedRows(before, busy, sending, world.exchange);
      RelayKeeps(world.exchange, batch, sent, sending.Acknowledged?);
      var count := relay.ProcessBatch(busy, sending);
      world.exchange := world.exchange.(channel := Relay(c, batch, sent, sending.Acknowledged?));
    }

    /** The consumer's next message. */
    method ConsumeNext(attempt: Delivery.Attempt)
      requires Valid()
      modifies consumer, consumer.consumer, balances, world
      ensures Valid() && world.exchange == StepDeliver(old(world.exchange), attempt)
    {
      hide Inv, Transfers.RowsMatch, Orders.RecordsMatch, StepDeliver, ConsumeOne;
      DeliverKeeps(world.exchange, attempt);
      Guarantees.ConsumingIsDelivering(world.exchange, attempt);
      OneMessage(orders.trades, relay.matchingTopic, consumer.View(), attempt);
      DeliverTouches(world.exchange, attempt);
      consumer.ProcessBatch(orders.trades, relay.matchingTopic, [attempt]);
      world.exchange := StepDeliver(world.exchange, attempt);
    }

    /**
     A user's day across the services: money comes in, a withdrawal is requested and worked on, and an order is placed.
     Each operation starts from the state that the one before left.
     */
    method Session(account: Account, deposit: nat, key: string, t: W.Terms, requestFaults: Transfers.RequestFaults,
                   faults: Transfers.Faults, r: Orders.Request, orderKey: string, orderFaults: Orders.Faults)
      returns (answer: Transfers.RequestAnswer, processed: Option<nat>, order: Orders.Answer,
               ghost funded: State, ghost requested: State, ghost sent: State)
      requires Valid() && Transfers.MayRequest(world.env, world.exchange.withdrawals, t)
      requires Transfers.Possible(world.env, faults)
      requires forall c :: c in world.exchange.creates && c.key == orderKey ==> c.user == r.user
      modifies orders.engine.repository, orders.engine.orderbook, balances, orders.idempotency, orders.outbox
      modifies orders, world
      modifies transfers.repository
      ensures Valid()
      ensures funded == StepDeposit(old(world.exchange), false, account, deposit, key, "")
      ensures answer.Created? ==>
                processed.Some? && requested == Transfers.RequestSteps(world.env, funded, t, requestFaults)
      ensures TransfersMoved(funded, requested) && TransfersMoved(requested, sent)
      ensures Orders.NewCall(sent, world.exchange, r, orderKey, orderFaults, order)
              || Orders.RepeatedCall(sent, world.exchange, r, orderKey, order)
    {
      hide Inv, Transfers.RowsMatch, Orders.RecordsMatch, Call, Transfers.RequestSteps, Orders.NewCall,
           Orders.RepeatedCall;
      Deposit(false, account, deposit, key, "");
      funded := world.exchange;
      answer := RequestWithdrawal(t, requestFaults);
      requested := world.exchange;
      ghost var rows := transfers.repository.rows;
      assert answer.Created? ==> rows[|rows| - 1].status == W.PENDING;
      processed := ProcessNextWithdrawal(faults);
      sent := world.exchange;
      order := CreateOrder(r, orderKey, orderFaults);
    }
  }

  /** The whole platform with empty tables. */
  method Start(env: W.Environment) returns (platform: Platform)
    ensures platform.Valid() && platform.world.exchange == EMPTY && platform.world.env == env
  {
    hide Inv, Orders.RecordsMatch, Orders.OutboxMatches, Transfers.RowsMatch;
    var world := new World(env);
    var balances := new BalancesRepository();
    var table := new OrdersRepository();
    var book := new OrderbookService();
    var engine := new MatchingEngineService(table, book);
    var outbox := new OutboxRepository();
    var records := new Orders.IdempotencyRepository();
    var orders := new Orders.OrdersService(engine, balances, records, outbox, world);
    var requests := new Transfers.TransfersRepository();
    NoRequests();
    var transfers := new Transfers.TransfersService(requests, balances, world);
    var processor := new Transfers.WithdrawalProcessor(requests, balances, world);
    var relay := new OutboxRelayService(outbox);
    var settlement := new TradesSettlementConsumer(balances);
    var consumer := new SettlementLoop(settlement);
    platform := new Platform(orders, transfers, processor, relay, consumer);
  }

  lemma NoRequests()
    ensures Transfers.RowsMatch([], [], EMPTY.withdrawals)
  {
  }
}
