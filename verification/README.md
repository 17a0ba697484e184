# Verification model of the exchange's money core

This project models, in Dafny, how the exchange moves money: the matching engine and its order book, the double-entry
ledger, order creation and cancellation across two services, the outbox, log and settlement consumer, the withdrawal
saga, and copy trading. Every money value is an integer number of units of 1e-8, the scale of the `numeric(28,8)`
columns, and every product of two such values is cut back to eight decimals with the rounding mode of the process that
computes it: half-up in the orders service, down in the accounts service. `dafny verify dfyconfig.toml` checks
everything.

## How it is organised

* `Sums`, `Wrappers`, `Domain`, `Money`: sums over tables, the shared entities, and rounding.
* `Ledger`, `Settlement`: the accounts service. `BalancesRepository` and `TradesSettlementConsumer` are classes whose
  methods update rows step by step; `Mutate` and `Handle` say what they do to the books.
* `OrderBook`, `Matching`, `Agreement`, `Reservations`, `Depth`, `Market`: the live book, the engine, its agreement with
  the orders table, what orders reserve and trades take, the depth view, and what matching and the view come to in terms
  of the table alone.
* `Delivery`: outbox rows, relay transaction, log, and the consumer loop.
* `Withdrawals`: one withdrawal as a state machine over any number of client attempts, workers, crashes and recoveries.
* `Exchange`, `Calls`, `Safety`: all of it together as one state machine. An event is one database transaction or one
  call between services, so events of different requests interleave freely; calls get lost on the way in or out,
  transactions abort, processes stop and restart. `Safety` proves one invariant for every event, whatever the
  environment does.
* `Solvency`, `Coverage`, `Stranding`, `Guarantees`: what follows for every state that any run reaches. An environment
  says whether sending a transaction, storing its hash or waiting for its receipt may throw after the chain took it, and
  whether clients race a withdrawal key or repeat it after a failed insert. `Coverage` shows exactly which environments keep every locked balance covered; `Stranding` says
  what is locked for good in those; `Guarantees` holds in all of them unless a lemma says otherwise.
* `Outcomes`: when a deposit, a create, a cancel or a withdrawal succeeds, which account of which currency it moves, and
  by how much, for every combination of faults.
* `Orders`, `Transfers`, `Shared`, `Platform`: the services themselves. Their methods run over tables, book, chain and
  accounts service, and move one shared state by exactly the machine's steps; `Platform` wires them together, so that
  every operation of one service leaves all the others in line.
* `CopyTrading`: the calculator, the history, the copied orders and the replication consumer.

## Assumptions

* An SQL transaction or statement is one atomic step, a unique-index violation aborts it, and its caller learns whether it
  committed. The source would fail otherwise: a stored hash or an inserted withdrawal whose caller sees an error has its
  funds unlocked and can be debited as well, so `Withdrawals.NeverBothIff`, `Coverage.NeverDebitedAndUnlockedIff`,
  `Coverage.AlwaysCoveredIff` and `Withdrawals.FundedIff` rest on this; an order transaction that commits with an error is
  compensated although its order is open, so `Guarantees.StoredOrderHasItsLock` does too.
* Creates and cancels of one pair run one at a time, and an order transaction that fails does so before its first write
  to the live book. `Agreement.PlaceKeepsAgreementIff` and `Agreement.CancelKeepsAgreementIff` show that this is needed:
  book writes are not undone.
* A key of an order or of a withdrawal is not used by two users, because the ledger keys `lock:<key>` and
  `withdraw-lock:<key>` carry no user and a replay compares only amount, currency and type. `Ledger.SuccessCoversCaller`
  gives the exact condition and `Ledger.SharedKeyLocksNothing` the failing case. Two requests with one hash are equal.
* Prices and amounts have at most eight decimals and prices at most fifteen significant digits, since a sorted-set score
  is a JavaScript number.
* The consumer group exists before the first trade is published, since it does not read from the beginning, and no event
  is redelivered after its dedup row was purged. The topic is one log, as for one partition.

## What the proofs show about the code

* Settlement rounds down what the lock rounded half-up, so the unguarded `locked - x` never overdraws; with half-up
  settlement it would (`Money.HalfUpSettlementWouldOverspend`). The price is dust: up to two units a buy stay locked for
  good, and the bound is reached (`Money.DustBoundIsTight`).
* Every locked balance covers its open orders, unsettled trades and unfinished withdrawals, and no balance is negative,
  if and only if waiting for a receipt never throws and clients neither race a withdrawal key nor repeat it after a
  failed insert (`Coverage.AlwaysCoveredIff`). The source handles all three and fails: a wait that gives up unlocks the
  funds, and a recovery after a crash debits them again with somebody else's lock; the unlock of a raced or repeated
  request gives back the lock of the one that was inserted, because its own lock was a replay.
* In a careful environment no unlock or debit that a saga asks for is refused for want of funds. It is refused exactly
  when its key is recorded already, and that takes a deposit under that very key or a second cancel with the same key
  (`Guarantees.AskedIsGranted`, `Guarantees.AskedKeyIsTakenBy`). Sandbox deposits store the client's key as it is, so a
  deposit can take it, and then funds stay locked (`Guarantees.TakenKeyRefusesUnlock`).
* A lock whose answer is lost fails its request without an unlock, and a compensating unlock is tried once. If one of the
  two is lost, or a deposit has taken the unlock's key, a rejected create leaves funds locked, and otherwise never
  (`Guarantees.RejectedNetsZeroIff`).
  No later event releases them; neither does any event release dust, a cancelled rest whose unlock was lost, a withdrawal
  given up, or a trade that no delivery will bring any more (`Stranding.StrandedStays`).
* Rehydration adds and corrects open orders but removes nothing, so it restores the book if and only if nothing stale was
  in it (`Agreement.RehydrationRestoresIff`).
* A match looks at the best fifty opposing orders, its own user's included. Looking no further costs nothing in price
  (`Guarantees.EveryMatchIsBest`) but leaves a crossed book exactly when the fifty cannot fill the order and a crossing
  order of another user is behind them (`Agreement.PlaceUncrossedIff`), as behind fifty orders of the taker's own
  (`Agreement.OwnWallCrossesBook`).
* A failure to settle whose text looks like a poison pill resolves the offset without settling. At rest the settled
  trades are the committed ones without those dead-lettered ones that no other copy of the event settled
  (`Guarantees.SettledExactlyOnce`, `Guarantees.AllSettledIff`).
* Debit and unlock of one withdrawal exclude each other if and only if waiting for the receipt of a successful transaction
  never throws (`Withdrawals.NeverBothIff`, in the ledger `Coverage.NeverDebitedAndUnlockedIff`). The effect matches the
  receipt if and only if neither storing the hash throws, nor sending once the chain took the transaction, for then one
  error handler unlocks the funds of a payment that succeeds (`Withdrawals.MatchesReceiptIff`, over all runs of the
  exchange and its ledger `Coverage.NeverPaidAndUnlockedIff`). A process that dies between claiming and storing the hash
  leaves the request PROCESSING for good (`Withdrawals.CrashBeforeHashIsFinal`).
* The comments of the copy calculator promise rounding down "to prevent margin overdraft", but the ratio itself is rounded
  half-up to twenty decimals. `CopyTrading.BuyWithinShareIff` says exactly when a copied quantity stays within the share.
  It does while quantity times balance is below 2e20 units, which 1 BTC against 20000 USDT reaches;
  `CopyTrading.BuyCanExceedShare` is a copy of about 1 BTC against 50000 USDT that exceeds it by one unit.
* A copied order counts as COMPLETED in the history when its answer arrives, not when it is accepted or filled. An accepted
  sell whose answer is lost is recorded FAILED, a redelivered turn can place an order that its row does not show, and a
  second subscription of the same follower is answered with the first one's order. Accepted sells stay within accepted
  buys if and only if none of the three happens (`CopyTrading.AlwaysBackedIff`). What a key gets is decided for good by
  the first call that gets as far as a record (`CopyTrading.FirstCallDecides`): a create that failed after that is refused
  ever after, while a call that never arrived, and was recorded as FAILED, can still be repeated with success.
* A depth of 0 reads the whole side and returns one level, because the length is compared after the first level was
  pushed and the range end becomes -1 (`OrderBook.OrderbookService.GetOrderBook`).

## Model

| member | source | states |
|---|---|---|
| Money.MixedRoundingSuffices | apps/accounts/src/consumers/utils/trades-settlement.util.ts:38-49 | for any executions within a buyer's limit and any cancelled rest, the floored deductions plus the half-up unlock never exceed the half-up lock, and fall short of it by at most two units an execution |
| Money.ReservationStep | apps/orders/src/orders/orders.service.ts:147-149 | one fill turns reservation into deduction without ever exceeding it |
| Money.DustBoundIsTight | apps/accounts/src/consumers/utils/trades-settlement.util.ts:42-49 | an execution that strands exactly two units |
| Money.HalfUpSettlementWouldOverspend | apps/accounts/src/balances/balances.service.ts:28 | without the accounts process's round-down mode, two settlements can take more than was locked |
| Ledger.MutateIsPosting | apps/accounts/src/balances/balances.repository.ts:104-522 | a keyed call either posts exactly one row under a new key or changes nothing; a recorded key changes nothing |
| Ledger.MutateSucceedsIff | apps/accounts/src/balances/balances.repository.ts:104-522 | a call succeeds if and only if its key is new and: a deposit or credit, always; a lock, the account exists and has the amount available; an unlock or debit, it exists and has the amount locked; otherwise nothing changes |
| Ledger.DepositPosts | apps/accounts/src/balances/balances.repository.ts:356-443 | a deposit or credit under a new key makes the amount available, on a new account row if there is none |
| Ledger.TransferPosts | apps/accounts/src/balances/balances.repository.ts:196-351 | the new balances and the row of a lock, unlock or debit under a new key, or the status that refuses it |
| Ledger.RecordedKeyAnswers | apps/accounts/src/balances/balances.repository.ts:533-571 | a recorded key is a replay exactly for the same kind, amount and currency, a payload mismatch otherwise |
| Ledger.MutateKeepsReplay | apps/accounts/src/balances/balances.repository.ts:104-522 | after any call every balance is the sum of its ledger deltas, every row carries its prefix sums, no key appears twice |
| Ledger.MutateKeepsNonNegative | apps/accounts/src/balances/balances.repository.ts:104-522 | the guards keep all balances non-negative |
| Ledger.MutateTwice | apps/accounts/src/balances/balances.repository.ts:533-571 | repeating a successful call is a replay that changes nothing and answers with the same account |
| Ledger.SuccessCoversCaller | apps/accounts/src/balances/balances.repository.ts:533-571 | a reported success concerns the caller's own account if and only if the key was new or recorded for that account |
| Ledger.SharedKeyLocksNothing | apps/accounts/src/balances/balances.repository.ts:552-559 | two users sharing a key: the second lock reports success and locks nothing |
| Ledger.MutateConserves | apps/accounts/src/balances/balances.repository.ts:104-522 | circulating money stays equal to the external rows of the ledger |
| Ledger.MutateCirculation | apps/accounts/src/balances/balances.repository.ts:104-522 | a deposit or credit under a new key moves a currency's total up by its amount, a debit down if the account has it locked; locks, unlocks, refusals and replays by nothing |
| Ledger.BalancesRepository.FindLedgerByIdempotencyKey | apps/accounts/src/balances/balances.repository.ts:91-98 | finds the recorded row of a key |
| Ledger.BalancesRepository.ResolveIdempotencyReplay | apps/accounts/src/balances/balances.repository.ts:533-571 | answers exactly the recorded keys: replay, payload mismatch, or missing account |
| Ledger.BalancesRepository.FindOrCreate | apps/accounts/src/balances/balances.repository.ts:61-86 | the account exists afterwards with its balance unchanged |
| Ledger.BalancesRepository.Deposit | apps/accounts/src/balances/balances.repository.ts:104-191 | row update and ledger insert are one posting, with replay and account creation |
| Ledger.BalancesRepository.Lock | apps/accounts/src/balances/balances.repository.ts:196-271 | moves available to locked, or answers replay, mismatch, missing account or insufficient funds |
| Ledger.BalancesRepository.Unlock | apps/accounts/src/balances/balances.repository.ts:276-351 | moves locked to available, or answers why not |
| Ledger.BalancesRepository.CreditDeposit | apps/accounts/src/balances/balances.repository.ts:356-443 | credits an on-chain deposit once |
| Ledger.BalancesRepository.DebitWithdrawal | apps/accounts/src/balances/balances.repository.ts:448-522 | takes a withdrawal out of the locked balance once |
| Settlement.CalculateSettlementAmounts | apps/accounts/src/consumers/utils/trades-settlement.util.ts:33-57 | the cost is price times quantity rounded down, the surplus the rest of the limit rounded down by itself, and there is none at or above the limit; the base amount is the quantity |
| Settlement.LegSums | apps/accounts/src/consumers/utils/trades-settlement.util.ts:62-127 | the four legs add up to the trade's deltas on every account and to zero over every currency |
| Settlement.SettleBalances | apps/accounts/src/consumers/trades-settlement.consumer.ts:139-177 | a settlement moves every account by exactly the trade's two deltas and no other account |
| Settlement.SettleSolvent | apps/accounts/src/consumers/trades-settlement.consumer.ts:139-167 | the unguarded updates keep all balances non-negative if and only if every deduction is covered |
| Settlement.SettleReplays | apps/accounts/src/consumers/trades-settlement.consumer.ts:178-227 | the four rows, with balances taken from the update map, keep the ledger replayable |
| Settlement.SettleConserves | apps/accounts/src/consumers/trades-settlement.consumer.ts:139-177 | settlement leaves every currency's total unchanged |
| Settlement.SettleRows | apps/accounts/src/consumers/trades-settlement.consumer.ts:205-227 | exactly four keyless rows per settled trade, none about another trade |
| Settlement.TradeSettles | apps/accounts/src/consumers/trades-settlement.consumer.ts:139-227 | a new trade on ETH_USDT moves the two users' ETH and USDT accounts, one on BTC_USDT their BTC and USDT accounts, each by name and amount, no other; and the four rows with amount, deltas and balances |
| Settlement.PassedOverMovesNothing | apps/accounts/src/consumers/trades-settlement.consumer.ts:71-101 | self-trades, known events and aborted transactions move no money and settle nothing |
| Settlement.UpdatesArePostings | apps/accounts/src/consumers/trades-settlement.consumer.ts:139-227 | four updates followed by four row inserts equal four single postings, because the four accounts differ |
| Settlement.TradesSettlementConsumer.BuildSettlementLedgerParams | apps/accounts/src/consumers/utils/trades-settlement.util.ts:62-127 | the list grown by push is the four legs |
| Settlement.TradesSettlementConsumer.UpdateBalances | apps/accounts/src/consumers/trades-settlement.consumer.ts:139-190 | each account ends at its starting balance plus its leg, and no other account changes |
| Settlement.TradesSettlementConsumer.InsertLedgerRows | apps/accounts/src/consumers/trades-settlement.consumer.ts:205-227 | appends one row an entry with the recorded balances, in order |
| Settlement.TradesSettlementConsumer.HandleMessage | apps/accounts/src/consumers/trades-settlement.consumer.ts:53-243 | settles a new event once, skips known events and self-trades, and leaves nothing but empty accounts when the transaction aborts |
| Settlement.RunProcessed | apps/accounts/src/consumers/trades-settlement.consumer.ts:92-101 | a run's processed set is the start plus its distinct events |
| Settlement.RunBalances | apps/accounts/src/consumers/trades-settlement.consumer.ts:92-177 | a run's balances are the start plus its effective mutations plus every distinct event once |
| Settlement.DeliveryOrderIndependence | apps/accounts/src/consumers/trades-settlement.consumer.ts:92-177 | two runs with the same distinct events and the same effective mutations end with the same balances, whatever order and duplication |
| OrderBook.ZAddMembers | apps/orders/src/orders/orderbook.service.ts:17-42 | adding keeps a side sorted, moves a known member, and leaves the others |
| OrderBook.SortedIsUnique | apps/orders/src/orders/orderbook.service.ts:17-66 | a side is determined by its members |
| OrderBook.OrderbookService.AddOrder | apps/orders/src/orders/orderbook.service.ts:17-42 | lists member and details |
| OrderBook.OrderbookService.UpdateRemainingAmount | apps/orders/src/orders/orderbook.service.ts:47-52 | updates one field; a missing order stays missing |
| OrderBook.OrderbookService.RemoveOrder | apps/orders/src/orders/orderbook.service.ts:57-66 | unlists member and details; an empty side ceases to exist |
| OrderBook.OrderbookService.GetBestOpposingOrders | apps/orders/src/orders/orderbook.service.ts:106-138 | the details of the first fifty members of the other side, best first, without those whose details are gone |
| OrderBook.OrderbookService.GetLevelTotalQuantity | apps/orders/src/orders/orderbook.service.ts:166-193 | the remaining total at a price over the first 501 members |
| OrderBook.OrderbookService.BuildPriceMap | apps/orders/src/orders/orderbook.service.ts:243-265 | every price once in order of first appearance, with the sums of the entries at that price |
| OrderBook.OrderbookService.AggregateLevels | apps/orders/src/orders/orderbook.service.ts:243-277 | the levels of the first prices, at least one and at most the depth |
| OrderBook.OrderbookService.GetOrderBook | apps/orders/src/orders/orderbook.service.ts:198-228 | both sides over a window of twice the depth; depth 0 reads to the end |
| OrderBook.OrderbookService.Rehydrate | apps/orders/src/orders/orderbook.service.ts:233-238 | adds every given order |
| Depth.LevelsAreOrderedSums | apps/orders/src/orders/orderbook.service.ts:198-277 | levels run strictly from the best price; amounts and counts are the sums over all fetched orders at the price; a price is missing only if the view was cut |
| Depth.LevelsAreTotals | apps/orders/src/orders/orderbook.service.ts:166-277 | when no window cuts the side, each level shows getLevelTotalQuantity of its price |
| Market.FetchesFifty | apps/orders/src/orders/orderbook.service.ts:106-138 | a buyer's candidates are the fifty lowest asks, a seller's the fifty highest bids |
| Market.PlacementOnTable | apps/orders/src/orders/matching-engine.service.ts:40-199 | in terms of the orders table: each trade is with another user's open order within both limits, at that order's price and within its amount, each once and best price first; exactly those rows move; the new row holds what was traded and what is left |
| Market.ShortSideTradesAll | apps/orders/src/orders/matching-engine.service.ts:55-158 | with at most fifty open orders on the other side a placement trades the smaller of its amount and of everything that open orders of other users offer at its limit, and leaves no crossing pair |
| Market.DepthShowsTable | apps/orders/src/orders/orderbook.service.ts:198-277 | at most depth levels, best first, each with the amount and number of all open orders at its price, and none left out unless the view is full of better ones |
| Market.WindowIsTwiceDepth | apps/orders/src/orders/orderbook.service.ts:198-226 | the view reads the best orders of a side, twice its depth, or all for depth 0 |
| Market.LevelTotalOfTable | apps/orders/src/orders/orderbook.service.ts:166-193 | the level total adds up the first 501 members; with no more open orders it is what all of them at the price have left |
| Matching.FillsAreExact | apps/orders/src/orders/matching-engine.service.ts:55-88 | the traded quantity is the smaller of the need and all crossing orders of other users: breaking and skipping lose nothing |
| Matching.FillsAreSound | apps/orders/src/orders/matching-engine.service.ts:55-88 | every fill is positive, fits its maker, and crosses with another user |
| Matching.FillPricesAreMonotone | apps/orders/src/orders/matching-engine.service.ts:55-158 | trade prices run from best to worst |
| Matching.GreedyLowerBound | apps/orders/src/orders/matching-engine.service.ts:55-158 | the exchange argument behind greedy optimality |
| Matching.GreedyIsOptimal | apps/orders/src/orders/matching-engine.service.ts:55-158 | no other allocation of the same quantity costs a buyer less or brings a seller more |
| Matching.FrontIsOptimal | apps/orders/src/orders/matching-engine.service.ts:40-158 | matching the front of a side is as cheap as any allocation of the same quantity over the whole side |
| Matching.OrdersRepository.Update | apps/orders/src/orders/orders.repository.ts:112-134 | writes filled, remaining and status of one row |
| Matching.OrdersRepository.Cancel | apps/orders/src/orders/orders.repository.ts:139-160 | cancels exactly an open or partially filled row of the calling user |
| Matching.OrdersRepository.FindActiveOrders | apps/orders/src/orders/orders.repository.ts:94-107 | the ids of exactly the open and partially filled orders |
| Matching.MatchingEngineService.UpdateMaker | apps/orders/src/orders/matching-engine.service.ts:90-123 | one fill's effect on the maker's row and its place in the book |
| Matching.MatchingEngineService.BuildTrade | apps/orders/src/orders/matching-engine.service.ts:125-148 | buyer, seller and limit of a trade by the taker's side |
| Matching.MatchingEngineService.UpdateTaker | apps/orders/src/orders/matching-engine.service.ts:160-191 | the taker's final row, listed if anything is left |
| Matching.MatchingEngineService.FillFrom | apps/orders/src/orders/matching-engine.service.ts:48-158 | the loop makes exactly the specified fills, in order, with their effects and trades |
| Matching.MatchingEngineService.ExecuteMatch | apps/orders/src/orders/matching-engine.service.ts:40-199 | table, book and trades after a match |
| Agreement.AgreementDetermines | apps/orders/src/orders/orderbook.service.ts:17-66 | a table has only one agreeing book |
| Agreement.CandidatesAreGood | apps/orders/src/orders/orderbook.service.ts:106-138 | the candidates are distinct open orders of the other side with the table's amounts, best first |
| Agreement.CandidatesAreAll | apps/orders/src/orders/orderbook.service.ts:106-138 | with at most fifty resting orders a match sees every one |
| Agreement.CandidatesAreFront | apps/orders/src/orders/orderbook.service.ts:106-138 | the candidates are the front of the whole opposing side, sorted best first and holding every open order of it |
| Agreement.FillsAgree | apps/orders/src/orders/matching-engine.service.ts:87-123 | every maker's row moves by its own fill, every other row stays, the book follows |
| Agreement.PlaceKeepsAgreement | apps/orders/src/orders/matching-engine.service.ts:87-191 | after a placement the book again lists exactly the open orders with the table's amounts, and every row is consistent |
| Agreement.PlaceMovesRows | apps/orders/src/orders/matching-engine.service.ts:87-175 | exactly the makers' rows and the taker's row change, each by its fill |
| Agreement.PlaceKeepsAgreementIff | apps/orders/src/orders/orders.service.ts:182-363 | agreement survives a create if and only if it commits or dies before the match's first write to the book; dying after any number of fills, or after listing the rest, breaks it |
| Agreement.CancelKeepsAgreementIff | apps/orders/src/orders/orders.service.ts:434-494 | agreement survives a cancel if and only if its transaction commits |
| Agreement.RehydrationRestoresIff | apps/orders/src/orders/orders.service.ts:68-88 | rehydration yields the agreeing book if and only if the old book held nothing stale |
| Agreement.RehydrationIsIdempotent | apps/orders/src/orders/orders.service.ts:68-88 | rehydrating an agreeing book changes nothing |
| Agreement.ShortTakerExhausts | apps/orders/src/orders/matching-engine.service.ts:55-88 | a taker left short has taken every crossing candidate of another user whole |
| Agreement.PlaceUncrossedIff | apps/orders/src/orders/matching-engine.service.ts:55-191 | a placement leaves an uncrossed book uncrossed if and only if no crossing order of another user hides behind fetched ones that cannot fill it |
| Agreement.PlaceKeepsUncrossed | apps/orders/src/orders/matching-engine.service.ts:55-191 | a placement that sees the whole opposing side leaves no crossing pair of different users |
| Agreement.OwnWallCrossesBook | apps/orders/src/orders/orderbook.service.ts:106-138 | behind fifty orders of the taker's own a crossing order is not found, and the book is crossed |
| Reservations.MakersRelease | apps/orders/src/orders/matching-engine.service.ts:87-158 | on every account the makers' reservations fall by at least their part of the deductions, at most two units a buy more |
| Reservations.TakerReleases | apps/orders/src/orders/matching-engine.service.ts:160-191 | the taker's lock covers its fills and its open rest, with the same dust |
| Reservations.PlaceReleases | apps/orders/src/orders/orders.service.ts:182-363 | a placement never creates more reservations and deductions than its lock brought in, on any account |
| Reservations.PlaceKeepsAccounts | apps/orders/src/orders/orders.service.ts:182-363 | each order's filled amount is what it traded, and each buy's lock is its payments, its open part and bounded dust |
| Delivery.OutboxRepository.FetchPendingBatch | apps/orders/src/outbox/outbox.repository.ts:52-60 | the oldest pending rows that no other relay has locked, up to the limit: a row is left out only for older ones that fill the batch |
| Delivery.OutboxRepository.MarkAsPublished | apps/orders/src/outbox/outbox.repository.ts:77-89 | marks exactly the given rows |
| Delivery.OutboxRelayService.BuildRecords | apps/orders/src/outbox/outbox-relay.service.ts:100-135 | one record a row, in order, to its topic |
| Delivery.OutboxRelayService.ProcessBatch | apps/orders/src/outbox/outbox-relay.service.ts:91-157 | sends, then marks; a failed send rolls the marks back but not what reached the topics |
| Delivery.RelayBatchRefinesRelay | apps/orders/src/outbox/outbox-relay.service.ts:91-157 | the batch transaction is a relay step of the delivery machine |
| Delivery.MarkingRemoves | apps/orders/src/outbox/outbox.repository.ts:77-89 | marking takes exactly the batch's trades out of the pending set |
| Delivery.BatchPublishes | apps/orders/src/outbox/outbox-relay.service.ts:91-157 | an acknowledged batch publishes fifty rows, or all pending ones if fewer, and appends the oldest pending trades to the topic, in order |
| Delivery.BatchesDrain | apps/orders/src/outbox/outbox-relay.service.ts:91-157 | batches of fifty empty the outbox, and the topic grows by exactly the pending trades, each once and in order |
| Delivery.RelayKeepsChannel | apps/orders/src/outbox/outbox-relay.service.ts:137-155 | whatever is sent or marked, every committed trade stays pending or on the log |
| Delivery.QuiescentMeansResolved | libs/common/src/kafka/kafka-consumer.abstract.ts:110-240 | with nothing pending and all offsets resolved, exactly the committed trades are settled or dead-lettered |
| Delivery.SettlementLoop.ProcessBatch | libs/common/src/kafka/kafka-consumer.abstract.ts:110-240 | messages in order, each resolved only after success or dead-lettering, stopping at the first transient failure |
| Delivery.BatchEnds | libs/common/src/kafka/kafka-consumer.abstract.ts:110-240 | the loop gets past a message if and only if it is a self-trade, handled, or dead-lettered; it stops at the first it cannot get past, and what it passed is settled or dead-lettered accordingly |
| Calls.CallPosts | apps/accounts/src/balances/balances.service.ts:161-205 | a call between services either posts its mutation under a new key or changes nothing, and an accepted call that posted nothing was already recorded |
| Calls.HandleKeepsTrades | apps/accounts/src/consumers/trades-settlement.consumer.ts:178-227 | the ledger rows of a settled trade take its deduction out of each account's locked balance, and an unsettled trade has taken nothing |
| Safety.CommitKeeps | apps/orders/src/orders/orders.service.ts:182-363 | the order transaction keeps the system invariant |
| Safety.CancelOrderKeeps | apps/orders/src/orders/orders.service.ts:406-494 | a cancel keeps the system invariant |
| Safety.DeliverKeeps | apps/accounts/src/consumers/trades-settlement.consumer.ts:92-243 | a delivered event, new, known, aborted or dead-lettered, keeps the system invariant |
| Safety.WithdrawKeeps | apps/transfers/src/transfers/processors/withdrawal-processor.service.ts:57-344 | in any environment every step of a withdrawal, client attempts included, keeps the system invariant with the ledger call it makes |
| Safety.StepKeeps | apps/orders/src/orders/orders.service.ts:107-540 | in any environment every event of the whole exchange keeps the system invariant |
| Solvency.LockedSplits | apps/accounts/src/consumers/trades-settlement.consumer.ts:139-167 | a locked balance is, to the unit, the reservations, unsettled deductions, owed withdrawals, locks without an order, cancelled rests without an unlock, and dust, none of them negative |
| Solvency.StepKeepsSafe | apps/transfers/src/transfers/transfers.service.ts:64-137 | in a careful environment every event keeps withdrawals to one attempt and one decision, and every refusal explained by a lost call or a taken key |
| Solvency.RunKeys | apps/accounts/src/balances/balances.service.ts:161-205 | in every run the kind of a ledger entry fits the prefix of its key, and a deposit's key was chosen by a deposit |
| Coverage.AlwaysCoveredIff | apps/transfers/src/transfers/processors/withdrawal-processor.service.ts:173-192 | over all runs each locked balance covers open orders, unsettled trades and unfinished withdrawals, and no balance is negative, if and only if waiting never throws and clients neither race a withdrawal key nor repeat it after a failed insert |
| Coverage.NeverDebitedAndUnlockedIff | apps/transfers/src/transfers/processors/withdrawal-processor.service.ts:137-194 | over all runs of the exchange the ledger never holds both debit and unlock of a withdrawal if and only if waiting never throws |
| Coverage.NeverPaidAndUnlockedIff | apps/transfers/src/transfers/processors/withdrawal-processor.service.ts:145-193 | over all runs of the exchange no withdrawal that the chain pays out has its funds unlocked in the ledger if and only if neither sending, once the chain took it, nor storing its hash, nor waiting throws |
| Coverage.NeverInsertedAndCompensatedIff | apps/transfers/src/transfers/transfers.service.ts:82-136 | over all runs of the exchange no inserted withdrawal has had its lock given back if and only if clients neither race a key nor repeat it after a failed insert |
| Stranding.StrandedIsDead | apps/orders/src/orders/orders.service.ts:364-535 | in a careful environment what is locked beyond every need is, to the unit, dust of at most two units a buy, the locks of rejected creates, cancelled rests whose unlock failed, withdrawals given up, and lost trades |
| Stranding.StrandedStays | apps/orders/src/orders/orders.service.ts:364-535 | over any continuation none of these parts shrinks |
| Guarantees.OrderHolds | apps/orders/src/orders/orders.service.ts:497-504 | what the ledger entries about an order leave locked is what its open part, its rest not yet unlocked and its unsettled trades need, plus 0 to 2n units for a buy with n trades and nothing for a sell |
| Guarantees.OrderDust | apps/orders/src/orders/orders.service.ts:497-504 | once an order is filled, or cancelled and unlocked, and its trades are settled, its ledger entries leave 0 to 2n units locked for a buy with n trades, exactly nothing for a sell |
| Guarantees.SettledExactlyOnce | apps/accounts/src/consumers/trades-settlement.consumer.ts:71-101 | over any sends, crashes, redeliveries and dead-lettered failures a trade has four ledger rows or none and only if committed; at rest all have them but the dead-lettered ones that no other copy settled |
| Guarantees.AllSettledIff | libs/common/src/kafka/kafka-consumer.abstract.ts:205-235 | at rest every committed trade is settled if and only if every dead-lettered one was settled by another copy |
| Guarantees.ConsumingIsDelivering | libs/common/src/kafka/kafka-consumer.abstract.ts:180-240 | the consumer loop takes exactly the machine's delivery steps, dead-lettering included |
| Guarantees.UnsettledAtRest | apps/accounts/src/consumers/trades-settlement.consumer.ts:92-177 | at rest the deductions outstanding on an account are those of the dead-lettered trades never settled |
| Guarantees.EveryTradeFits | apps/accounts/src/consumers/trades-settlement.consumer.ts:71-76 | every committed trade pairs a buy and a sell of two users inside both limits, so the self-trade skip is never taken |
| Guarantees.EveryMatchIsBest | apps/orders/src/orders/matching-engine.service.ts:40-199 | in every reachable state a match is exact over the fetched orders, monotone, sound, and as good as any way to trade the same quantity with any orders of the whole opposing side |
| Guarantees.StoredOrderHasItsLock | apps/orders/src/orders/orders.service.ts:107-178 | a key stores at most one order; each stored order has exactly one lock entry of its full reservation and no compensating unlock |
| Guarantees.RejectedNetsZeroIff | apps/orders/src/orders/orders.service.ts:364-386 | in a careful environment a rejected create nets to zero if and only if its lock never reached the ledger, or no answer and no compensation was lost and no deposit had taken the unlock's key |
| Guarantees.AskedIsGranted | apps/accounts/src/balances/balances.repository.ts:276-351 | in a careful environment a compensation, a cancel's unlock and a withdrawal's unlock or debit that arrive are applied if and only if nothing is recorded under their key |
| Guarantees.AskedKeyIsTakenBy | apps/accounts/src/balances/balances.repository.ts:533-571 | such a key is recorded only by a deposit that chose it or by a cancel with the same key |
| Guarantees.TakenKeyRefusesUnlock | apps/accounts/src/balances/balances.repository.ts:533-571 | a deposit under the key of a compensating unlock makes the unlock fail and the funds stay locked |
| Guarantees.MoneyIsConserved | apps/accounts/src/balances/balances.repository.ts:104-522 | in every reachable state all accounts of a currency hold deposits and credits minus debits |
| Guarantees.LedgerReplays | apps/accounts/src/balances/balances.repository.ts:533-571 | in every reachable state the ledger replays |
| Guarantees.BookMatchesTable | apps/orders/src/orders/orders.service.ts:68-88 | in every reachable state the book is the table's and a restart rebuilds the same book |
| Guarantees.BookStaysUncrossed | apps/orders/src/orders/matching-engine.service.ts:55-80 | the book is uncrossed as long as no committed order had a blind spot, and the first one that has crosses it |
| Guarantees.WithdrawalsAreSafe | apps/transfers/src/transfers/processors/withdrawal-processor.service.ts:137-344 | in every reachable state of any environment a withdrawal was claimed and broadcast at most once, has at most one entry of each kind, is locked once inserted, and is debited once COMPLETED and only on a success |
| Orders.IdempotencyRepository.FindRecord | apps/orders/src/orders/idempotency.repository.ts:29-48 | finds a user's record of a key if and only if there is one and it has not expired |
| Orders.IdempotencyRepository.CreateRecord | apps/orders/src/orders/idempotency.repository.ts:53-57 | inserts unless the key is there, expired or not |
| Orders.OrdersService.CheckIdempotency | apps/orders/src/orders/orders.service.ts:106-132 | an unexpired completed record answers its stored order, one in progress a conflict, a failed one a mismatch for another request; anything else goes on |
| Orders.OrdersService.LockFunds | apps/orders/src/orders/orders.service.ts:143-178 | the lock call is the machine's lock step; anything but an acknowledged success fails the record |
| Orders.OrdersService.OrderTransaction | apps/orders/src/orders/orders.service.ts:180-363 | insert, match and outbox are the machine's commit step; the outbox gains exactly the new trades |
| Orders.OrdersService.Compensate | apps/orders/src/orders/orders.service.ts:364-386 | abort and compensating unlock are the machine's steps; the record is failed either way |
| Orders.OrdersService.CreateOrder | apps/orders/src/orders/orders.service.ts:95-400 | a repeated request changes nothing and gets the answer of its record, its stored order if that is completed; a new one takes exactly the machine's steps and leaves a completed record with its order, or a failed one |
| Orders.OrdersService.CancelOrder | apps/orders/src/orders/orders.service.ts:406-535 | refuses missing, foreign, cancelled and filled orders; otherwise cancels and tries the unlock once |
| Orders.OrdersService.OnModuleInit | apps/orders/src/orders/orders.service.ts:68-88 | loads the active orders into the book |
| Orders.OrdersService.LoadBook | apps/orders/src/orders/orders.service.ts:68-88 | from any book, a lost one included, the open orders are added, and book and table agree afterwards if and only if nothing stale was in it |
| Transfers.TransfersRepository.CreateWithdrawalRequest | apps/transfers/src/transfers/transfers.repository.ts:129-132 | inserts unless user and key are there |
| Transfers.TransfersRepository.LockNextPendingWithdrawal | apps/transfers/src/transfers/transfers.repository.ts:158-180 | claims the oldest pending request and no other |
| Transfers.TransfersRepository.FindProcessingWithdrawalsWithTxHash | apps/transfers/src/transfers/transfers.repository.ts:143-153 | exactly the claimed requests with a stored hash |
| Transfers.TransfersService.RequestWithdrawal | apps/transfers/src/transfers/transfers.service.ts:64-137 | answers a known request from its row, refuses another amount under a locked key, and otherwise makes an attempt that locks and inserts, or locks and compensates, and answers which of them it was |
| Transfers.WithdrawalProcessor.CompleteWithdrawal | apps/transfers/src/transfers/processors/withdrawal-processor.service.ts:196-266 | debit first, COMPLETED only after an acknowledged debit |
| Transfers.WithdrawalProcessor.FailWithdrawal | apps/transfers/src/transfers/processors/withdrawal-processor.service.ts:268-344 | unlock first, FAILED whatever became of it |
| Transfers.WithdrawalProcessor.ExecuteOnChainWithdrawal | apps/transfers/src/transfers/processors/withdrawal-processor.service.ts:137-194 | send, record, wait, then complete or fail; errors fail, a send that throws although the chain took the transaction included |
| Transfers.WithdrawalProcessor.ProcessNextWithdrawal | apps/transfers/src/transfers/processors/withdrawal-processor.service.ts:112-135 | claims and executes the oldest pending request |
| Transfers.WithdrawalProcessor.RecoverStuckProcessingWithdrawals | apps/transfers/src/transfers/processors/withdrawal-processor.service.ts:57-91 | completes or fails every claimed request with a stored hash by its receipt |
| Platform.Platform.Session | apps/transfers/src/transfers/transfers.service.ts:64-137 | a deposit, a withdrawal request, a turn of the worker and a create, each from the state that the one before left, with every service in line at the end |
| Platform.Platform.RelayOutbox | apps/orders/src/outbox/outbox-relay.service.ts:91-157 | a relay batch over the shared table and topic is the machine's relay step |
| Platform.Platform.ConsumeNext | libs/common/src/kafka/kafka-consumer.abstract.ts:110-240 | the consumer's next message over the shared books is the machine's delivery step |
| Outcomes.DepositArrives | apps/accounts/src/balances/balances.repository.ts:356-443 | a deposit of either kind under a new key becomes available; a repeated or empty one changes nothing |
| Outcomes.CreateSucceedsIff | apps/orders/src/orders/orders.service.ts:143-386 | a new create stores its order if and only if its lock arrives, is answered and granted, and its transaction commits; the reservation then moves from available to locked and the order is placed; otherwise the table is untouched and the lock stays or is given back, fault by fault |
| Outcomes.OrderEntries | apps/orders/src/orders/orders.service.ts:143-170 | in every reachable state a stored order's lock entry is on USDT for a buy and on BTC or ETH by its pair for a sell, of price times amount rounded half-up or the amount; a cancel's unlock entry is on the same account, of what was left |
| Outcomes.CancelReturns | apps/orders/src/orders/orders.service.ts:406-535 | cancelling one's own open order cancels that row alone, takes it out of the book, and unlocks exactly what it still reserves, if the call arrives, its key is new and so much is locked |
| Outcomes.EverythingSettles | apps/accounts/src/consumers/trades-settlement.consumer.ts:53-243 | from every reachable state relay and consumer can go on to a state at rest in which every committed trade is settled but those dead-lettered before |
| Outcomes.RequestSucceedsIff | apps/transfers/src/transfers/transfers.service.ts:64-137 | a first request is inserted if and only if its lock arrives, is answered and granted and its insert works; the amount is locked then, and otherwise stays locked or is given back, fault by fault |
| Outcomes.ExecutionEnds | apps/transfers/src/transfers/processors/withdrawal-processor.service.ts:137-344 | a claimed withdrawal ends with a debit if it is sent, recorded and seen to succeed, and with an unlock if anything of that fails; how much moves, which status it gets and whether the transaction went out, for every combination of faults |
| Outcomes.RecoveryEnds | apps/transfers/src/transfers/processors/withdrawal-processor.service.ts:57-91 | recovery of a claimed withdrawal with a stored hash ends it by its receipt in the same way |
| Outcomes.RecoveryCompletes | apps/transfers/src/transfers/processors/withdrawal-processor.service.ts:196-266 | recovery of one that was debited already completes it without a second debit |
| Outcomes.RecoveryReachesAll | apps/transfers/src/transfers/processors/withdrawal-processor.service.ts:57-91 | a start-up recovery fails every stuck request whose transaction was reverted |
| Withdrawals.ClaimedAtMostOnce | apps/transfers/src/transfers/transfers.repository.ts:158-180 | in any environment a withdrawal is claimed and broadcast at most once, and COMPLETED means debited against a success |
| Withdrawals.NeverBothIff | apps/transfers/src/transfers/processors/withdrawal-processor.service.ts:137-194 | at most one of debit and unlock over all runs if and only if waiting on a success never throws |
| Withdrawals.MatchesReceiptIff | apps/transfers/src/transfers/processors/withdrawal-processor.service.ts:137-194 | the effect matches the receipt over all runs if and only if on a success neither sending throws once the chain took the transaction, nor storing the hash, nor waiting |
| Withdrawals.FundedIff | apps/transfers/src/transfers/transfers.service.ts:75-136 | an inserted request is backed by its lock in every run if and only if clients start no attempt while another is in flight and none after one whose insert failed |
| Withdrawals.CrashBeforeHashIsFinal | apps/transfers/src/transfers/transfers.repository.ts:143-153 | a crash between claim and stored hash is never recovered |
| Withdrawals.FinalIff | apps/transfers/src/transfers/transfers.repository.ts:143-180 | exactly the requests that are completed, given up, refused their insert, or lost before the hash, with nobody working on them, never move again |
| CopyTrading.BuyErrorBound | apps/copy-trading/src/calculator/copy-ratio.calculator.ts:24-42 | the copied quantity is within one unit of the exact share below 2e20 units, and never above it while quantity times balance is below 2e20 |
| CopyTrading.BuyWithinShareIff | apps/copy-trading/src/calculator/copy-ratio.calculator.ts:24-42 | the exact condition, computable beforehand, for a copied quantity not to exceed the exact share |
| CopyTrading.BuyCanExceedShare | apps/copy-trading/src/calculator/copy-ratio.calculator.ts:37-41 | a copy of about 1 BTC against 50000 USDT that is one unit above the share |
| CopyTrading.CalculateSellQuantity | apps/copy-trading/src/calculator/copy-ratio.calculator.ts:51-71 | never more than the follower's own position |
| CopyTrading.SellErrorBound | apps/copy-trading/src/calculator/copy-ratio.calculator.ts:51-71 | a master selling all makes the follower sell its whole position; a part is repeated to within one unit |
| CopyTrading.CalculateProtectedPrice | apps/copy-trading/src/risk/risk-guard.service.ts:29-42 | a buyer's limit is the slipped price rounded up to a unit and at least the master's; a seller's is the slipped price rounded down, or one unit if that is less |
| CopyTrading.FollowersNeverOversell | apps/copy-trading/src/consumers/master-trade-replication.consumer.ts:198-331 | over any run, whatever becomes of the orders, completed sells in the history never exceed completed buys and a trade adds at most one row per subscription |
| CopyTrading.AlwaysBackedIff | apps/copy-trading/src/consumers/master-trade-replication.consumer.ts:268-331 | over all runs accepted sells stay within accepted buys if and only if every accepted order is recorded, no recorded trade is delivered again, and no two subscriptions of a follower copy one trade |
| CopyTrading.TurnsCommute | apps/copy-trading/src/consumers/master-trade-replication.consumer.ts:186-192 | turns of different followers in one batch give the same rows and orders in either order |
| CopyTrading.RedeliveryPlacesIff | apps/copy-trading/src/database/copy-orders-history.repository.ts:18-27 | a turn for a recorded trade leaves the history alone and places an order exactly if the orders service has no record of its key, of an order or of a failure, the target is no dust and the order is accepted |
| CopyTrading.FirstCallDecides | apps/orders/src/orders/orders.service.ts:106-141 | over any run of turns a key has at most one order, and has one if and only if the first call under it that got as far as a record was accepted |
| CopyTrading.CopyOrdersHistoryRepository.Create | apps/copy-trading/src/database/copy-orders-history.repository.ts:18-27 | inserts unless subscription and trade are there |
| CopyTrading.CopyOrdersHistoryRepository.GetSubscriptionPosition | apps/copy-trading/src/database/copy-subscriptions.repository.ts:136-171 | the sums of completed buys and sells of a subscription and pair |
| CopyTrading.OrdersServiceClient.CreateOrder | apps/orders/src/orders/orders.service.ts:106-141 | a key that has an order is answered with it, one whose create failed after its record was inserted is refused for good, and a new one is accepted or fails |
| CopyTrading.MasterTradeReplicationConsumer.ReplicateForSubscriber | apps/copy-trading/src/consumers/master-trade-replication.consumer.ts:198-331 | one subscriber's turn: busy, skipped as dust, completed when an order is stored and its answer arrived, failed otherwise, or cut off after the order |
| CopyTrading.MasterTradeReplicationConsumer.HandleMessage | apps/copy-trading/src/consumers/master-trade-replication.consumer.ts:88-164 | a known event or one without masters changes nothing; otherwise every active follower of the buyer has a BUY turn and every one of the seller a SELL turn, the new rows and orders are theirs with the quantity, price and status of their turn, and every turn that was answered has its row |
| CopyTrading.CopiedRows | apps/copy-trading/src/consumers/master-trade-replication.consumer.ts:130-151 | read from the tables: a new row or order is a BUY of a follower of the buyer or a SELL of one of the seller, on the trade's pair, of the follower's share, and no follower that was answered is left out |
| CopyTrading.TurnsAdd | apps/copy-trading/src/consumers/master-trade-replication.consumer.ts:198-331 | over any turns each new row has its turn's quantity, is SKIPPED exactly below 0.0001 BTC or 0.001 ETH, COMPLETED only with a stored order, and FAILED only without an acknowledged acceptance |

## Left out

- API gateway, DTOs, websockets, identity, telemetry, logging, configuration, migrations: no money moves there.
- RPC, Kafka, Redis and gRPC transports: only their outcomes appear, as lost calls, interrupted sends and redeliveries.
- Concurrent interleaving inside one match or cancel, and the book after a rolled-back order transaction: excluded by the assumption above, which the two iff lemmas show to be necessary.
- Sequence numbers, event payloads other than trades, and the relay's retry counters, which its own rollback discards.
- The maximum of a sandbox deposit, malformed messages and messages of other kinds on the trade topic, and the dead-letter topic itself.
- Retention jobs, lock time-outs, back-off delays, deposit scanning and unit conversion.
- Fees (always zero), overflow of `numeric(28,8)`, and slippage telemetry.
- Time priority at equal prices: the code decides only price priority, since bids are read in reverse.
- Orders.OrdersService.CreateOrder: takes it that no other user has used the key, the assumption that the ledger lemmas show to be necessary.
- Orders.OrdersService.OrderTransaction: the only failure of a transaction is one before the match, as assumed above.
- Transfers.WithdrawalProcessor.ExecuteOnChainWithdrawal: describes an uninterrupted run; crashes at every point are covered by the machine, whose steps it takes one by one.
- Transfers.TransfersService.RequestWithdrawal: takes it that no other user has used the key that the client may try in the environment at hand, and that it does not come back with another amount or currency after a first lock that was refused and recorded nothing, which the source accepts; the id of a request is known from its first attempt on, not drawn with its insert.
- CopyTrading.MasterTradeReplicationConsumer.HandleMessage: the turns of a batch run one after the other; `CopyTrading.TurnsCommute` shows that their order does not matter for different followers, and the follower lock makes turns of one follower exclude each other.
