/**
 The whole exchange as one state machine: the accounts ledger, the orders service with its order saga, the matching desk,
 the outbox, the log and the settlement consumer, and the withdrawal saga. One event is one database transaction or one
 call between services; between any two events of one request, events of every other request may happen, calls may be
 lost on either way, and processes may stop: one that dies amid a create or a cancel loses its next call.
 */
module Exchange {
  import opened Wrappers
  import opened Domain
  import opened Ledger
  import opened Settlement
  import opened OrderBook
  import opened Matching
  import opened Agreement
  import opened Reservations
  import opened Delivery
  import W = Withdrawals

  // ---------------------------------------------------------------------------------------------------------
  // State
  // ---------------------------------------------------------------------------------------------------------

  /** Where a createOrder call stands. STORED: its order transaction has committed. */
  datatype Phase = BEGUN | LOCKED | COMPENSATING | REJECTED | STORED

  /**
   One createOrder call that got past the idempotency check: its record, what the ledger did for it, and what went wrong
   on the way: the answer to its lock, or its compensating unlock, may have been lost.
   */
  datatype Create = Create(
    user: UserId,
    pair: Pair,
    side: Side,
    price: nat,
    amount: nat,
    key: string,
    phase: Phase,
    lockApplied: bool,
    answerLost: bool,
    unlockApplied: bool,
    unlockLost: bool)
  {
    function Request(): Order {
      NewOrder(user, pair, side, price, amount, key)
    }

    function LockAccount(): Account {
      Request().Funding()
    }

    function Lock(): nat {
      LockAmount(side, price, amount)
    }
  }

  /** One committed cancelOrder call and its unlock, which is tried once and may get lost on its way. */
  datatype Cancel = Cancel(order: OrderId, account: Account, amount: nat, key: string, attempted: bool, lost: bool,
                           applied: bool)

  /** deadLettered: the trades whose event was sent to the dead-letter topic after a failure to settle it. */
  datatype State = State(
    books: Books,
    processed: set<nat>,
    deadLettered: set<nat>,
    desk: Desk,
    trades: seq<Trade>,
    creates: seq<Create>,
    cancels: seq<Cancel>,
    withdrawals: seq<W.Withdrawal>,
    channel: Channel)

  const EMPTY := State(Books(map[], []), {}, {}, Desk([], Book(map[], map[])), [], [], [], [], Channel({}, [], 0, 0))

  function LockKey(key: string): string { "lock:" + key }

  function UnlockKey(key: string): string { "unlock:" + key }

  function CancelKey(key: string): string { "cancel:" + key }

  function WithdrawLockKey(key: string): string { "withdraw-lock:" + key }

  function CompensateKey(key: string): string { "withdraw-lock-compensate:" + key }

  function WithdrawUnlockKey(key: string): string { "withdrawal-unlock:" + key }

  function DebitKey(id: string): string { "withdrawal-debit:" + id }

  // ---------------------------------------------------------------------------------------------------------
  // Calls to the accounts service
  // ---------------------------------------------------------------------------------------------------------

  /** applied: the ledger changed; accepted: the service answered without an error. */
  datatype Reply = Reply(books: Books, applied: bool, accepted: bool)

  /** A call may get lost on its way; one that arrives with a zero amount is refused by the service's validation. */
  function Call(b: Books, m: Mutation, reaches: bool): Reply
  {
    if !reaches || m.amount == 0 then Reply(b, false, false)
    else
      var (after, outcome) := Mutate(b, m);
      Reply(after, outcome.status == OK, outcome.status == OK || outcome.status == IDEMPOTENT_REPLAY)
  }

  // ---------------------------------------------------------------------------------------------------------
  // Steps. An event that is not possible in a state leaves it as it is.
  // ---------------------------------------------------------------------------------------------------------

  datatype Event =
    | Deposit(onChain: bool, account: Account, amount: nat, key: string, reference: string)
    | BeginCreate(user: UserId, pair: Pair, side: Side, price: nat, amount: nat, key: string)
    | LockFunds(create: nat, reaches: bool, acknowledged: bool)
    | Commit(create: nat)
    | Abort(create: nat)
    | Compensate(create: nat, reaches: bool)
    | CancelOrder(order: OrderId, user: UserId, key: string)
    | UnlockCancelled(cancel: nat, reaches: bool)
    | Rehydrate
    | RelayOutbox(batch: seq<nat>, sent: nat, marked: bool)
    | Deliver(attempt: Attempt)
    | ResolveOffset
    | RestartConsumer
    | FirstRequest(terms: W.Terms)
    | Withdraw(withdrawal: nat, event: W.Event, reaches: bool)

  /** A sandbox deposit under a key of the client's choice, or a detected transfer on the chain. */
  function DepositRequest(onChain: bool, account: Account, amount: nat, key: string, reference: string): Mutation
  {
    if onChain then Mutation(ON_CHAIN_DEPOSIT, account, amount, key, Named(reference))
    else Mutation(DEPOSIT, account, amount, key, NoReference)
  }

  function StepDeposit(s: State, onChain: bool, account: Account, amount: nat, key: string, reference: string): State
  {
    s.(books := Call(s.books, DepositRequest(onChain, account, amount, key, reference), true).books)
  }

  predicate KeyUsed(creates: seq<Create>, key: string)
  {
    exists i :: 0 <= i < |creates| && creates[i].key == key
  }

  /** The idempotency record is inserted once a key; no two users share one. */
  function StepBeginCreate(s: State, user: UserId, pair: Pair, side: Side, price: nat, amount: nat, key: string): State
  {
    if price == 0 || amount == 0 || KeyUsed(s.creates, key) then s
    else s.(creates := s.creates + [Create(user, pair, side, price, amount, key, BEGUN, false, false, false, false)])
  }

  function LockRequest(c: Create): Mutation
  {
    Mutation(LOCK, c.LockAccount(), c.Lock(), LockKey(c.key), Named(c.key))
  }

  function UnlockRequest(c: Create): Mutation
  {
    Mutation(UNLOCK, c.LockAccount(), c.Lock(), UnlockKey(c.key), Named(c.key))
  }

  function AfterLock(c: Create, r: Reply, acknowledged: bool): Create
  {
    c.(phase := if r.accepted && acknowledged then LOCKED else REJECTED, lockApplied := r.applied,
       answerLost := !acknowledged)
  }

  function AfterUnlock(c: Create, r: Reply, reaches: bool): Create
  {
    c.(phase := REJECTED, unlockApplied := r.applied, unlockLost := !reaches)
  }

  /** An error, or a lost answer, fails the request without an unlock. */
  function StepLockFunds(s: State, create: nat, reaches: bool, acknowledged: bool): State
  {
    if create < |s.creates| && s.creates[create].phase == BEGUN then
      var c := s.creates[create];
      var r := Call(s.books, LockRequest(c), reaches);
      s.(books := r.books,
         creates := s.creates[create := AfterLock(c, r, acknowledged)])
    else s
  }

  /** The order transaction: insert, match, and write the trades to the outbox. */
  function StepCommit(s: State, create: nat): State
  {
    if create < |s.creates| && s.creates[create].phase == LOCKED then
      var c := s.creates[create];
      var (desk, trades) := Place(s.desk, c.Request());
      s.(desk := desk, trades := s.trades + trades, creates := s.creates[create := c.(phase := STORED)],
         channel := Enqueue(s.channel, |s.trades|, |trades|))
    else s
  }

  function StepAbort(s: State, create: nat): State
  {
    if create < |s.creates| && s.creates[create].phase == LOCKED
    then s.(creates := s.creates[create := s.creates[create].(phase := COMPENSATING)])
    else s
  }

  function StepCompensate(s: State, create: nat, reaches: bool): State
  {
    if create < |s.creates| && s.creates[create].phase == COMPENSATING then
      var c := s.creates[create];
      var r := Call(s.books, UnlockRequest(c), reaches);
      s.(books := r.books, creates := s.creates[create := AfterUnlock(c, r, reaches)])
    else s
  }

  function StepCancelOrder(s: State, order: OrderId, user: UserId, key: string): State
  {
    if order < |s.desk.rows| && s.desk.rows[order].user == user && s.desk.rows[order].Active() then
      var o := s.desk.rows[order];
      s.(desk := CancelOn(s.desk, order, true),
         cancels := s.cancels
           + [Cancel(order, o.Funding(), LockAmount(o.side, o.price, o.remaining), key, false, false, false)])
    else s
  }

  function CancelRequest(c: Cancel): Mutation
  {
    Mutation(UNLOCK, c.account, c.amount, CancelKey(c.key), OrderRef(c.order))
  }

  /** The unlock is called once and not at all for a zero amount. */
  function StepUnlockCancelled(s: State, cancel: nat, reaches: bool): State
  {
    if cancel < |s.cancels| && !s.cancels[cancel].attempted && s.cancels[cancel].amount > 0 then
      var c := s.cancels[cancel];
      var r := Call(s.books, CancelRequest(c), reaches);
      s.(books := r.books,
         cancels := s.cancels[cancel := c.(attempted := true, lost := !reaches, applied := r.applied)])
    else s
  }

  function StepRehydrate(s: State): State
  {
    s.(desk := s.desk.(book := Rehydrated(s.desk.rows, s.desk.book)))
  }

  /**
   The consumer handles the next message. A failure whose text reads like a poison pill sends the event to the
   dead-letter topic, if that works, and resolves its offset.
   */
  function StepDeliver(s: State, attempt: Attempt): State
  {
    if s.channel.cursor < |s.channel.log| && s.channel.log[s.channel.cursor] < |s.trades| then
      var id := s.channel.log[s.channel.cursor];
      var r := Handle(s.books, s.processed, s.trades[id], id, !attempt.Succeeds?);
      var buried := !r.handled && attempt == FailsAsPoison(true);
      s.(books := r.books, processed := r.processed,
         deadLettered := if buried then s.deadLettered + {id} else s.deadLettered,
         channel := if r.handled || buried then s.channel.(cursor := s.channel.cursor + 1) else s.channel)
    else s
  }

  predicate SagaKeyUsed(withdrawals: seq<W.Withdrawal>, key: string)
  {
    exists i :: 0 <= i < |withdrawals| && withdrawals[i].terms.key == key
  }

  predicate SagaIdUsed(withdrawals: seq<W.Withdrawal>, id: string)
  {
    exists i :: 0 <= i < |withdrawals| && withdrawals[i].terms.id == id
  }

  /**
   A withdrawal key is used for the first time. Its id is the one that the row will get; its terms are those of the
   lock, since a repeated lock with another amount is refused.
   */
  function StepFirstRequest(s: State, terms: W.Terms): State
  {
    if SagaKeyUsed(s.withdrawals, terms.key) || SagaIdUsed(s.withdrawals, terms.id) then s
    else s.(withdrawals := s.withdrawals + [W.Requested(terms)])
  }

  function WithdrawLockRequest(t: W.Terms): Mutation
  {
    Mutation(LOCK, t.account, t.amount, WithdrawLockKey(t.key), Named(t.key))
  }

  function CompensateRequest(t: W.Terms): Mutation
  {
    Mutation(UNLOCK, t.account, t.amount, CompensateKey(t.key), Named(t.key))
  }

  function WithdrawUnlockRequest(t: W.Terms): Mutation
  {
    Mutation(UNLOCK, t.account, t.amount, WithdrawUnlockKey(t.key), Named(t.id))
  }

  function DebitRequest(t: W.Terms): Mutation
  {
    Mutation(WITHDRAWAL, t.account, t.amount, DebitKey(t.id), Named(t.id))
  }

  /** The ledger call that an event of the saga makes, if any. */
  function LedgerCall(w: W.Withdrawal, e: W.Event): Option<Mutation>
  {
    match e
    case LockCall(i, _, _) => if W.At(w, i, W.CHECKED) then Some(WithdrawLockRequest(w.terms)) else None
    case CompensateCall(i, _) => if W.At(w, i, W.COMPENSATING) then Some(CompensateRequest(w.terms)) else None
    case Move(agent, Went(_, _)) =>
      if agent >= |w.agents| then None
      else if w.agents[agent] == W.DEBITING then Some(DebitRequest(w.terms))
      else if w.agents[agent] == W.UNLOCKING then Some(WithdrawUnlockRequest(w.terms))
      else None
    case _ => None
  }

  /** What the ledger did decides what the attempt or the agent may have seen; nothing else is decided here. */
  function Answered(e: W.Event, m: Option<Mutation>, r: Reply): W.Event
  {
    if m.None? then e else
    match e
    case LockCall(i, ok, _) => W.LockCall(i, ok && r.accepted, r.applied)
    case CompensateCall(i, _) => W.CompensateCall(i, r.applied)
    case Move(agent, Went(ok, _)) => W.Move(agent, W.Went(ok && r.accepted, r.applied))
    case _ => e
  }

  function CallIfAny(b: Books, m: Option<Mutation>, reaches: bool): Reply
  {
    match m
    case None => Reply(b, false, true)
    case Some(mutation) => Call(b, mutation, reaches)
  }

  /** One event of a withdrawal's saga, together with the ledger call it makes. */
  function StepSaga(env: W.Environment, s: State, i: nat, e: W.Event, reaches: bool): State
  {
    if i < |s.withdrawals| then
      var w := s.withdrawals[i];
      var m := LedgerCall(w, e);
      var r := CallIfAny(s.books, m, reaches);
      s.(books := r.books, withdrawals := s.withdrawals[i := W.Step(env, w, Answered(e, m, r))])
    else s
  }

  function Step(env: W.Environment, s: State, e: Event): State
  {
    match e
    case Deposit(onChain, account, amount, key, reference) => StepDeposit(s, onChain, account, amount, key, reference)
    case BeginCreate(user, pair, side, price, amount, key) => StepBeginCreate(s, user, pair, side, price, amount, key)
    case LockFunds(create, reaches, acknowledged) => StepLockFunds(s, create, reaches, acknowledged)
    case Commit(create) => StepCommit(s, create)
    case Abort(create) => StepAbort(s, create)
    case Compensate(create, reaches) => StepCompensate(s, create, reaches)
    case CancelOrder(order, user, key) => StepCancelOrder(s, order, user, key)
    case UnlockCancelled(cancel, reaches) => StepUnlockCancelled(s, cancel, reaches)
    case Rehydrate => StepRehydrate(s)
    case RelayOutbox(batch, sent, marked) => s.(channel := Relay(s.channel, batch, sent, marked))
    case Deliver(attempt) => StepDeliver(s, attempt)
    case ResolveOffset => s.(channel := CommitOffset(s.channel))
    case RestartConsumer => s.(channel := Restart(s.channel))
    case FirstRequest(terms) => StepFirstRequest(s, terms)
    case Withdraw(withdrawal, event, reaches) => StepSaga(env, s, withdrawal, event, reaches)
  }

  function Run(env: W.Environment, events: seq<Event>): State
  {
    if events == [] then EMPTY else Step(env, Run(env, events[..|events| - 1]), events[|events| - 1])
  }

  // ---------------------------------------------------------------------------------------------------------
  // The invariant. It holds in every environment; what a careful one adds is in the module Solvency.
  // ---------------------------------------------------------------------------------------------------------

  ghost predicate LedgerOk(b: Books)
  {
    Replays(b) && Conserves(b) && forall a: Account :: 0 <= BalanceOf(b, a).available
  }

  /** A trade pairs a buy and a sell of different users on one pair, at a price inside both limits. */
  predicate TradeFits(rows: seq<Order>, t: Trade)
  {
    && t.buyOrder < |rows| && t.sellOrder < |rows| && t.buyer != t.seller && 0 < t.quantity
    && rows[t.buyOrder].side == BUY && rows[t.sellOrder].side == SELL
    && rows[t.buyOrder].user == t.buyer && rows[t.sellOrder].user == t.seller
    && rows[t.buyOrder].pair == t.pair && rows[t.sellOrder].pair == t.pair
    && rows[t.buyOrder].price == t.buyerLimit && rows[t.sellOrder].price <= t.price <= t.buyerLimit
  }

  predicate TradesFit(rows: seq<Order>, trades: seq<Trade>)
  {
    forall i :: 0 <= i < |trades| ==> TradeFits(rows, trades[i])
  }

  ghost predicate MarketOk(d: Desk, trades: seq<Trade>)
  {
    DeskOk(d) && TradesFit(d.rows, trades) && OrdersAccounted(d.rows, |d.rows|, trades)
  }

  /** A settled trade has its four ledger rows, any other none. */
  ghost predicate FourRowsEach(rows: seq<Row>, processed: set<nat>)
  {
    forall id: nat :: Sums.Sum(rows, OfTrade(id)) == if id in processed then 4 else 0
  }

  function LockedByTrade(trade: nat, a: Account): Row -> int
  {
    (r: Row) => if r.reference == TradeRef(trade) && r.account == a then r.lockedDelta else 0
  }

  /** What a settled trade's rows take out of locked balances is its deduction; other trades have taken nothing. */
  ghost predicate TradesEntered(rows: seq<Row>, trades: seq<Trade>, processed: set<nat>)
  {
    forall id: nat, a: Account ::
      Sums.Sum(rows, LockedByTrade(id, a))
      == if id in processed && id < |trades| then 0 - TradeDeduction(a)(trades[id]) else 0
  }

  predicate Recorded(rows: seq<Row>, key: string, kind: Kind)
  {
    FindKey(rows, key).Some? && FindKey(rows, key).value.kind == kind
  }

  /** The ledger holds an entry of this kind and amount on this account, with its two deltas. */
  predicate Entered(rows: seq<Row>, key: string, kind: Kind, account: Account, amount: nat)
  {
    && FindKey(rows, key).Some?
    && var r := FindKey(rows, key).value;
       && r.kind == kind && r.account == account && r.amount == amount
       && r.availableDelta == AvailableDelta(kind, amount) && r.lockedDelta == LockedDelta(kind, amount)
  }

  /** The ledger holds a create's lock exactly if it was applied, and its compensating unlock likewise. */
  predicate CreateOk(rows: seq<Row>, c: Create)
  {
    && 0 < c.price && 0 < c.amount
    && (c.lockApplied <==> Recorded(rows, LockKey(c.key), LOCK))
    && (c.lockApplied ==> Entered(rows, LockKey(c.key), LOCK, c.LockAccount(), c.Lock()))
    && (c.unlockApplied <==> Recorded(rows, UnlockKey(c.key), UNLOCK))
    && (c.unlockApplied ==> Entered(rows, UnlockKey(c.key), UNLOCK, c.LockAccount(), c.Lock()))
    && (c.phase == BEGUN ==> !c.lockApplied && !c.unlockApplied)
    && (c.phase == LOCKED || c.phase == COMPENSATING || c.phase == STORED ==> c.lockApplied && !c.unlockApplied)
    && (c.unlockApplied ==> c.lockApplied) && (c.lockApplied ==> 0 < c.Lock())
  }

  ghost predicate CreatesOk(rows: seq<Row>, creates: seq<Create>)
  {
    && (forall i :: 0 <= i < |creates| ==> CreateOk(rows, creates[i]))
    && (forall i, j :: 0 <= i < j < |creates| ==> creates[i].key != creates[j].key)
    && (forall key: string :: Recorded(rows, LockKey(key), LOCK) ==> KeyUsed(creates, key))
    && (forall key: string :: Recorded(rows, UnlockKey(key), UNLOCK) ==> KeyUsed(creates, key))
  }

  /** The order row a create stored. */
  predicate Stored(c: Create, o: Order)
  {
    c.phase == STORED && o.key == c.key && o.user == c.user && o.pair == c.pair && o.side == c.side
    && o.price == c.price && o.amount == c.amount
  }

  predicate HasCreate(creates: seq<Create>, o: Order)
  {
    exists i :: 0 <= i < |creates| && Stored(creates[i], o)
  }

  predicate OrdersLinked(orders: seq<Order>, creates: seq<Create>)
  {
    && (forall id :: 0 <= id < |orders| ==> HasCreate(creates, orders[id]))
    && (forall i, j :: 0 <= i < j < |orders| ==> orders[i].key != orders[j].key)
  }

  predicate CancelOk(orders: seq<Order>, c: Cancel)
  {
    && c.order < |orders| && orders[c.order].status == CANCELLED
    && c.account == orders[c.order].Funding()
    && c.amount == LockAmount(orders[c.order].side, orders[c.order].price, orders[c.order].remaining)
    && (c.applied ==> c.attempted)
  }

  predicate HasCancel(cancels: seq<Cancel>, id: OrderId)
  {
    exists j :: 0 <= j < |cancels| && cancels[j].order == id
  }

  /** Every cancelled order has exactly one cancel. */
  predicate CancelsOk(orders: seq<Order>, cancels: seq<Cancel>)
  {
    && (forall j :: 0 <= j < |cancels| ==> CancelOk(orders, cancels[j]))
    && (forall i, j :: 0 <= i < j < |cancels| ==> cancels[i].order != cancels[j].order)
    && (forall id :: 0 <= id < |orders| && orders[id].status == CANCELLED ==> HasCancel(cancels, id))
  }

  function LockedByOrder(id: OrderId): Row -> int
  {
    (r: Row) => if r.reference == OrderRef(id) then r.lockedDelta else 0
  }

  function UnlockedFor(id: OrderId): Cancel -> int
  {
    (c: Cancel) => if c.applied && c.order == id then c.amount else 0
  }

  /** An applied cancel has its entry under its key, and rows that refer to an order are its cancel's unlock. */
  ghost predicate CancelsEntered(rows: seq<Row>, cancels: seq<Cancel>)
  {
    && (forall j :: 0 <= j < |cancels| && cancels[j].applied ==>
          Entered(rows, CancelKey(cancels[j].key), UNLOCK, cancels[j].account, cancels[j].amount))
    && (forall id: OrderId :: Sums.Sum(rows, LockedByOrder(id)) == 0 - Sums.Sum(cancels, UnlockedFor(id)))
  }

  /** The saga's flags are what the ledger holds: lock, compensation, unlock and debit, each if it happened. */
  predicate WithdrawalOk(rows: seq<Row>, w: W.Withdrawal)
  {
    && W.Sound(w)
    && FlagOk(rows, w.locked, WithdrawLockKey(w.terms.key), LOCK, w.terms)
    && FlagOk(rows, w.compensated, CompensateKey(w.terms.key), UNLOCK, w.terms)
    && FlagOk(rows, w.unlocked, WithdrawUnlockKey(w.terms.key), UNLOCK, w.terms)
    && FlagOk(rows, w.debited, DebitKey(w.terms.id), WITHDRAWAL, w.terms)
  }

  predicate FlagOk(rows: seq<Row>, flag: bool, key: string, kind: Kind, t: W.Terms)
  {
    && (flag <==> Recorded(rows, key, kind))
    && (flag ==> Entered(rows, key, kind, t.account, t.amount))
  }

  /** No saga entry without its saga. */
  ghost predicate SagaEntriesOwned(rows: seq<Row>, withdrawals: seq<W.Withdrawal>)
  {
    && (forall key: string :: Recorded(rows, WithdrawLockKey(key), LOCK) ==> SagaKeyUsed(withdrawals, key))
    && (forall key: string :: Recorded(rows, CompensateKey(key), UNLOCK) ==> SagaKeyUsed(withdrawals, key))
    && (forall key: string :: Recorded(rows, WithdrawUnlockKey(key), UNLOCK) ==> SagaKeyUsed(withdrawals, key))
    && (forall id: string :: Recorded(rows, DebitKey(id), WITHDRAWAL) ==> SagaIdUsed(withdrawals, id))
  }

  ghost predicate WithdrawalsOk(rows: seq<Row>, withdrawals: seq<W.Withdrawal>)
  {
    && (forall i :: 0 <= i < |withdrawals| ==> WithdrawalOk(rows, withdrawals[i]))
    && (forall i, j :: 0 <= i < j < |withdrawals| ==>
          withdrawals[i].terms.id != withdrawals[j].terms.id && withdrawals[i].terms.key != withdrawals[j].terms.key)
    && SagaEntriesOwned(rows, withdrawals)
  }

  // What each table says is locked on an account.

  function Held(a: Account): Create -> int
  {
    (c: Create) => if c.lockApplied && !c.unlockApplied && c.LockAccount() == a then c.Lock() else 0
  }

  /** The locks behind stored orders. */
  function Backing(a: Account): Create -> int
  {
    (c: Create) => if c.phase == STORED && c.LockAccount() == a then c.Lock() else 0
  }

  function Unlocked(a: Account): Cancel -> int
  {
    (c: Cancel) => if c.applied && c.account == a then c.amount else 0
  }

  function Freed(a: Account): Cancel -> int
  {
    (c: Cancel) => if c.account == a then c.amount else 0
  }

  function NetOf(a: Account): W.Withdrawal -> int
  {
    (w: W.Withdrawal) => if w.terms.account == a then W.Net(w) else 0
  }

  /** The locked balance is what the tables of the other services account for. */
  ghost predicate LockedOk(b: Books, creates: seq<Create>, cancels: seq<Cancel>, trades: seq<Trade>,
                           processed: set<nat>, withdrawals: seq<W.Withdrawal>)
  {
    forall a: Account :: BalanceOf(b, a).locked
      == Sums.Sum(creates, Held(a)) - Sums.Sum(cancels, Unlocked(a))
         - Sums.SumMarked(trades, processed, TradeDeduction(a)) + Sums.Sum(withdrawals, NetOf(a))
  }

  /** What the locks behind stored orders exceed reservations, trades and cancelled rests by: rounding dust. */
  function Dust(creates: seq<Create>, orders: seq<Order>, trades: seq<Trade>, cancels: seq<Cancel>, a: Account): int
  {
    Sums.Sum(creates, Backing(a)) - Sums.Sum(orders, Reserved(a)) - Sums.Sum(trades, TradeDeduction(a))
    - Sums.Sum(cancels, Freed(a))
  }

  ghost predicate CoveredOk(creates: seq<Create>, orders: seq<Order>, trades: seq<Trade>, cancels: seq<Cancel>)
  {
    forall a: Account ::
      0 <= Dust(creates, orders, trades, cancels, a) <= 2 * Sums.Sum(trades, BuysOn(a))
  }

  ghost predicate Inv(s: State)
  {
    && LedgerOk(s.books)
    && MarketOk(s.desk, s.trades)
    && ChannelOk(s.channel, |s.trades|, s.processed + s.deadLettered)
    && FourRowsEach(s.books.rows, s.processed)
    && TradesEntered(s.books.rows, s.trades, s.processed)
    && CreatesOk(s.books.rows, s.creates)
    && OrdersLinked(s.desk.rows, s.creates)
    && CancelsOk(s.desk.rows, s.cancels)
    && CancelsEntered(s.books.rows, s.cancels)
    && WithdrawalsOk(s.books.rows, s.withdrawals)
    && LockedOk(s.books, s.creates, s.cancels, s.trades, s.processed, s.withdrawals)
    && CoveredOk(s.creates, s.desk.rows, s.trades, s.cancels)
  }
}
