/**
 What a careful environment adds to the invariant: waiting for a receipt does not throw, and no withdrawal key is
 requested twice at the same time or again after a failed insert. Then every locked balance splits into what orders,
 trades and withdrawals still need and what is stranded, and the ledger grants every unlock and debit a saga asks for.
 */
module Solvency {
  import opened Wrappers
  import opened Domain
  import opened Sums
  import opened Ledger
  import opened Settlement
  import opened Agreement
  import opened Reservations
  import opened Delivery
  import opened Exchange
  import opened Calls
  import opened Safety
  import W = Withdrawals

  predicate Careful(env: W.Environment)
  {
    !env.waitMayThrow && !env.keyReusedAfterCompensation && !env.concurrentRequests
  }

  /** The key is recorded for something else than the given kind of call. */
  predicate KeyTaken(rows: seq<Row>, key: string, kind: Kind)
  {
    FindKey(rows, key).Some? && FindKey(rows, key).value.kind != kind
  }

  /** Why a rejected create still holds its lock: an answer or an unlock was lost, or the unlock's key is taken. */
  predicate CreateExplained(rows: seq<Row>, c: Create)
  {
    && (c.phase == REJECTED && c.lockApplied && !c.unlockApplied ==>
          c.answerLost || c.unlockLost || KeyTaken(rows, UnlockKey(c.key), UNLOCK))
    && (c.answerLost ==> c.phase == REJECTED && !c.unlockApplied)
    && (c.unlockLost ==> c.phase == REJECTED && !c.unlockApplied)
  }

  predicate CancelExplained(rows: seq<Row>, c: Cancel)
  {
    && (c.attempted && !c.applied ==> c.lost || FindKey(rows, CancelKey(c.key)).Some?)
    && (c.lost ==> c.attempted && !c.applied)
  }

  predicate SagasSafe(withdrawals: seq<W.Withdrawal>)
  {
    forall i :: 0 <= i < |withdrawals| ==> W.Orderly(withdrawals[i]) && W.Decided(withdrawals[i])
  }

  predicate CreatesExplained(rows: seq<Row>, creates: seq<Create>)
  {
    forall i :: 0 <= i < |creates| ==> CreateExplained(rows, creates[i])
  }

  predicate CancelsExplained(rows: seq<Row>, cancels: seq<Cancel>)
  {
    forall j :: 0 <= j < |cancels| ==> CancelExplained(rows, cancels[j])
  }

  ghost predicate SafeInv(s: State)
  {
    && Inv(s) && SagasSafe(s.withdrawals)
    && CreatesExplained(s.books.rows, s.creates) && CancelsExplained(s.books.rows, s.cancels)
  }

  // ---------------------------------------------------------------------------------------------------------
  // What a locked balance consists of
  // ---------------------------------------------------------------------------------------------------------

  function OwedTo(a: Account): W.Withdrawal -> int
  {
    (w: W.Withdrawal) => if w.terms.account == a then W.Owed(w) else 0
  }

  /** Locks whose order is not stored, and cancelled rests whose unlock has not been applied. */
  function Loose(a: Account): Create -> int
  {
    (c: Create) => Held(a)(c) - Backing(a)(c)
  }

  function StillLocked(a: Account): Cancel -> int
  {
    (c: Cancel) => Freed(a)(c) - Unlocked(a)(c)
  }

  /** What stays to be deducted on an account: committed trades that are not settled. */
  function Unsettled(trades: seq<Trade>, processed: set<nat>, a: Account): int
  {
    Sum(trades, TradeDeduction(a)) - SumMarked(trades, processed, TradeDeduction(a))
  }

  lemma {:induction false} NetsAreOwed(rows: seq<Row>, withdrawals: seq<W.Withdrawal>, a: Account)
    requires WithdrawalsOk(rows, withdrawals) && SagasSafe(withdrawals)
    ensures Sum(withdrawals, NetOf(a)) == Sum(withdrawals, OwedTo(a))
  {
    hide SagaEntriesOwned, FlagOk, W.Sound, W.Orderly, W.Decided, W.Net, W.Owed;
    forall i | 0 <= i < |withdrawals| ensures NetOf(a)(withdrawals[i]) == OwedTo(a)(withdrawals[i]) {
      assert WithdrawalOk(rows, withdrawals[i]);
      W.NetIsOwed(withdrawals[i]);
    }
    SameSum(withdrawals, NetOf(a), OwedTo(a));
  }

  lemma {:induction false} LooseIsPositive(rows: seq<Row>, creates: seq<Create>, i: nat, a: Account)
    requires CreatesOk(rows, creates) && i < |creates|
    ensures 0 <= Loose(a)(creates[i])
  {
    assert CreateOk(rows, creates[i]);
    assert Backing(a)(creates[i]) <= Held(a)(creates[i]);
  }

  /**
   A locked balance is, to the unit: reservations of open orders, deductions of unsettled trades, what withdrawals are
   owed, locks without an order, cancelled rests without an unlock, and rounding dust. None of the six is negative.
   */
  lemma {:induction false} LockedSplits(s: State, a: Account)
    requires SafeInv(s)
    ensures BalanceOf(s.books, a).locked
         == Sum(s.desk.rows, Reserved(a)) + Unsettled(s.trades, s.processed, a) + Sum(s.withdrawals, OwedTo(a))
            + Sum(s.creates, Loose(a)) + Sum(s.cancels, StillLocked(a))
            + Dust(s.creates, s.desk.rows, s.trades, s.cancels, a)
    ensures 0 <= Sum(s.desk.rows, Reserved(a)) && 0 <= Unsettled(s.trades, s.processed, a)
    ensures 0 <= Sum(s.withdrawals, OwedTo(a)) && 0 <= Sum(s.creates, Loose(a)) && 0 <= Sum(s.cancels, StillLocked(a))
    ensures 0 <= Dust(s.creates, s.desk.rows, s.trades, s.cancels, a)
  {
    hide LedgerOk, MarketOk, ChannelOk, FourRowsEach, TradesEntered, CreatesOk, OrdersLinked, CancelsOk, CancelsEntered,
         WithdrawalsOk, SagasSafe, CreatesExplained, CancelsExplained;
    NetsAreOwed(s.books.rows, s.withdrawals, a);
    SumDifference(s.creates, Held(a), Backing(a), Loose(a));
    SumDifference(s.cancels, Freed(a), Unlocked(a), StillLocked(a));
    forall i | 0 <= i < |s.creates| ensures 0 <= Loose(a)(s.creates[i]) {
      LooseIsPositive(s.books.rows, s.creates, i, a);
    }
    SumNonNegative(s.creates, Loose(a));
    SumNonNegative(s.cancels, StillLocked(a));
    SumNonNegative(s.desk.rows, Reserved(a));
    SumNonNegative(s.withdrawals, OwedTo(a));
    SumMarkedBounds(s.trades, s.processed, TradeDeduction(a));
    assert 0 <= Dust(s.creates, s.desk.rows, s.trades, s.cancels, a);
  }

  lemma {:induction false} PartOfSum<T>(s: seq<T>, i: nat, f: T -> int)
    requires i < |s| && forall j :: 0 <= j < |s| ==> 0 <= f(s[j])
    ensures f(s[i]) <= Sum(s, f)
  {
    SumRemoveAt(s, i, f);
    var rest := s[..i] + s[i + 1..];
    forall j | 0 <= j < |rest| ensures 0 <= f(rest[j]) {
      assert rest[j] == if j < i then s[j] else s[j + 1];
    }
    SumNonNegative(rest, f);
  }

  // ---------------------------------------------------------------------------------------------------------
  // What the ledger grants
  // ---------------------------------------------------------------------------------------------------------

  /** An unlock or debit of something that is locked is applied exactly when nothing is recorded under its key. */
  lemma {:induction false} CoveredCallGranted(b: Books, m: Mutation)
    requires (m.kind == UNLOCK || m.kind == WITHDRAWAL) && 0 < m.amount <= BalanceOf(b, m.account).locked
    ensures Call(b, m, true).applied <==> FindKey(b.rows, m.key).None?
  {
  }

  /**
   The compensating unlock of a create is never refused for want of funds: if it reaches the accounts service, it is
   applied, unless something else was recorded under its key before.
   */
  lemma {:induction false} CompensationGranted(s: State, i: nat)
    requires SafeInv(s) && i < |s.creates| && s.creates[i].phase == COMPENSATING
    ensures var c := s.creates[i];
            && (Call(s.books, UnlockRequest(c), true).applied <==> FindKey(s.books.rows, UnlockKey(c.key)).None?)
            && (FindKey(s.books.rows, UnlockKey(c.key)).Some? ==> KeyTaken(s.books.rows, UnlockKey(c.key), UNLOCK))
  {
    hide SafeInv, Call;
    var c := s.creates[i];
    var a := c.LockAccount();
    LockedSplits(s, a);
    CreateOf(s, i);
    forall j | 0 <= j < |s.creates| ensures 0 <= Loose(a)(s.creates[j]) {
      CreateOf(s, j);
    }
    PartOfSum(s.creates, i, Loose(a));
    CoveredCallGranted(s.books, UnlockRequest(c));
  }

  lemma {:induction false} CreateOf(s: State, i: nat)
    requires SafeInv(s) && i < |s.creates|
    ensures CreateOk(s.books.rows, s.creates[i])
  {
    hide LedgerOk, MarketOk, ChannelOk, FourRowsEach, TradesEntered, OrdersLinked, CancelsOk, CancelsEntered,
         WithdrawalsOk, LockedOk, CoveredOk, SagasSafe, CreatesExplained, CancelsExplained;
  }

  /** The unlock of a cancelled order is applied if it arrives and its key was never used. */
  lemma {:induction false} CancelGranted(s: State, j: nat)
    requires SafeInv(s) && j < |s.cancels| && !s.cancels[j].attempted && s.cancels[j].amount > 0
    ensures var c := s.cancels[j];
            Call(s.books, CancelRequest(c), true).applied <==> FindKey(s.books.rows, CancelKey(c.key)).None?
  {
    hide SafeInv, Call;
    var c := s.cancels[j];
    LockedSplits(s, c.account);
    NotApplied(s, j);
    PartOfSum(s.cancels, j, StillLocked(c.account));
    CoveredCallGranted(s.books, CancelRequest(c));
  }

  lemma {:induction false} NotApplied(s: State, j: nat)
    requires SafeInv(s) && j < |s.cancels| && !s.cancels[j].attempted
    ensures !s.cancels[j].applied
  {
    hide LedgerOk, MarketOk, ChannelOk, FourRowsEach, TradesEntered, CreatesOk, OrdersLinked, CancelsEntered,
         WithdrawalsOk, LockedOk, CoveredOk, SagasSafe, CreatesExplained, CancelsExplained;
    assert CancelOk(s.desk.rows, s.cancels[j]);
  }

  /** As long as a withdrawal is owed its funds, its unlock, its debit and its compensation are granted. */
  lemma {:induction false} SagaCallGranted(s: State, i: nat, m: Mutation)
    requires SafeInv(s) && i < |s.withdrawals| && W.Owed(s.withdrawals[i]) > 0
    requires var t := s.withdrawals[i].terms;
             m == CompensateRequest(t) || m == WithdrawUnlockRequest(t) || m == DebitRequest(t)
    ensures Call(s.books, m, true).applied <==> FindKey(s.books.rows, m.key).None?
  {
    hide SafeInv, Call;
    LockedSplits(s, m.account);
    PartOfSum(s.withdrawals, i, OwedTo(m.account));
    CoveredCallGranted(s.books, m);
  }

  // ---------------------------------------------------------------------------------------------------------
  // Keys
  // ---------------------------------------------------------------------------------------------------------

  /** Which keys each kind of entry can have. A client chooses the key of a sandbox deposit freely. */
  predicate PrefixFits(kind: Kind, key: string)
  {
    match kind
    case DEPOSIT | ON_CHAIN_DEPOSIT => true
    case LOCK => LockKey("") <= key || WithdrawLockKey("") <= key
    case UNLOCK =>
      UnlockKey("") <= key || CancelKey("") <= key || CompensateKey("") <= key || WithdrawUnlockKey("") <= key
    case WITHDRAWAL => DebitKey("") <= key
    case TRADE_SETTLEMENT => false
  }

  /** What one event can do under a key: keep its entry, or write the first one. */
  predicate FindsKept(before: seq<Row>, after: seq<Row>, key: string, e: Event)
  {
    && (FindKey(before, key).Some? ==> FindKey(after, key) == FindKey(before, key))
    && (FindKey(before, key).None? && FindKey(after, key).Some? ==>
          PrefixFits(FindKey(after, key).value.kind, key)
          && (CreatesAccount(FindKey(after, key).value.kind) ==> e.Deposit? && e.key == key))
  }

  lemma {:induction false} CallFindsKept(b: Books, m: Mutation, reaches: bool, key: string, e: Event)
    requires PrefixFits(m.kind, m.key) && (CreatesAccount(m.kind) ==> e.Deposit? && e.key == m.key)
    ensures FindsKept(b.rows, Call(b, m, reaches).books.rows, key, e)
  {
    hide Call;
    CallFinds(b, m, reaches, key);
    CallPosts(b, m, reaches);
  }

  lemma {:induction false} SagaKeysFit(w: W.Withdrawal, e: W.Event)
    requires LedgerCall(w, e).Some?
    ensures var m := LedgerCall(w, e).value; PrefixFits(m.kind, m.key) && !CreatesAccount(m.kind)
  {
  }

  lemma {:induction false} StepFindsKept(env: W.Environment, s: State, e: Event, key: string)
    ensures FindsKept(s.books.rows, Step(env, s, e).books.rows, key, e)
  {
    hide Call, Place, PrefixFits, LedgerCall, W.Step;
    match e
    case Deposit(onChain, account, amount, k, reference) =>
      PrefixesFit();
      CallFindsKept(s.books, DepositRequest(onChain, account, amount, k, reference), true, key, e);
    case LockFunds(create, reaches, acknowledged) =>
      if create < |s.creates| {
        OrderKeysFit(s.creates[create].key);
        CallFindsKept(s.books, LockRequest(s.creates[create]), reaches, key, e);
      }
    case Compensate(create, reaches) =>
      if create < |s.creates| {
        OrderKeysFit(s.creates[create].key);
        CallFindsKept(s.books, UnlockRequest(s.creates[create]), reaches, key, e);
      }
    case UnlockCancelled(cancel, reaches) =>
      if cancel < |s.cancels| {
        OrderKeysFit(s.cancels[cancel].key);
        CallFindsKept(s.books, CancelRequest(s.cancels[cancel]), reaches, key, e);
      }
    case Deliver(attempt) =>
      if s.channel.cursor < |s.channel.log| && s.channel.log[s.channel.cursor] < |s.trades| {
        var id := s.channel.log[s.channel.cursor];
        HandleFinds(s.books, s.processed, s.trades[id], id, !attempt.Succeeds?, key);
      }
    case Withdraw(i, event, reaches) =>
      if i < |s.withdrawals| && LedgerCall(s.withdrawals[i], event).Some? {
        SagaKeysFit(s.withdrawals[i], event);
        CallFindsKept(s.books, LedgerCall(s.withdrawals[i], event).value, reaches, key, e);
      }
    case _ =>
  }

  lemma {:induction false} PrefixesFit()
    ensures forall key: string :: PrefixFits(DEPOSIT, key) && PrefixFits(ON_CHAIN_DEPOSIT, key)
  {
  }

  lemma {:induction false} OrderKeysFit(key: string)
    ensures PrefixFits(LOCK, LockKey(key)) && PrefixFits(UNLOCK, UnlockKey(key)) && PrefixFits(UNLOCK, CancelKey(key))
  {
  }

  predicate Deposited(events: seq<Event>, key: string)
  {
    exists i :: 0 <= i < |events| && events[i].Deposit? && events[i].key == key
  }

  /** In every run, an entry's kind fits its key, and a deposit's entry was some deposit's. */
  lemma {:induction false} RunKeys(env: W.Environment, events: seq<Event>, key: string)
    requires FindKey(Run(env, events).books.rows, key).Some?
    ensures var kind := FindKey(Run(env, events).books.rows, key).value.kind;
            PrefixFits(kind, key) && (CreatesAccount(kind) ==> Deposited(events, key))
  {
    hide Step, PrefixFits;
    if events != [] {
      var init, e := events[..|events| - 1], events[|events| - 1];
      StepFindsKept(env, Run(env, init), e, key);
      if FindKey(Run(env, init).books.rows, key).Some? {
        RunKeys(env, init, key);
        if Deposited(init, key) {
          var i :| 0 <= i < |init| && init[i].Deposit? && init[i].key == key;
          assert events[i] == init[i];
        }
      } else {
        assert events[|events| - 1] == e;
      }
    }
  }

  // ---------------------------------------------------------------------------------------------------------
  // Every step of a careful environment
  // ---------------------------------------------------------------------------------------------------------

  ghost predicate KeysKept(before: seq<Row>, after: seq<Row>)
  {
    forall key: string :: FindKey(before, key).Some? ==> FindKey(after, key) == FindKey(before, key)
  }

  lemma {:induction false} StepKeepsKeys(env: W.Environment, s: State, e: Event)
    ensures KeysKept(s.books.rows, Step(env, s, e).books.rows)
  {
    hide Step;
    forall key: string | FindKey(s.books.rows, key).Some?
      ensures FindKey(Step(env, s, e).books.rows, key) == FindKey(s.books.rows, key)
    {
      StepFindsKept(env, s, e, key);
    }
  }

  /** An explanation stays one, whatever is recorded later. */
  lemma {:induction false} ExplanationsStay(before: seq<Row>, after: seq<Row>, creates: seq<Create>,
                                            cancels: seq<Cancel>)
    requires CreatesExplained(before, creates) && CancelsExplained(before, cancels) && KeysKept(before, after)
    ensures CreatesExplained(after, creates) && CancelsExplained(after, cancels)
  {
    forall i | 0 <= i < |creates| ensures CreateExplained(after, creates[i]) {
      assert CreateExplained(before, creates[i]);
    }
    forall j | 0 <= j < |cancels| ensures CancelExplained(after, cancels[j]) {
      assert CancelExplained(before, cancels[j]);
    }
  }

  lemma {:induction false} ReplacedExplained(rows: seq<Row>, creates: seq<Create>, i: nat, c: Create)
    requires CreatesExplained(rows, creates) && i < |creates| && CreateExplained(rows, c)
    ensures CreatesExplained(rows, creates[i := c])
  {
  }

  lemma {:induction false} LockExplained(s: State, i: nat, reaches: bool, acknowledged: bool)
    requires SafeInv(s) && i < |s.creates| && s.creates[i].phase == BEGUN
    ensures var r := Call(s.books, LockRequest(s.creates[i]), reaches);
            CreateExplained(r.books.rows, AfterLock(s.creates[i], r, acknowledged))
  {
    hide Inv, SagasSafe, CancelsExplained, Call;
    assert CreateExplained(s.books.rows, s.creates[i]);
    CreateOf(s, i);
    CallPosts(s.books, LockRequest(s.creates[i]), reaches);
  }

  lemma {:induction false} UnlockExplained(s: State, i: nat, reaches: bool)
    requires SafeInv(s) && i < |s.creates| && s.creates[i].phase == COMPENSATING
    ensures var r := Call(s.books, UnlockRequest(s.creates[i]), reaches);
            CreateExplained(r.books.rows, AfterUnlock(s.creates[i], r, reaches))
  {
    hide Inv, SagasSafe, CancelsExplained, Call;
    var c := s.creates[i];
    assert CreateExplained(s.books.rows, c);
    CompensationGranted(s, i);
    CallPosts(s.books, UnlockRequest(c), reaches);
    LostCall(s.books, UnlockRequest(c), reaches);
  }

  lemma {:induction false} LostCall(b: Books, m: Mutation, reaches: bool)
    ensures Call(b, m, reaches).applied ==> reaches
  {
  }

  lemma {:induction false} CancelUnlockExplained(s: State, j: nat, reaches: bool)
    requires SafeInv(s) && j < |s.cancels| && !s.cancels[j].attempted && s.cancels[j].amount > 0
    ensures var r := Call(s.books, CancelRequest(s.cancels[j]), reaches);
            CancelExplained(r.books.rows,
                            s.cancels[j].(attempted := true, lost := !reaches, applied := r.applied))
  {
    hide Inv, SagasSafe, CreatesExplained, Call;
    CancelGranted(s, j);
    CallPosts(s.books, CancelRequest(s.cancels[j]), reaches);
    LostCall(s.books, CancelRequest(s.cancels[j]), reaches);
  }

  lemma {:induction false} StepKeepsExplanations(env: W.Environment, s: State, e: Event)
    requires SafeInv(s)
    ensures var t := Step(env, s, e);
            CreatesExplained(t.books.rows, t.creates) && CancelsExplained(t.books.rows, t.cancels)
  {
    hide Inv, SagasSafe, CreatesExplained, CancelsExplained, CreateExplained, CancelExplained, Call, Place, Handle,
         CallIfAny, KeysKept, W.Step;
    var t := Step(env, s, e);
    StepKeepsKeys(env, s, e);
    ExplanationsStay(s.books.rows, t.books.rows, s.creates, s.cancels);
    match e
    case BeginCreate(_, _, _, _, _, _) => NewCreateExplained(s, t);
    case LockFunds(i, reaches, acknowledged) =>
      if i < |s.creates| && s.creates[i].phase == BEGUN {
        LockExplained(s, i, reaches, acknowledged);
        ReplacedExplained(t.books.rows, s.creates, i, t.creates[i]);
      }
    case Commit(i) => MovedExplained(s, i, STORED);
    case Abort(i) => MovedExplained(s, i, COMPENSATING);
    case Compensate(i, reaches) =>
      if i < |s.creates| && s.creates[i].phase == COMPENSATING {
        UnlockExplained(s, i, reaches);
        ReplacedExplained(t.books.rows, s.creates, i, t.creates[i]);
      }
    case CancelOrder(_, _, _) => NewCancelExplained(s, t);
    case UnlockCancelled(j, reaches) =>
      if j < |s.cancels| && !s.cancels[j].attempted && s.cancels[j].amount > 0 {
        CancelUnlockExplained(s, j, reaches);
        ReplacedCancelExplained(t.books.rows, s.cancels, j, t.cancels[j]);
      }
    case _ =>
  }

  lemma {:induction false} NewCreateExplained(s: State, t: State)
    requires CreatesExplained(s.books.rows, s.creates) && t.books == s.books
    requires t.creates == s.creates
             || (|t.creates| == |s.creates| + 1 && t.creates[..|s.creates|] == s.creates
                 && var c := t.creates[|s.creates|]; c.phase == BEGUN && !c.answerLost && !c.unlockLost)
    ensures CreatesExplained(t.books.rows, t.creates)
  {
    if t.creates != s.creates {
      forall i | 0 <= i < |t.creates| ensures CreateExplained(t.books.rows, t.creates[i]) {
        if i < |s.creates| {
          assert t.creates[i] == t.creates[..|s.creates|][i] && CreateExplained(s.books.rows, s.creates[i]);
        }
      }
    }
  }

  lemma {:induction false} MovedExplained(s: State, i: nat, phase: Phase)
    requires CreatesExplained(s.books.rows, s.creates) && (phase == STORED || phase == COMPENSATING)
    ensures i < |s.creates| && s.creates[i].phase == LOCKED ==>
              CreatesExplained(s.books.rows, s.creates[i := s.creates[i].(phase := phase)])
  {
    if i < |s.creates| && s.creates[i].phase == LOCKED {
      assert CreateExplained(s.books.rows, s.creates[i]);
    }
  }

  lemma {:induction false} NewCancelExplained(s: State, t: State)
    requires CancelsExplained(s.books.rows, s.cancels) && t.books == s.books
    requires t.cancels == s.cancels
             || (|t.cancels| == |s.cancels| + 1 && t.cancels[..|s.cancels|] == s.cancels
                 && var c := t.cancels[|s.cancels|]; !c.attempted && !c.lost)
    ensures CancelsExplained(t.books.rows, t.cancels)
  {
    if t.cancels != s.cancels {
      forall j | 0 <= j < |t.cancels| ensures CancelExplained(t.books.rows, t.cancels[j]) {
        if j < |s.cancels| {
          assert t.cancels[j] == t.cancels[..|s.cancels|][j] && CancelExplained(s.books.rows, s.cancels[j]);
        }
      }
    }
  }

  lemma {:induction false} ReplacedCancelExplained(rows: seq<Row>, cancels: seq<Cancel>, j: nat, c: Cancel)
    requires CancelsExplained(rows, cancels) && j < |cancels| && CancelExplained(rows, c)
    ensures CancelsExplained(rows, cancels[j := c])
  {
  }

  /** A careful environment keeps every saga's attempts in order and its decision final. */
  lemma {:induction false} StepKeepsSagasSafe(env: W.Environment, s: State, e: Event)
    requires Careful(env) && Inv(s) && SagasSafe(s.withdrawals)
    ensures SagasSafe(Step(env, s, e).withdrawals)
  {
    hide Inv, Call, Place, Handle, CallIfAny, W.Step, W.Orderly, W.Decided, LedgerCall;
    match e
    case FirstRequest(terms) => W.InitialIsSound(W.Requested(terms));
    case Withdraw(i, event, reaches) =>
      if i < |s.withdrawals| {
        var w := s.withdrawals[i];
        var m := LedgerCall(w, event);
        var answered := Answered(event, m, CallIfAny(s.books, m, reaches));
        SagaSound(s, i);
        W.StepKeepsOrderly(env, w, answered);
        W.StepKeepsDecided(env, w, answered);
      }
    case _ =>
  }

  lemma {:induction false} SagaSound(s: State, i: nat)
    requires Inv(s) && i < |s.withdrawals|
    ensures W.Sound(s.withdrawals[i])
  {
    hide LedgerOk, MarketOk, ChannelOk, FourRowsEach, TradesEntered, CreatesOk, OrdersLinked, CancelsOk, CancelsEntered,
         LockedOk, CoveredOk, W.Sound;
    assert WithdrawalOk(s.books.rows, s.withdrawals[i]);
  }

  lemma {:induction false} StepKeepsSafe(env: W.Environment, s: State, e: Event)
    requires Careful(env) && SafeInv(s)
    ensures SafeInv(Step(env, s, e))
  {
    hide Inv, Step, SagasSafe, CreatesExplained, CancelsExplained;
    StepKeeps(env, s, e);
    StepKeepsSagasSafe(env, s, e);
    StepKeepsExplanations(env, s, e);
  }

  lemma {:induction false} RunKeepsSafe(env: W.Environment, events: seq<Event>)
    requires Careful(env)
    ensures SafeInv(Run(env, events))
  {
    hide SafeInv, Step;
    if events == [] {
      EmptyIsSafe();
    } else {
      RunKeepsSafe(env, events[..|events| - 1]);
      StepKeepsSafe(env, Run(env, events[..|events| - 1]), events[|events| - 1]);
    }
  }

  lemma EmptyIsSafe()
    ensures SafeInv(EMPTY)
  {
    hide Inv;
    EmptyIsOk();
  }
}
