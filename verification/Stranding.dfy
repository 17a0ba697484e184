/**
 What stays locked without any purpose, for good: rounding dust, and the funds of orders, cancels, trades and withdrawals
 that no event will ever release.
 */
module Stranding {
  import opened Wrappers
  import opened Domain
  import opened Sums
  import opened Ledger
  import opened Settlement
  import opened Agreement
  import opened Reservations
  import opened Delivery
  import opened Exchange
  import opened Safety
  import opened Solvency
  import W = Withdrawals

  // ---------------------------------------------------------------------------------------------------------
  // Live and dead parts
  // ---------------------------------------------------------------------------------------------------------

  /** The lock of a create that will still be stored or compensated. */
  function LiveLock(a: Account): Create -> int
  {
    (c: Create) => if (c.phase == LOCKED || c.phase == COMPENSATING) && c.LockAccount() == a then c.Lock() else 0
  }

  /** The lock of a rejected create: its answer or its unlock was lost, and nobody asks again. */
  function DeadLock(a: Account): Create -> int
  {
    (c: Create) =>
      if c.phase == REJECTED && c.lockApplied && !c.unlockApplied && c.LockAccount() == a then c.Lock() else 0
  }

  /** A cancelled rest whose unlock is still to be tried; a zero amount never is. */
  function PendingUnlock(a: Account): Cancel -> int
  {
    (c: Cancel) => if !c.attempted && c.account == a then c.amount else 0
  }

  /** A cancelled rest whose only unlock was lost or refused. */
  function DeadUnlock(a: Account): Cancel -> int
  {
    (c: Cancel) => if c.attempted && !c.applied && c.account == a then c.amount else 0
  }

  function LiveOwed(a: Account): W.Withdrawal -> int
  {
    (w: W.Withdrawal) => if !W.Final(w) && w.terms.account == a then W.Owed(w) else 0
  }

  /** The funds of a withdrawal that no client, worker or recovery will touch again. */
  function DeadOwed(a: Account): W.Withdrawal -> int
  {
    (w: W.Withdrawal) => if W.Final(w) && w.terms.account == a then W.Owed(w) else 0
  }

  /** A committed trade that is not settled and that no delivery will bring any more. */
  predicate Buried(s: State, id: nat)
  {
    && id < |s.trades| && id !in s.processed && id !in s.channel.pending
    && forall k :: s.channel.committed <= k < |s.channel.log| ==> s.channel.log[k] != id
  }

  function BuriedTrades(s: State): set<nat>
  {
    set id: nat | id < |s.trades| && Buried(s, id)
  }

  function DeadTrades(s: State, a: Account): int
  {
    SumMarked(s.trades, BuriedTrades(s), TradeDeduction(a))
  }

  /**
   What is locked on an account beyond what anything still needs: open orders, trades and withdrawals on their way, locks
   whose create is not finished, and cancelled rests whose unlock is still to be tried.
   */
  function Stranded(s: State, a: Account): int
  {
    BalanceOf(s.books, a).locked
    - Sum(s.desk.rows, Reserved(a)) - (Unsettled(s.trades, s.processed, a) - DeadTrades(s, a))
    - Sum(s.withdrawals, LiveOwed(a)) - Sum(s.creates, LiveLock(a)) - Sum(s.cancels, PendingUnlock(a))
  }

  lemma {:induction false} LooseSplits(rows: seq<Row>, creates: seq<Create>, a: Account)
    requires CreatesOk(rows, creates)
    ensures Sum(creates, Loose(a)) == Sum(creates, LiveLock(a)) + Sum(creates, DeadLock(a))
  {
    forall i | 0 <= i < |creates| ensures DeadLock(a)(creates[i]) == Loose(a)(creates[i]) - LiveLock(a)(creates[i]) {
      OneLooseSplits(rows, creates, i, a);
    }
    SumDifference(creates, Loose(a), LiveLock(a), DeadLock(a));
  }

  lemma {:induction false} OneLooseSplits(rows: seq<Row>, creates: seq<Create>, i: nat, a: Account)
    requires CreatesOk(rows, creates) && i < |creates|
    ensures DeadLock(a)(creates[i]) == Loose(a)(creates[i]) - LiveLock(a)(creates[i])
  {
    var c := creates[i];
    assert CreateOk(rows, c);
    assert Loose(a)(c) == Held(a)(c) - Backing(a)(c);
  }

  lemma {:induction false} DeadLockIsPositive(c: Create, a: Account)
    ensures 0 <= DeadLock(a)(c)
  {
  }

  lemma {:induction false} DeadOwedIsPositive(w: W.Withdrawal, a: Account)
    ensures 0 <= DeadOwed(a)(w)
  {
  }

  lemma {:induction false} StillLockedSplits(orders: seq<Order>, cancels: seq<Cancel>, a: Account)
    requires CancelsOk(orders, cancels)
    ensures Sum(cancels, StillLocked(a)) == Sum(cancels, PendingUnlock(a)) + Sum(cancels, DeadUnlock(a))
  {
    forall j | 0 <= j < |cancels|
      ensures DeadUnlock(a)(cancels[j]) == StillLocked(a)(cancels[j]) - PendingUnlock(a)(cancels[j])
    {
      assert CancelOk(orders, cancels[j]);
      assert StillLocked(a)(cancels[j]) == Freed(a)(cancels[j]) - Unlocked(a)(cancels[j]);
    }
    SumDifference(cancels, StillLocked(a), PendingUnlock(a), DeadUnlock(a));
  }

  lemma {:induction false} StateParts(s: State)
    requires SafeInv(s)
    ensures CreatesOk(s.books.rows, s.creates) && CancelsOk(s.desk.rows, s.cancels)
    ensures CoveredOk(s.creates, s.desk.rows, s.trades, s.cancels)
    ensures ChannelOk(s.channel, |s.trades|, s.processed + s.deadLettered)
  {
    hide LedgerOk, MarketOk, ChannelOk, FourRowsEach, TradesEntered, CreatesOk, OrdersLinked, CancelsOk, CancelsEntered,
         WithdrawalsOk, LockedOk, CoveredOk, SagasSafe, CreatesExplained, CancelsExplained;
  }

  lemma {:induction false} NoBuysOffQuote(trades: seq<Trade>, a: Account)
    requires a.currency != USDT
    ensures Sum(trades, BuysOn(a)) == 0
  {
    SumZero(trades, BuysOn(a));
  }

  /**
   In a careful environment what is stranded on an account is, to the unit, the rounding dust, the locks of rejected
   creates, the cancelled rests whose unlock failed, the withdrawals given up and the trades that were lost. The dust is
   at most two units a buy, and nothing on a base account.
   */
  lemma {:induction false} StrandedIsDead(env: W.Environment, events: seq<Event>, a: Account)
    requires Careful(env)
    ensures var s := Run(env, events);
            var dust := Dust(s.creates, s.desk.rows, s.trades, s.cancels, a);
            && Stranded(s, a) == dust + Sum(s.creates, DeadLock(a)) + Sum(s.cancels, DeadUnlock(a))
                                 + Sum(s.withdrawals, DeadOwed(a)) + DeadTrades(s, a)
            && 0 <= dust <= 2 * Sum(s.trades, BuysOn(a))
            && (a.currency != USDT ==> dust == 0)
            && 0 <= Sum(s.creates, DeadLock(a)) && 0 <= Sum(s.cancels, DeadUnlock(a))
            && 0 <= Sum(s.withdrawals, DeadOwed(a)) && 0 <= DeadTrades(s, a)
  {
    hide SafeInv, Run, CreatesOk, CancelsOk, ChannelOk, Dust;
    var s := Run(env, events);
    RunKeepsSafe(env, events);
    StateParts(s);
    LockedSplits(s, a);
    LooseSplits(s.books.rows, s.creates, a);
    StillLockedSplits(s.desk.rows, s.cancels, a);
    SumDifference(s.withdrawals, OwedTo(a), DeadOwed(a), LiveOwed(a));
    forall c: Create ensures 0 <= DeadLock(a)(c) {
      DeadLockIsPositive(c, a);
    }
    SumNonNegative(s.creates, DeadLock(a));
    SumNonNegative(s.cancels, DeadUnlock(a));
    SumNonNegative(s.withdrawals, DeadOwed(a));
    SumMarkedBounds(s.trades, BuriedTrades(s), TradeDeduction(a));
    assert 0 <= Dust(s.creates, s.desk.rows, s.trades, s.cancels, a) <= 2 * Sum(s.trades, BuysOn(a));
    if a.currency != USDT {
      NoBuysOffQuote(s.trades, a);
    }
  }

  // ---------------------------------------------------------------------------------------------------------
  // Nothing that is stranded is ever released
  // ---------------------------------------------------------------------------------------------------------

  /** No event touches a rejected create, an attempted cancel, or a final withdrawal. */
  lemma {:induction false} RejectedStays(env: W.Environment, s: State, e: Event)
    ensures var t := Step(env, s, e);
            |s.creates| <= |t.creates|
            && forall i :: 0 <= i < |s.creates| && s.creates[i].phase == REJECTED ==> t.creates[i] == s.creates[i]
  {
    hide Call, Place, Handle, CallIfAny, W.Step, Fresh;
  }

  lemma {:induction false} DeadLocksStay(env: W.Environment, s: State, e: Event, a: Account)
    ensures Sum(s.creates, DeadLock(a)) <= Sum(Step(env, s, e).creates, DeadLock(a))
  {
    hide Step;
    var t := Step(env, s, e);
    RejectedStays(env, s, e);
    forall c: Create ensures 0 <= DeadLock(a)(c) {
      DeadLockIsPositive(c, a);
    }
    forall i | 0 <= i < |s.creates| ensures DeadLock(a)(s.creates[i]) <= DeadLock(a)(t.creates[i]) {
      if s.creates[i].phase != REJECTED {
        assert DeadLock(a)(s.creates[i]) == 0;
      }
    }
    SumGrows(s.creates, t.creates, DeadLock(a));
  }

  lemma {:induction false} DeadUnlocksStay(env: W.Environment, s: State, e: Event, a: Account)
    ensures Sum(s.cancels, DeadUnlock(a)) <= Sum(Step(env, s, e).cancels, DeadUnlock(a))
  {
    hide Call, Place, Handle, CallIfAny, W.Step, Fresh;
    var t := Step(env, s, e);
    assert |s.cancels| <= |t.cancels|;
    forall j | 0 <= j < |s.cancels| ensures DeadUnlock(a)(s.cancels[j]) <= DeadUnlock(a)(t.cancels[j]) {
      assert s.cancels[j].attempted ==> t.cancels[j] == s.cancels[j];
    }
    SumGrows(s.cancels, t.cancels, DeadUnlock(a));
  }

  lemma {:induction false} FinalsStay(env: W.Environment, s: State, e: Event)
    requires !env.keyReusedAfterCompensation
    ensures var t := Step(env, s, e);
            |s.withdrawals| <= |t.withdrawals|
            && forall i :: 0 <= i < |s.withdrawals| && W.Final(s.withdrawals[i]) ==> t.withdrawals[i] == s.withdrawals[i]
  {
    hide Call, Place, Handle, CallIfAny, W.Step, W.Final, Fresh, LedgerCall;
    if e.Withdraw? && e.withdrawal < |s.withdrawals| && W.Final(s.withdrawals[e.withdrawal]) {
      var w := s.withdrawals[e.withdrawal];
      var m := LedgerCall(w, e.event);
      W.FinalStays(env, w, Answered(e.event, m, CallIfAny(s.books, m, e.reaches)));
    }
  }

  lemma {:induction false} DeadOwedStays(env: W.Environment, s: State, e: Event, a: Account)
    requires !env.keyReusedAfterCompensation
    ensures Sum(s.withdrawals, DeadOwed(a)) <= Sum(Step(env, s, e).withdrawals, DeadOwed(a))
  {
    hide Step, W.Owed, W.Final;
    var t := Step(env, s, e);
    FinalsStay(env, s, e);
    forall w: W.Withdrawal ensures 0 <= DeadOwed(a)(w) {
      DeadOwedIsPositive(w, a);
    }
    forall i | 0 <= i < |s.withdrawals| ensures DeadOwed(a)(s.withdrawals[i]) <= DeadOwed(a)(t.withdrawals[i]) {
      if !W.Final(s.withdrawals[i]) {
        assert DeadOwed(a)(s.withdrawals[i]) == 0;
      }
    }
    SumGrows(s.withdrawals, t.withdrawals, DeadOwed(a));
  }

  lemma {:induction false} BuriedStays(env: W.Environment, s: State, e: Event, id: nat)
    requires ChannelOk(s.channel, |s.trades|, s.processed + s.deadLettered) && Buried(s, id)
    ensures Buried(Step(env, s, e), id)
  {
    hide Call, Place, CallIfAny, W.Step, Fresh, Settle, WithAccounts;
  }

  lemma {:induction false} TradesGrow(env: W.Environment, s: State, e: Event)
    ensures s.trades <= Step(env, s, e).trades
  {
    hide Call, Place, Handle, CallIfAny, W.Step;
  }

  lemma {:induction false} DeadTradesStay(env: W.Environment, s: State, e: Event, a: Account)
    requires ChannelOk(s.channel, |s.trades|, s.processed + s.deadLettered)
    ensures DeadTrades(s, a) <= DeadTrades(Step(env, s, e), a)
  {
    hide ChannelOk, Buried, Step;
    var t := Step(env, s, e);
    TradesGrow(env, s, e);
    forall id: nat | id in BuriedTrades(s) ensures id in BuriedTrades(t) {
      BuriedStays(env, s, e, id);
    }
    SumMarkedGrows(s.trades, t.trades, BuriedTrades(s), BuriedTrades(t), TradeDeduction(a));
  }

  lemma {:induction false} CommitKeepsDust(s: State, i: nat, a: Account)
    requires Inv(s)
    ensures var t := StepCommit(s, i);
            Dust(s.creates, s.desk.rows, s.trades, s.cancels, a) <= Dust(t.creates, t.desk.rows, t.trades, t.cancels, a)
  {
    hide LedgerOk, MarketOk, ChannelOk, FourRowsEach, TradesEntered, CreatesOk, OrdersLinked, CancelsOk, CancelsEntered,
         WithdrawalsOk, LockedOk, Place, Fresh, DeskOk, Dust;
    if i < |s.creates| && s.creates[i].phase == LOCKED {
      RequestIsFresh(s.books.rows, s.creates, i);
      DeskOf(s.desk, s.trades);
      assert 0 <= Dust(s.creates, s.desk.rows, s.trades, s.cancels, a) <= 2 * Sum(s.trades, BuysOn(a));
      PlaceKeepsDust(s.desk, s.creates, i, s.trades, s.cancels, a);
    }
  }

  lemma {:induction false} CancelKeepsDust(s: State, id: OrderId, user: UserId, key: string, a: Account)
    ensures var t := StepCancelOrder(s, id, user, key);
            Dust(s.creates, s.desk.rows, s.trades, s.cancels, a) == Dust(t.creates, t.desk.rows, t.trades, t.cancels, a)
  {
    if id < |s.desk.rows| && s.desk.rows[id].user == user && s.desk.rows[id].Active() {
      var t := StepCancelOrder(s, id, user, key);
      SumUpdate(s.desk.rows, id, s.desk.rows[id].(status := CANCELLED), Reserved(a));
      SumAppend(s.cancels, t.cancels[|s.cancels|], Freed(a));
    }
  }

  lemma {:induction false} UnlockKeepsDust(s: State, j: nat, reaches: bool, a: Account)
    ensures var t := StepUnlockCancelled(s, j, reaches);
            Dust(s.creates, s.desk.rows, s.trades, s.cancels, a) == Dust(t.creates, t.desk.rows, t.trades, t.cancels, a)
  {
    hide Call;
    if j < |s.cancels| && !s.cancels[j].attempted && s.cancels[j].amount > 0 {
      SumUpdate(s.cancels, j, StepUnlockCancelled(s, j, reaches).cancels[j], Freed(a));
    }
  }

  lemma {:induction false} BeginKeepsBacking(s: State, user: UserId, pair: Pair, side: Side, price: nat, amount: nat,
                                             key: string, a: Account)
    ensures Sum(StepBeginCreate(s, user, pair, side, price, amount, key).creates, Backing(a))
         == Sum(s.creates, Backing(a))
  {
    var t := StepBeginCreate(s, user, pair, side, price, amount, key);
    if |t.creates| > |s.creates| {
      SumAppend(s.creates, t.creates[|s.creates|], Backing(a));
    }
  }

  /** Nothing gives rounding dust back. */
  lemma {:induction false} DustStays(env: W.Environment, s: State, e: Event, a: Account)
    requires Inv(s)
    ensures var t := Step(env, s, e);
            Dust(s.creates, s.desk.rows, s.trades, s.cancels, a) <= Dust(t.creates, t.desk.rows, t.trades, t.cancels, a)
  {
    hide Inv, Call, Place, Handle, CallIfAny, W.Step, StepCommit, StepCancelOrder, StepUnlockCancelled;
    var t := Step(env, s, e);
    match e
    case BeginCreate(user, pair, side, price, amount, key) =>
      BeginKeepsBacking(s, user, pair, side, price, amount, key, a);
    case LockFunds(i, _, _) => UnstoredKeepsBacking(s.creates, t.creates, i, a);
    case Abort(i) => UnstoredKeepsBacking(s.creates, t.creates, i, a);
    case Compensate(i, _) => UnstoredKeepsBacking(s.creates, t.creates, i, a);
    case Commit(i) => CommitKeepsDust(s, i, a);
    case CancelOrder(id, user, key) => CancelKeepsDust(s, id, user, key, a);
    case UnlockCancelled(j, reaches) => UnlockKeepsDust(s, j, reaches, a);
    case _ =>
  }

  lemma {:induction false} UnstoredKeepsBacking(creates: seq<Create>, after: seq<Create>, i: nat, a: Account)
    requires after == creates
             || (i < |creates| && |after| == |creates| && after == creates[i := after[i]]
                 && creates[i].phase != STORED && after[i].phase != STORED)
    ensures Sum(after, Backing(a)) == Sum(creates, Backing(a))
  {
    if after != creates {
      SumUpdate(creates, i, after[i], Backing(a));
    }
  }

  /** What is stranded stays stranded: over any continuation none of the five parts shrinks. */
  lemma {:induction false} StrandedStays(env: W.Environment, events: seq<Event>, more: seq<Event>, a: Account)
    requires Careful(env)
    ensures var s, t := Run(env, events), Run(env, events + more);
            && Dust(s.creates, s.desk.rows, s.trades, s.cancels, a)
               <= Dust(t.creates, t.desk.rows, t.trades, t.cancels, a)
            && Sum(s.creates, DeadLock(a)) <= Sum(t.creates, DeadLock(a))
            && Sum(s.cancels, DeadUnlock(a)) <= Sum(t.cancels, DeadUnlock(a))
            && Sum(s.withdrawals, DeadOwed(a)) <= Sum(t.withdrawals, DeadOwed(a))
            && DeadTrades(s, a) <= DeadTrades(t, a)
            && Stranded(s, a) <= Stranded(t, a)
  {
    hide Inv, SafeInv, Step, Stranded, DeadTrades, Dust, ChannelOk;
    if more == [] {
      assert events + more == events;
    } else {
      var init, e := more[..|more| - 1], more[|more| - 1];
      StrandedStays(env, events, init, a);
      var mid := Run(env, events + init);
      assert (events + more)[..|events + more| - 1] == events + init;
      RunKeeps(env, events + init);
      RunKeepsSafe(env, events + init);
      StateParts(mid);
      DustStays(env, mid, e, a);
      DeadLocksStay(env, mid, e, a);
      DeadUnlocksStay(env, mid, e, a);
      DeadOwedStays(env, mid, e, a);
      DeadTradesStay(env, mid, e, a);
      StrandedIsDead(env, events + init, a);
      StrandedIsDead(env, events + more, a);
    }
  }
}
