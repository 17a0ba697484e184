/** What one call to the accounts service, or one delivered trade, leaves of each part of the exchange's invariant. */
module Calls {
  import opened Wrappers
  import opened Domain
  import opened Sums
  import opened Ledger
  import opened Settlement
  import opened Exchange
  import W = Withdrawals

  // ---------------------------------------------------------------------------------------------------------
  // Keyed calls
  // ---------------------------------------------------------------------------------------------------------

  /** A call either posts its mutation under a key that was new, or changes nothing. */
  lemma CallPosts(b: Books, m: Mutation, reaches: bool)
    ensures var r := Call(b, m, reaches);
            && (r.applied ==> r.accepted && m.amount > 0 && r.books == Posting(b, m) && FindKey(b.rows, m.key).None?)
            && (!r.applied ==> r.books == b)
            && (r.accepted && !r.applied ==> Recorded(b.rows, m.key, m.kind))
            && (r.applied ==> Entered(r.books.rows, m.key, m.kind, m.account, m.amount))
  {
    MutateIsPosting(b, m);
  }

  /** Keys that were found stay found, and only the call's own key can become one. */
  lemma CallFinds(b: Books, m: Mutation, reaches: bool, key: string)
    ensures var r := Call(b, m, reaches);
            && (FindKey(b.rows, key).Some? ==> FindKey(r.books.rows, key) == FindKey(b.rows, key))
            && (FindKey(b.rows, key).None? && !(r.applied && key == m.key) ==> FindKey(r.books.rows, key).None?)
  {
    CallPosts(b, m, reaches);
    FindKeyAppend(b.rows, Posting(b, m).rows[|b.rows|], key);
  }

  lemma CallRecords(b: Books, m: Mutation, reaches: bool, key: string, kind: Kind)
    ensures Recorded(Call(b, m, reaches).books.rows, key, kind)
       <==> (Recorded(b.rows, key, kind) || (Call(b, m, reaches).applied && key == m.key && kind == m.kind))
  {
    CallPosts(b, m, reaches);
    CallFinds(b, m, reaches, key);
  }

  lemma CallKeepsLedger(b: Books, m: Mutation, reaches: bool)
    requires LedgerOk(b)
    ensures LedgerOk(Call(b, m, reaches).books)
  {
    MutateKeepsReplay(b, m);
    MutateConserves(b, m);
    CallPosts(b, m, reaches);
    var r := Call(b, m, reaches);
    forall a: Account ensures 0 <= BalanceOf(r.books, a).available {
      assert 0 <= BalanceOf(b, a).available;
    }
  }

  lemma CallMovesLocked(b: Books, m: Mutation, reaches: bool, a: Account)
    ensures var r := Call(b, m, reaches);
            BalanceOf(r.books, a).locked
            == BalanceOf(b, a).locked
               + (if r.applied && a == m.account then LockedDelta(m.kind, m.amount) else 0)
  {
    CallPosts(b, m, reaches);
  }

  lemma CallKeepsFourRows(b: Books, m: Mutation, reaches: bool, processed: set<nat>)
    requires FourRowsEach(b.rows, processed) && !m.reference.TradeRef?
    ensures FourRowsEach(Call(b, m, reaches).books.rows, processed)
  {
    CallPosts(b, m, reaches);
    forall id: nat ensures Sum(Posting(b, m).rows, OfTrade(id)) == Sum(b.rows, OfTrade(id)) {
      SumAppend(b.rows, Posting(b, m).rows[|b.rows|], OfTrade(id));
    }
  }

  lemma CallKeepsTrades(b: Books, m: Mutation, reaches: bool, trades: seq<Trade>, processed: set<nat>)
    requires TradesEntered(b.rows, trades, processed) && !m.reference.TradeRef?
    ensures TradesEntered(Call(b, m, reaches).books.rows, trades, processed)
  {
    CallPosts(b, m, reaches);
    forall id: nat, a: Account
      ensures Sum(Posting(b, m).rows, LockedByTrade(id, a)) == Sum(b.rows, LockedByTrade(id, a))
    {
      SumAppend(b.rows, Posting(b, m).rows[|b.rows|], LockedByTrade(id, a));
    }
  }

  lemma CallMovesOrder(b: Books, m: Mutation, reaches: bool, id: OrderId)
    ensures Sum(Call(b, m, reaches).books.rows, LockedByOrder(id))
         == Sum(b.rows, LockedByOrder(id))
            + (if Call(b, m, reaches).applied && m.reference == OrderRef(id) then LockedDelta(m.kind, m.amount) else 0)
  {
    CallPosts(b, m, reaches);
    SumAppend(b.rows, Posting(b, m).rows[|b.rows|], LockedByOrder(id));
  }

  lemma CallKeepsCancels(b: Books, m: Mutation, reaches: bool, cancels: seq<Cancel>)
    requires CancelsEntered(b.rows, cancels) && !m.reference.OrderRef?
    ensures CancelsEntered(Call(b, m, reaches).books.rows, cancels)
  {
    var rows := Call(b, m, reaches).books.rows;
    forall j | 0 <= j < |cancels| && cancels[j].applied
      ensures Entered(rows, CancelKey(cancels[j].key), UNLOCK, cancels[j].account, cancels[j].amount)
    {
      CallKeepsEntry(b, m, reaches, CancelKey(cancels[j].key), UNLOCK, cancels[j].account, cancels[j].amount);
    }
    forall id: OrderId ensures Sum(rows, LockedByOrder(id)) == 0 - Sum(cancels, UnlockedFor(id)) {
      CallMovesOrder(b, m, reaches, id);
    }
  }

  /** A mutation that is not a create's lock or compensating unlock. */
  ghost predicate Foreign(m: Mutation)
  {
    && (m.kind == LOCK ==> forall key: string :: m.key != LockKey(key))
    && (m.kind == UNLOCK ==> forall key: string :: m.key != UnlockKey(key))
  }

  lemma CallKeepsCreate(b: Books, m: Mutation, reaches: bool, c: Create)
    requires CreateOk(b.rows, c)
    requires m.kind == LOCK ==> m.key != LockKey(c.key)
    requires m.kind == UNLOCK ==> m.key != UnlockKey(c.key)
    ensures CreateOk(Call(b, m, reaches).books.rows, c)
  {
    CallRecords(b, m, reaches, LockKey(c.key), LOCK);
    CallRecords(b, m, reaches, UnlockKey(c.key), UNLOCK);
    CallFinds(b, m, reaches, LockKey(c.key));
    CallFinds(b, m, reaches, UnlockKey(c.key));
  }

  lemma CallKeepsCreates(b: Books, m: Mutation, reaches: bool, creates: seq<Create>)
    requires CreatesOk(b.rows, creates) && Foreign(m)
    ensures CreatesOk(Call(b, m, reaches).books.rows, creates)
  {
    var after := Call(b, m, reaches).books.rows;
    forall i | 0 <= i < |creates| ensures CreateOk(after, creates[i]) {
      CallKeepsCreate(b, m, reaches, creates[i]);
    }
    forall key: string
      ensures Recorded(after, LockKey(key), LOCK) ==> KeyUsed(creates, key)
      ensures Recorded(after, UnlockKey(key), UNLOCK) ==> KeyUsed(creates, key)
    {
      CallRecords(b, m, reaches, LockKey(key), LOCK);
      CallRecords(b, m, reaches, UnlockKey(key), UNLOCK);
    }
  }

  lemma CallKeepsEntry(b: Books, m: Mutation, reaches: bool, key: string, kind: Kind, account: Account, amount: nat)
    requires Entered(b.rows, key, kind, account, amount)
    ensures Entered(Call(b, m, reaches).books.rows, key, kind, account, amount)
  {
    CallFinds(b, m, reaches, key);
  }

  /** A mutation that belongs to no withdrawal. */
  ghost predicate Unrelated(m: Mutation)
  {
    && (m.kind == LOCK ==> forall key: string :: m.key != WithdrawLockKey(key))
    && (m.kind == UNLOCK ==> forall key: string :: m.key != CompensateKey(key) && m.key != WithdrawUnlockKey(key))
    && (m.kind == WITHDRAWAL ==> forall id: string :: m.key != DebitKey(id))
  }

  lemma CallKeepsFlag(b: Books, m: Mutation, reaches: bool, flag: bool, key: string, kind: Kind, t: W.Terms)
    requires FlagOk(b.rows, flag, key, kind, t) && (m.kind == kind ==> m.key != key)
    ensures FlagOk(Call(b, m, reaches).books.rows, flag, key, kind, t)
  {
    CallRecords(b, m, reaches, key, kind);
    CallFinds(b, m, reaches, key);
  }

  lemma CallKeepsWithdrawal(b: Books, m: Mutation, reaches: bool, w: W.Withdrawal)
    requires WithdrawalOk(b.rows, w)
    requires m.kind == LOCK ==> m.key != WithdrawLockKey(w.terms.key)
    requires m.kind == UNLOCK ==> m.key != CompensateKey(w.terms.key) && m.key != WithdrawUnlockKey(w.terms.key)
    requires m.kind == WITHDRAWAL ==> m.key != DebitKey(w.terms.id)
    ensures WithdrawalOk(Call(b, m, reaches).books.rows, w)
  {
    hide FlagOk, W.Sound;
    CallKeepsFlag(b, m, reaches, w.locked, WithdrawLockKey(w.terms.key), LOCK, w.terms);
    CallKeepsFlag(b, m, reaches, w.compensated, CompensateKey(w.terms.key), UNLOCK, w.terms);
    CallKeepsFlag(b, m, reaches, w.unlocked, WithdrawUnlockKey(w.terms.key), UNLOCK, w.terms);
    CallKeepsFlag(b, m, reaches, w.debited, DebitKey(w.terms.id), WITHDRAWAL, w.terms);
  }

  lemma CallKeepsOwners(b: Books, m: Mutation, reaches: bool, withdrawals: seq<W.Withdrawal>)
    requires SagaEntriesOwned(b.rows, withdrawals) && Unrelated(m)
    ensures SagaEntriesOwned(Call(b, m, reaches).books.rows, withdrawals)
  {
    var rows := Call(b, m, reaches).books.rows;
    forall key: string
      ensures Recorded(rows, WithdrawLockKey(key), LOCK) ==> SagaKeyUsed(withdrawals, key)
      ensures Recorded(rows, CompensateKey(key), UNLOCK) ==> SagaKeyUsed(withdrawals, key)
      ensures Recorded(rows, WithdrawUnlockKey(key), UNLOCK) ==> SagaKeyUsed(withdrawals, key)
    {
      CallRecords(b, m, reaches, WithdrawLockKey(key), LOCK);
      CallRecords(b, m, reaches, CompensateKey(key), UNLOCK);
      CallRecords(b, m, reaches, WithdrawUnlockKey(key), UNLOCK);
    }
    forall id: string ensures Recorded(rows, DebitKey(id), WITHDRAWAL) ==> SagaIdUsed(withdrawals, id) {
      CallRecords(b, m, reaches, DebitKey(id), WITHDRAWAL);
    }
  }

  lemma CallKeepsWithdrawals(b: Books, m: Mutation, reaches: bool, withdrawals: seq<W.Withdrawal>)
    requires WithdrawalsOk(b.rows, withdrawals) && Unrelated(m)
    ensures WithdrawalsOk(Call(b, m, reaches).books.rows, withdrawals)
  {
    hide WithdrawalOk, SagaEntriesOwned;
    CallKeepsOwners(b, m, reaches, withdrawals);
    forall i | 0 <= i < |withdrawals| ensures WithdrawalOk(Call(b, m, reaches).books.rows, withdrawals[i]) {
      CallKeepsWithdrawal(b, m, reaches, withdrawals[i]);
    }
  }

  /** One of the four ledger calls of a withdrawal. */
  predicate OwnCall(m: Mutation, t: W.Terms)
  {
    m == WithdrawLockRequest(t) || m == CompensateRequest(t) || m == WithdrawUnlockRequest(t) || m == DebitRequest(t)
  }

  /** A saga's own call: every other withdrawal's entries have other keys. */
  lemma OwnCallKeepsOthers(b: Books, m: Mutation, reaches: bool, t: W.Terms, other: W.Withdrawal)
    requires WithdrawalOk(b.rows, other) && other.terms.key != t.key && other.terms.id != t.id && OwnCall(m, t)
    ensures WithdrawalOk(Call(b, m, reaches).books.rows, other)
  {
    hide WithdrawalOk, Call;
    SagaKeysApart(t.key, other.terms.key);
    SagaKeysApart(other.terms.key, t.key);
    SagaKeysApart(t.id, other.terms.id);
    CallKeepsWithdrawal(b, m, reaches, other);
  }

  lemma OwnCallKeepsOwners(b: Books, m: Mutation, reaches: bool, withdrawals: seq<W.Withdrawal>, i: nat)
    requires SagaEntriesOwned(b.rows, withdrawals) && i < |withdrawals| && OwnCall(m, withdrawals[i].terms)
    ensures SagaEntriesOwned(Call(b, m, reaches).books.rows, withdrawals)
  {
    hide Call, Recorded;
    var t, rows := withdrawals[i].terms, Call(b, m, reaches).books.rows;
    forall key: string
      ensures Recorded(rows, WithdrawLockKey(key), LOCK) ==> SagaKeyUsed(withdrawals, key)
      ensures Recorded(rows, CompensateKey(key), UNLOCK) ==> SagaKeyUsed(withdrawals, key)
      ensures Recorded(rows, WithdrawUnlockKey(key), UNLOCK) ==> SagaKeyUsed(withdrawals, key)
    {
      SagaKeysApart(t.key, key);
      SagaKeysApart(key, t.key);
      CallRecords(b, m, reaches, WithdrawLockKey(key), LOCK);
      CallRecords(b, m, reaches, CompensateKey(key), UNLOCK);
      CallRecords(b, m, reaches, WithdrawUnlockKey(key), UNLOCK);
    }
    forall id: string ensures Recorded(rows, DebitKey(id), WITHDRAWAL) ==> SagaIdUsed(withdrawals, id) {
      SagaKeysApart(t.id, id);
      CallRecords(b, m, reaches, DebitKey(id), WITHDRAWAL);
    }
  }

  lemma SagaKeysApart(one: string, two: string)
    ensures CompensateKey(one) == CompensateKey(two) ==> one == two
    ensures WithdrawUnlockKey(one) == WithdrawUnlockKey(two) ==> one == two
    ensures DebitKey(one) == DebitKey(two) ==> one == two
    ensures WithdrawLockKey(one) == WithdrawLockKey(two) ==> one == two
    ensures CompensateKey(one) != WithdrawUnlockKey(two)
  {
    assert CompensateKey(one)[25..] == one && CompensateKey(two)[25..] == two;
    assert WithdrawUnlockKey(one)[18..] == one && WithdrawUnlockKey(two)[18..] == two;
    assert DebitKey(one)[17..] == one && DebitKey(two)[17..] == two;
    assert WithdrawLockKey(one)[14..] == one && WithdrawLockKey(two)[14..] == two;
    assert CompensateKey(one)[8] == '-' && WithdrawUnlockKey(two)[8] == 'a';
  }

  /** The prefixes keep the keys of the sagas apart. */
  lemma KeysApart(one: string, two: string)
    ensures LockKey(one) == LockKey(two) ==> one == two
    ensures UnlockKey(one) == UnlockKey(two) ==> one == two
    ensures CancelKey(one) != UnlockKey(two) && WithdrawLockKey(one) != LockKey(two)
    ensures CompensateKey(one) != UnlockKey(two) && WithdrawUnlockKey(one) != UnlockKey(two)
    ensures CompensateKey(one) != CancelKey(two) && WithdrawUnlockKey(one) != CancelKey(two)
  {
    assert LockKey(one)[5..] == one && LockKey(two)[5..] == two;
    assert UnlockKey(one)[7..] == one && UnlockKey(two)[7..] == two;
    assert CancelKey(one)[0] == 'c' && CancelKey(two)[0] == 'c' && UnlockKey(two)[0] == 'u' && LockKey(two)[0] == 'l';
    assert WithdrawLockKey(one)[0] == 'w' && CompensateKey(one)[0] == 'w' && WithdrawUnlockKey(one)[0] == 'w';
  }

  // ---------------------------------------------------------------------------------------------------------
  // Delivered trades
  // ---------------------------------------------------------------------------------------------------------

  /** Settlement rows carry no key, so no key is found that was not there before. */
  lemma {:induction false} PostLegsFinds(b: Books, legs: seq<Leg>, trade: nat, key: string)
    ensures FindKey(PostLegs(b, legs, trade).rows, key) == FindKey(b.rows, key)
  {
    if legs != [] {
      var d := PostLegs(b, legs[..|legs| - 1], trade);
      PostLegsFinds(b, legs[..|legs| - 1], trade, key);
      FindKeyAppend(d.rows, PostLeg(d, legs[|legs| - 1], trade).rows[|d.rows|], key);
    }
  }

  lemma HandleFinds(b: Books, processed: set<nat>, t: Trade, id: nat, aborts: bool, key: string)
    ensures FindKey(Handle(b, processed, t, id, aborts).books.rows, key) == FindKey(b.rows, key)
  {
    WithAccountsBalances(b, t, BuyerQuote(t));
    PostLegsFinds(WithAccounts(b, t), Legs(t), id, key);
  }

  lemma HandleKeepsFourRows(b: Books, processed: set<nat>, t: Trade, id: nat, aborts: bool)
    requires FourRowsEach(b.rows, processed)
    ensures var c := Handle(b, processed, t, id, aborts); FourRowsEach(c.books.rows, c.processed)
  {
    WithAccountsBalances(b, t, BuyerQuote(t));
    SettleRows(b, t, id);
  }

  /** The rows of a settlement take its deduction out of each account, and belong to no other trade and to no order. */
  lemma {:induction false} PostLegsLocked(b: Books, legs: seq<Leg>, trade: nat, id: nat, a: Account, order: OrderId)
    ensures var rows := PostLegs(b, legs, trade).rows;
            && Sum(rows, LockedByTrade(id, a))
               == Sum(b.rows, LockedByTrade(id, a)) + (if id == trade then Sum(legs, LegLocked(a)) else 0)
            && Sum(rows, LockedByOrder(order)) == Sum(b.rows, LockedByOrder(order))
  {
    if legs != [] {
      var init, leg := legs[..|legs| - 1], legs[|legs| - 1];
      PostLegsLocked(b, init, trade, id, a, order);
      var d := PostLegs(b, init, trade);
      SumAppend(d.rows, PostLeg(d, leg, trade).rows[|d.rows|], LockedByTrade(id, a));
      SumAppend(d.rows, PostLeg(d, leg, trade).rows[|d.rows|], LockedByOrder(order));
    }
  }

  lemma SettleTakesDeduction(b: Books, t: Trade, id: nat, other: nat, a: Account)
    ensures Sum(Settle(b, t, id).rows, LockedByTrade(other, a))
         == Sum(b.rows, LockedByTrade(other, a)) - (if other == id then TradeDeduction(a)(t) else 0)
  {
    hide Legs;
    WithAccountsBalances(b, t, a);
    PostLegsLocked(WithAccounts(b, t), Legs(t), id, other, a, 0);
    LegSums(t, a, USDT);
  }

  lemma HandleKeepsTrades(b: Books, processed: set<nat>, trades: seq<Trade>, id: nat, aborts: bool)
    requires TradesEntered(b.rows, trades, processed) && id < |trades|
    ensures var c := Handle(b, processed, trades[id], id, aborts); TradesEntered(c.books.rows, trades, c.processed)
  {
    hide Settle, TradeDeduction, WithAccounts;
    var t := trades[id];
    var c := Handle(b, processed, t, id, aborts);
    WithAccountsBalances(b, t, BuyerQuote(t));
    if c.processed != processed {
      forall other: nat, a: Account
        ensures Sum(c.books.rows, LockedByTrade(other, a))
             == if other in c.processed && other < |trades| then 0 - TradeDeduction(a)(trades[other]) else 0
      {
        SettleTakesDeduction(b, t, id, other, a);
      }
    } else {
      HandledRows(b, processed, t, id, aborts);
    }
  }

  /** Without a new settlement no row is written. */
  lemma HandledRows(b: Books, processed: set<nat>, t: Trade, id: nat, aborts: bool)
    requires Handle(b, processed, t, id, aborts).processed == processed
    ensures Handle(b, processed, t, id, aborts).books.rows == b.rows
  {
    hide Settle, WithAccounts;
    WithAccountsBalances(b, t, BuyerQuote(t));
    assert id in processed + {id};
  }

  lemma HandleKeepsCancels(b: Books, processed: set<nat>, t: Trade, id: nat, aborts: bool, cancels: seq<Cancel>)
    requires CancelsEntered(b.rows, cancels)
    ensures CancelsEntered(Handle(b, processed, t, id, aborts).books.rows, cancels)
  {
    var rows := Handle(b, processed, t, id, aborts).books.rows;
    WithAccountsBalances(b, t, BuyerQuote(t));
    forall j | 0 <= j < |cancels| && cancels[j].applied
      ensures Entered(rows, CancelKey(cancels[j].key), UNLOCK, cancels[j].account, cancels[j].amount)
    {
      HandleFinds(b, processed, t, id, aborts, CancelKey(cancels[j].key));
    }
    forall order: OrderId ensures Sum(rows, LockedByOrder(order)) == Sum(b.rows, LockedByOrder(order)) {
      PostLegsLocked(WithAccounts(b, t), Legs(t), id, id, BuyerQuote(t), order);
    }
  }

  lemma WithAccountsKeepsLedger(b: Books, t: Trade)
    requires LedgerOk(b)
    ensures LedgerOk(WithAccounts(b, t))
  {
    WithAccountsKeeps(b, t);
    WithAccountsBalances(b, t, BuyerQuote(t));
    forall a: Account ensures 0 <= BalanceOf(WithAccounts(b, t), a).available {
      WithAccountsBalances(b, t, a);
      assert 0 <= BalanceOf(b, a).available;
    }
  }

  /** A settlement only adds to available balances; what it may do to locked ones is another matter. */
  lemma HandleKeepsLedger(b: Books, processed: set<nat>, t: Trade, id: nat, aborts: bool)
    requires LedgerOk(b)
    ensures LedgerOk(Handle(b, processed, t, id, aborts).books)
  {
    WithAccountsKeepsLedger(b, t);
    if id !in processed {
      SettleReplays(b, t, id);
      SettleConserves(b, t, id);
      forall a: Account ensures 0 <= BalanceOf(Settle(b, t, id), a).available {
        SettleBalances(b, t, id, a);
        assert 0 <= BalanceOf(b, a).available;
      }
    }
  }

  lemma SameFindsKeepCreates(before: seq<Row>, after: seq<Row>, creates: seq<Create>)
    requires CreatesOk(before, creates) && forall key: string :: FindKey(after, key) == FindKey(before, key)
    ensures CreatesOk(after, creates)
  {
    forall i | 0 <= i < |creates| ensures CreateOk(after, creates[i]) {
      assert CreateOk(before, creates[i]);
    }
    forall key: string
      ensures Recorded(after, LockKey(key), LOCK) ==> KeyUsed(creates, key)
      ensures Recorded(after, UnlockKey(key), UNLOCK) ==> KeyUsed(creates, key)
    {
      assert Recorded(after, LockKey(key), LOCK) == Recorded(before, LockKey(key), LOCK);
      assert Recorded(after, UnlockKey(key), UNLOCK) == Recorded(before, UnlockKey(key), UNLOCK);
    }
  }

  lemma SameFindsKeepWithdrawals(before: seq<Row>, after: seq<Row>, withdrawals: seq<W.Withdrawal>)
    requires WithdrawalsOk(before, withdrawals) && forall key: string :: FindKey(after, key) == FindKey(before, key)
    ensures WithdrawalsOk(after, withdrawals)
  {
    forall i | 0 <= i < |withdrawals| ensures WithdrawalOk(after, withdrawals[i]) {
      assert WithdrawalOk(before, withdrawals[i]);
    }
    forall key: string, kind: Kind ensures Recorded(after, key, kind) == Recorded(before, key, kind) {
      assert FindKey(after, key) == FindKey(before, key);
    }
  }
}
