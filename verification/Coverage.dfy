/**
 In which environments every locked balance covers what it is locked for, in every run: exactly in the careful ones.
 For each of the three ways to be careless there is a run that spends a withdrawal's funds twice.
 */
module Coverage {
  import opened Wrappers
  import opened Domain
  import opened Sums
  import opened Ledger
  import opened Settlement
  import opened Reservations
  import opened Delivery
  import opened Exchange
  import opened Calls
  import opened Safety
  import opened Solvency
  import W = Withdrawals

  /**
   No balance is negative, and each locked balance covers its account's open orders, its committed but unsettled trades
   and its unfinished withdrawals together.
   */
  ghost predicate Covered(s: State)
  {
    forall a: Account ::
      && 0 <= BalanceOf(s.books, a).available && 0 <= BalanceOf(s.books, a).locked
      && BalanceOf(s.books, a).locked
         >= Sum(s.desk.rows, Reserved(a)) + Unsettled(s.trades, s.processed, a) + Sum(s.withdrawals, OwedTo(a))
  }

  ghost predicate AlwaysCovered(env: W.Environment)
  {
    forall events: seq<Event> :: Covered(Run(env, events))
  }

  lemma {:induction false} SafeIsCovered(s: State)
    requires SafeInv(s)
    ensures Covered(s)
  {
    hide SafeInv;
    forall a: Account
      ensures 0 <= BalanceOf(s.books, a).available && 0 <= BalanceOf(s.books, a).locked
      ensures BalanceOf(s.books, a).locked
           >= Sum(s.desk.rows, Reserved(a)) + Unsettled(s.trades, s.processed, a) + Sum(s.withdrawals, OwedTo(a))
    {
      LockedSplits(s, a);
      AvailableOf(s, a);
    }
  }

  lemma {:induction false} AvailableOf(s: State, a: Account)
    requires SafeInv(s)
    ensures 0 <= BalanceOf(s.books, a).available
  {
    hide Replays, Conserves, MarketOk, ChannelOk, FourRowsEach, TradesEntered, CreatesOk, OrdersLinked, CancelsOk,
         CancelsEntered, WithdrawalsOk, LockedOk, CoveredOk, SagasSafe, CreatesExplained, CancelsExplained;
  }

  // ---------------------------------------------------------------------------------------------------------
  // Staging a run: one account, no orders, a few withdrawals
  // ---------------------------------------------------------------------------------------------------------

  const PURSE := Account(0, USDT)
  const FIRST := W.Terms("1", PURSE, 1, "a", true)
  const SECOND := W.Terms("2", PURSE, 1, "b", true)

  predicate KeysIn(rows: seq<Row>, keys: set<string>)
  {
    forall i :: 0 <= i < |rows| && rows[i].key.Some? ==> rows[i].key.value in keys
  }

  predicate Stage(s: State, withdrawals: seq<W.Withdrawal>, available: int, locked: int, keys: set<string>)
  {
    && s.withdrawals == withdrawals && s.desk.rows == [] && s.trades == [] && PURSE in s.books.accounts
    && BalanceOf(s.books, PURSE) == Balance(available, locked) && KeysIn(s.books.rows, keys)
  }

  lemma RunMore(env: W.Environment, events: seq<Event>, e: Event)
    ensures Run(env, events + [e]) == Step(env, Run(env, events), e)
  {
    assert (events + [e])[..|events|] == events;
  }

  lemma {:induction false} KeyIsFree(rows: seq<Row>, keys: set<string>, key: string)
    requires KeysIn(rows, keys) && key !in keys
    ensures FindKey(rows, key).None?
  {
    FindKeyMeaning(rows, key);
  }

  /** The opening: a deposit and a first request. */
  lemma {:induction false} Opening(env: W.Environment, amount: nat) returns (events: seq<Event>)
    requires amount > 0
    ensures Stage(Run(env, events), [W.Requested(FIRST)], amount, 0, {"d"})
  {
    var none: seq<Event> := [];
    var deposit := Event.Deposit(false, PURSE, amount, "d", "d");
    RunMore(env, none, deposit);
    events := none + [deposit] + [FirstRequest(FIRST)];
    RunMore(env, none + [deposit], FirstRequest(FIRST));
    assert Run(env, none) == EMPTY;
    var s := Run(env, none + [deposit]);
    assert FindKey([], "d").None?;
    assert s.withdrawals == [] && !SagaKeyUsed([], FIRST.key) && !SagaIdUsed([], FIRST.id);
  }

  /** An event without a ledger call. */
  lemma {:induction false} Quiet(env: W.Environment, events: seq<Event>, withdrawals: seq<W.Withdrawal>, available: int,
                                 locked: int, keys: set<string>, i: nat, e: W.Event) returns (more: seq<Event>)
    requires Stage(Run(env, events), withdrawals, available, locked, keys) && i < |withdrawals|
    requires LedgerCall(withdrawals[i], e).None?
    ensures Stage(Run(env, more), withdrawals[i := W.Step(env, withdrawals[i], e)], available, locked, keys)
  {
    hide W.Step, LedgerCall, Run;
    more := events + [Withdraw(i, e, true)];
    RunMore(env, events, Withdraw(i, e, true));
  }

  /** A ledger call under a new key, with the funds there. */
  lemma {:induction false} Loud(env: W.Environment, events: seq<Event>, withdrawals: seq<W.Withdrawal>, available: int,
                                locked: int, keys: set<string>, i: nat, e: W.Event) returns (more: seq<Event>)
    requires Stage(Run(env, events), withdrawals, available, locked, keys) && i < |withdrawals|
    requires LedgerCall(withdrawals[i], e).Some?
    requires var m := LedgerCall(withdrawals[i], e).value;
             && OwnCall(m, withdrawals[i].terms) && m.account == PURSE && m.amount == 1 && m.key !in keys
             && (m.kind == LOCK ==> 1 <= available) && (m.kind != LOCK ==> 1 <= locked)
    requires match e
             case LockCall(_, ok, applied) => ok && applied
             case CompensateCall(_, applied) => applied
             case Move(_, Went(_, applied)) => applied
             case _ => false
    ensures var m := LedgerCall(withdrawals[i], e).value;
            Stage(Run(env, more), withdrawals[i := W.Step(env, withdrawals[i], e)],
                  available + AvailableDelta(m.kind, 1), locked + LockedDelta(m.kind, 1), keys + {m.key})
  {
    hide W.Step, LedgerCall, Run;
    var s, m := Run(env, events), LedgerCall(withdrawals[i], e).value;
    more := events + [Withdraw(i, e, true)];
    RunMore(env, events, Withdraw(i, e, true));
    KeyIsFree(s.books.rows, keys, m.key);
    var r := Call(s.books, m, true);
    assert r == Reply(Posting(s.books, m), true, true);
    assert Answered(e, Some(m), r) == e;
  }

  /** A lock call that replays the recorded lock. */
  lemma {:induction false} Replayed(env: W.Environment, events: seq<Event>, withdrawals: seq<W.Withdrawal>,
                                    available: int, locked: int, keys: set<string>, i: nat, attempt: nat)
    returns (more: seq<Event>)
    requires Stage(Run(env, events), withdrawals, available, locked, keys) && i < |withdrawals|
    requires W.At(withdrawals[i], attempt, W.CHECKED) && withdrawals[i].locked && withdrawals[i].terms.amount > 0
    requires withdrawals[i].terms.account == PURSE
    ensures Stage(Run(env, more), withdrawals[i := W.Step(env, withdrawals[i], W.LockCall(attempt, true, false))],
                  available, locked, keys)
  {
    hide W.Step, Run, Inv;
    var s, w, e := Run(env, events), withdrawals[i], W.LockCall(attempt, true, false);
    more := events + [Withdraw(i, e, true)];
    RunMore(env, events, Withdraw(i, e, true));
    RunKeeps(env, events);
    LockEntered(s, i);
    var r := Call(s.books, WithdrawLockRequest(w.terms), true);
    assert r == Reply(s.books, false, true);
    assert Answered(e, LedgerCall(w, e), r) == e;
  }

  lemma {:induction false} LockEntered(s: State, i: nat)
    requires Inv(s) && i < |s.withdrawals| && s.withdrawals[i].locked
    ensures var t := s.withdrawals[i].terms;
            Entered(s.books.rows, WithdrawLockKey(t.key), LOCK, t.account, t.amount)
  {
    hide LedgerOk, MarketOk, ChannelOk, FourRowsEach, TradesEntered, CreatesOk, OrdersLinked, CancelsOk, CancelsEntered,
         LockedOk, CoveredOk, W.Sound;
    assert WithdrawalOk(s.books.rows, s.withdrawals[i]);
  }

  const LOCK_A := WithdrawLockKey("a")
  const BOTH_KEYS := {"d", LOCK_A, WithdrawLockKey("b")}

  /** The keys that the staged runs use are all different. */
  lemma StagedKeysDiffer()
    ensures LOCK_A != "d" && CompensateKey("a") !in {"d", LOCK_A} && WithdrawLockKey("b") !in {"d", LOCK_A}
    ensures WithdrawUnlockKey("a") !in BOTH_KEYS && DebitKey("1") !in BOTH_KEYS + {WithdrawUnlockKey("a")}
  {
    assert |WithdrawLockKey("a")| == |WithdrawLockKey("b")| == 15 && |CompensateKey("a")| == 26;
    assert |WithdrawUnlockKey("a")| == 19 && |DebitKey("1")| == 18 && |"d"| == 1;
    assert WithdrawLockKey("a")[14] == 'a' && WithdrawLockKey("b")[14] == 'b';
  }

  lemma {:induction false} WithdrawalsOn(s: State, withdrawals: seq<W.Withdrawal>, available: int, locked: int,
                                         keys: set<string>)
    requires Stage(s, withdrawals, available, locked, keys)
    ensures s.withdrawals == withdrawals
  {
  }

  lemma {:induction false} NotCovered(s: State, withdrawals: seq<W.Withdrawal>, available: int, keys: set<string>,
                                      owed: W.Withdrawal)
    requires Stage(s, withdrawals, available, 0, keys)
    requires W.Owed(owed) == 1 && owed.terms.account == PURSE
    requires withdrawals == [owed]
             || (|withdrawals| == 2 && W.Owed(withdrawals[0]) == 0 && withdrawals[1] == owed)
    ensures !Covered(s)
  {
    if |withdrawals| == 1 {
      assert withdrawals[..0] == [];
    } else {
      assert withdrawals[..1][..0] == [];
      assert Sum(withdrawals[..1], OwedTo(PURSE)) == 0;
    }
    assert Sum(withdrawals, OwedTo(PURSE)) == 1;
    assert Sum(s.desk.rows, Reserved(PURSE)) == 0 && Unsettled(s.trades, s.processed, PURSE) == 0;
  }

  // ---------------------------------------------------------------------------------------------------------
  // The three careless runs
  // ---------------------------------------------------------------------------------------------------------

  const ASKED := W.Requested(FIRST)
  const SECURED := ASKED.(locked := true, attempts := [W.SECURED])

  /** The first withdrawal is locked and not inserted yet. */
  lemma {:induction false} Securing(env: W.Environment, amount: nat) returns (events: seq<Event>)
    requires amount > 0
    ensures Stage(Run(env, events), [SECURED], amount - 1, 1, {"d", LOCK_A})
  {
    hide Run, Stage;
    StagedKeysDiffer();
    var checked := ASKED.(attempts := [W.CHECKED]);
    events := Opening(env, amount);
    events := Quiet(env, events, [ASKED], amount, 0, {"d"}, 0, W.Start);
    assert W.Step(env, ASKED, W.Start) == checked && [ASKED][0 := checked] == [checked];
    events := Loud(env, events, [checked], amount, 0, {"d"}, 0, W.LockCall(0, true, true));
    assert W.Step(env, checked, W.LockCall(0, true, true)) == SECURED && [checked][0 := SECURED] == [SECURED];
    assert {"d"} + {LOCK_A} == {"d", LOCK_A};
  }

  const REFUSED := SECURED.(insertFailed := true, attempts := [W.COMPENSATING])
  const RETURNED := REFUSED.(compensated := true, attempts := [W.ENDED])

  /** The insert fails and the lock is given back. */
  lemma {:induction false} Returning(env: W.Environment) returns (events: seq<Event>)
    ensures Stage(Run(env, events), [RETURNED], 1, 0, {"d", LOCK_A, CompensateKey("a")})
  {
    hide Run, Stage;
    StagedKeysDiffer();
    var keys := {"d", LOCK_A};
    events := Securing(env, 1);
    events := Quiet(env, events, [SECURED], 0, 1, keys, 0, W.InsertCall(0, false));
    assert W.Step(env, SECURED, W.InsertCall(0, false)) == REFUSED && [SECURED][0 := REFUSED] == [REFUSED];
    events := Loud(env, events, [REFUSED], 0, 1, keys, 0, W.CompensateCall(0, true));
    assert W.Step(env, REFUSED, W.CompensateCall(0, true)) == RETURNED && [REFUSED][0 := RETURNED] == [RETURNED];
    assert keys + {CompensateKey("a")} == {"d", LOCK_A, CompensateKey("a")};
  }

  /** The request is repeated after its failed insert, and inserted on the strength of the replayed lock. */
  lemma {:induction false} ReuseUncovers(env: W.Environment) returns (events: seq<Event>)
    requires env.keyReusedAfterCompensation
    ensures !Covered(Run(env, events))
    ensures var all := Run(env, events).withdrawals; |all| == 1 && all[0].status == W.PENDING && all[0].compensated
  {
    hide Run, Covered, Stage;
    var keys := {"d", LOCK_A, CompensateKey("a")};
    var again := RETURNED.(attempts := [W.ENDED, W.CHECKED]);
    var replayed := RETURNED.(attempts := [W.ENDED, W.SECURED]);
    var inserted := RETURNED.(status := W.PENDING, attempts := [W.ENDED, W.ENDED]);
    events := Returning(env);
    events := Quiet(env, events, [RETURNED], 1, 0, keys, 0, W.Start);
    assert W.Step(env, RETURNED, W.Start) == again && [RETURNED][0 := again] == [again];
    events := Replayed(env, events, [again], 1, 0, keys, 0, 1);
    assert W.Step(env, again, W.LockCall(1, true, false)) == replayed && [again][0 := replayed] == [replayed];
    events := Quiet(env, events, [replayed], 1, 0, keys, 0, W.InsertCall(1, true));
    assert W.Step(env, replayed, W.InsertCall(1, true)) == inserted && [replayed][0 := inserted] == [inserted];
    NotCovered(Run(env, events), [inserted], 1, keys, inserted);
    WithdrawalsOn(Run(env, events), [inserted], 1, 0, keys);
  }

  const RIVALS := ASKED.(locked := true, attempts := [W.SECURED, W.SECURED])

  /** Two attempts pass the check; one locks and the other's lock is a replay. */
  lemma {:induction false} Racing(env: W.Environment) returns (events: seq<Event>)
    requires env.concurrentRequests
    ensures Stage(Run(env, events), [RIVALS], 0, 1, {"d", LOCK_A})
  {
    hide Run, Stage;
    StagedKeysDiffer();
    var one, two := ASKED.(attempts := [W.CHECKED]), ASKED.(attempts := [W.CHECKED, W.CHECKED]);
    var ahead := ASKED.(locked := true, attempts := [W.SECURED, W.CHECKED]);
    events := Opening(env, 1);
    events := Quiet(env, events, [ASKED], 1, 0, {"d"}, 0, W.Start);
    assert W.Step(env, ASKED, W.Start) == one && [ASKED][0 := one] == [one];
    events := Quiet(env, events, [one], 1, 0, {"d"}, 0, W.Start);
    assert W.Step(env, one, W.Start) == two && [one][0 := two] == [two];
    events := Loud(env, events, [two], 1, 0, {"d"}, 0, W.LockCall(0, true, true));
    assert W.Step(env, two, W.LockCall(0, true, true)) == ahead && [two][0 := ahead] == [ahead];
    assert {"d"} + {LOCK_A} == {"d", LOCK_A};
    events := Replayed(env, events, [ahead], 0, 1, {"d", LOCK_A}, 0, 1);
    assert W.Step(env, ahead, W.LockCall(1, true, false)) == RIVALS && [ahead][0 := RIVALS] == [RIVALS];
  }

  /** One of two concurrent attempts inserts; the other fails on the unique index and unlocks the first one's funds. */
  lemma {:induction false} RaceUncovers(env: W.Environment) returns (events: seq<Event>)
    requires env.concurrentRequests
    ensures !Covered(Run(env, events))
    ensures var all := Run(env, events).withdrawals; |all| == 1 && all[0].status == W.PENDING && all[0].compensated
  {
    hide Run, Covered, Stage;
    StagedKeysDiffer();
    var keys := {"d", LOCK_A};
    var won := RIVALS.(status := W.PENDING, attempts := [W.ENDED, W.SECURED]);
    var lost := won.(insertFailed := true, attempts := [W.ENDED, W.COMPENSATING]);
    var bare := lost.(compensated := true, attempts := [W.ENDED, W.ENDED]);
    events := Racing(env);
    events := Quiet(env, events, [RIVALS], 0, 1, keys, 0, W.InsertCall(0, true));
    assert W.Step(env, RIVALS, W.InsertCall(0, true)) == won && [RIVALS][0 := won] == [won];
    events := Quiet(env, events, [won], 0, 1, keys, 0, W.InsertCall(1, true));
    assert W.Step(env, won, W.InsertCall(1, true)) == lost && [won][0 := lost] == [lost];
    events := Loud(env, events, [lost], 0, 1, keys, 0, W.CompensateCall(1, true));
    assert W.Step(env, lost, W.CompensateCall(1, true)) == bare && [lost][0 := bare] == [bare];
    NotCovered(Run(env, events), [bare], 1, keys + {CompensateKey("a")}, bare);
    WithdrawalsOn(Run(env, events), [bare], 1, 0, keys + {CompensateKey("a")});
  }

  const CLAIMED := SECURED.(status := W.PROCESSING, attempts := [W.ENDED], agents := [W.CLAIMED], claims := 1)
  const SENT := CLAIMED.(agents := [W.SENT], broadcasts := 1)
  const WAITING := SENT.(agents := [W.WAITING], hash := true)

  /** The first withdrawal is inserted and claimed, with one unit of the deposit left. */
  lemma {:induction false} Claiming(env: W.Environment) returns (events: seq<Event>)
    ensures Stage(Run(env, events), [CLAIMED], 1, 1, {"d", LOCK_A})
  {
    hide Run, Stage;
    var keys := {"d", LOCK_A};
    var inserted := SECURED.(status := W.PENDING, attempts := [W.ENDED]);
    events := Securing(env, 2);
    events := Quiet(env, events, [SECURED], 1, 1, keys, 0, W.InsertCall(0, true));
    assert W.Step(env, SECURED, W.InsertCall(0, true)) == inserted && [SECURED][0 := inserted] == [inserted];
    events := Quiet(env, events, [inserted], 1, 1, keys, 0, W.Claim);
    assert W.Step(env, inserted, W.Claim) == CLAIMED && [inserted][0 := CLAIMED] == [CLAIMED];
  }

  /** It is sent and its hash stored. */
  lemma {:induction false} Sending(env: W.Environment) returns (events: seq<Event>)
    ensures Stage(Run(env, events), [WAITING], 1, 1, {"d", LOCK_A})
  {
    hide Run, Stage;
    var keys, ok := {"d", LOCK_A}, W.Move(0, W.Went(true, true));
    events := Claiming(env);
    events := Quiet(env, events, [CLAIMED], 1, 1, keys, 0, ok);
    assert W.Step(env, CLAIMED, ok) == SENT && [CLAIMED][0 := SENT] == [SENT];
    events := Quiet(env, events, [SENT], 1, 1, keys, 0, ok);
    assert W.Step(env, SENT, ok) == WAITING && [SENT][0 := WAITING] == [WAITING];
  }

  const GIVEN := SENT.(agents := [W.UNLOCKING])
  const GIVEN_BACK := GIVEN.(unlocked := true, agents := [W.FAILING])

  /** The chain takes the transaction, and sending it or storing its hash throws. */
  lemma {:induction false} GivingUpEarly(env: W.Environment) returns (events: seq<Event>)
    requires env.sendMayThrow || env.recordMayThrow
    ensures Stage(Run(env, events), [GIVEN], 1, 1, {"d", LOCK_A})
  {
    hide Run, Stage;
    var keys, ok, lost := {"d", LOCK_A}, W.Move(0, W.Went(true, true)), W.Move(0, W.Went(false, true));
    events := Claiming(env);
    if env.sendMayThrow {
      events := Quiet(env, events, [CLAIMED], 1, 1, keys, 0, lost);
      assert W.Step(env, CLAIMED, lost) == GIVEN && [CLAIMED][0 := GIVEN] == [GIVEN];
    } else {
      events := Quiet(env, events, [CLAIMED], 1, 1, keys, 0, ok);
      assert W.Step(env, CLAIMED, ok) == SENT && [CLAIMED][0 := SENT] == [SENT];
      events := Quiet(env, events, [SENT], 1, 1, keys, 0, lost);
      assert W.Step(env, SENT, lost) == GIVEN && [SENT][0 := GIVEN] == [GIVEN];
    }
  }

  /** Then the funds of the transaction, which succeeds, are unlocked. */
  lemma {:induction false} GivingBackEarly(env: W.Environment) returns (events: seq<Event>)
    requires env.sendMayThrow || env.recordMayThrow
    ensures Run(env, events).withdrawals == [GIVEN_BACK]
  {
    hide Run, Stage;
    StagedKeysDiffer();
    var keys, unlocks := {"d", LOCK_A}, W.Move(0, W.Went(true, true));
    events := GivingUpEarly(env);
    events := Loud(env, events, [GIVEN], 1, 1, keys, 0, unlocks);
    assert W.Step(env, GIVEN, unlocks) == GIVEN_BACK && [GIVEN][0 := GIVEN_BACK] == [GIVEN_BACK];
    WithdrawalsOn(Run(env, events), [GIVEN_BACK], 2, 0, keys + {WithdrawUnlockKey("a")});
  }

  const OTHER := W.Requested(SECOND).(locked := true, attempts := [W.SECURED])

  /** A second withdrawal locks the rest. */
  lemma {:induction false} Joining(env: W.Environment) returns (events: seq<Event>)
    ensures Stage(Run(env, events), [WAITING, OTHER], 0, 2, {"d", LOCK_A, WithdrawLockKey("b")})
  {
    hide Run, W.Step;
    StagedKeysDiffer();
    var keys := {"d", LOCK_A};
    var asked := W.Requested(SECOND);
    var checked := asked.(attempts := [W.CHECKED]);
    var before := Sending(env);
    events := before + [FirstRequest(SECOND)];
    RunMore(env, before, FirstRequest(SECOND));
    assert !SagaKeyUsed([WAITING], SECOND.key) && !SagaIdUsed([WAITING], SECOND.id);
    assert [WAITING] + [asked] == [WAITING, asked];
    hide Stage;
    events := Quiet(env, events, [WAITING, asked], 1, 1, keys, 1, W.Start);
    StartsChecked(env);
    assert [WAITING, asked][1 := checked] == [WAITING, checked];
    events := Loud(env, events, [WAITING, checked], 1, 1, keys, 1, W.LockCall(0, true, true));
    assert [WAITING, checked][1 := OTHER] == [WAITING, OTHER];
    assert keys + {WithdrawLockKey("b")} == {"d", LOCK_A, WithdrawLockKey("b")};
  }

  lemma StartsChecked(env: W.Environment)
    ensures var checked := W.Requested(SECOND).(attempts := [W.CHECKED]);
            W.Step(env, W.Requested(SECOND), W.Start) == checked
            && W.Step(env, checked, W.LockCall(0, true, true)) == OTHER
  {
  }

  const UNLOCKED := WAITING.(unlocked := true, agents := [W.FAILING])

  /** The wait gives up on a transaction that succeeds, and its funds are unlocked. */
  lemma {:induction false} GivingUp(env: W.Environment) returns (events: seq<Event>)
    requires env.waitMayThrow
    ensures Stage(Run(env, events), [UNLOCKED, OTHER], 1, 1, BOTH_KEYS + {WithdrawUnlockKey("a")})
  {
    hide Run, Stage;
    StagedKeysDiffer();
    var given := WAITING.(agents := [W.UNLOCKING]);
    var gaveUp, unlocks := W.Move(0, W.Went(false, false)), W.Move(0, W.Went(true, true));
    events := Joining(env);
    events := Quiet(env, events, [WAITING, OTHER], 0, 2, BOTH_KEYS, 0, gaveUp);
    assert W.Step(env, WAITING, gaveUp) == given && [WAITING, OTHER][0 := given] == [given, OTHER];
    events := Loud(env, events, [given, OTHER], 0, 2, BOTH_KEYS, 0, unlocks);
    assert W.Step(env, given, unlocks) == UNLOCKED && [given, OTHER][0 := UNLOCKED] == [UNLOCKED, OTHER];
  }

  /** The process dies before FAILED is written, and recovery debits the same withdrawal with the other one's funds. */
  lemma {:induction false} WaitUncovers(env: W.Environment) returns (events: seq<Event>)
    requires env.waitMayThrow
    ensures !Covered(Run(env, events))
    ensures var all := Run(env, events).withdrawals;
            |all| == 2 && all[0].debited && all[0].unlocked && all[0].broadcasts == 1 && all[0].terms.receipt
  {
    hide Run, Covered, Stage;
    StagedKeysDiffer();
    var keys := BOTH_KEYS + {WithdrawUnlockKey("a")};
    var died := UNLOCKED.(agents := [W.GONE]);
    var back := UNLOCKED.(agents := [W.GONE, W.DEBITING]);
    var twice := back.(debited := true, agents := [W.GONE, W.COMPLETING]);
    var debits := W.Move(1, W.Went(true, true));
    events := GivingUp(env);
    events := Quiet(env, events, [UNLOCKED, OTHER], 1, 1, keys, 0, W.Move(0, W.Died));
    assert W.Step(env, UNLOCKED, W.Move(0, W.Died)) == died && [UNLOCKED, OTHER][0 := died] == [died, OTHER];
    events := Quiet(env, events, [died, OTHER], 1, 1, keys, 0, W.Recover);
    assert W.Step(env, died, W.Recover) == back && [died, OTHER][0 := back] == [back, OTHER];
    events := Loud(env, events, [back, OTHER], 1, 1, keys, 0, debits);
    assert W.Step(env, back, debits) == twice && [back, OTHER][0 := twice] == [twice, OTHER];
    NotCovered(Run(env, events), [twice, OTHER], 1, keys + {DebitKey("1")}, OTHER);
    WithdrawalsOn(Run(env, events), [twice, OTHER], 1, 0, keys + {DebitKey("1")});
  }

  /**
   Over all runs, every locked balance covers its obligations and no balance is negative, although settlement updates
   have no guard, if and only if waiting for a receipt never throws and clients neither race a withdrawal key nor repeat
   one after a failed insert.
   */
  lemma {:induction false} AlwaysCoveredIff(env: W.Environment)
    ensures AlwaysCovered(env) <==> Careful(env)
  {
    hide Run, Covered;
    if Careful(env) {
      forall events: seq<Event> ensures Covered(Run(env, events)) {
        RunKeepsSafe(env, events);
        SafeIsCovered(Run(env, events));
      }
    } else if env.waitMayThrow {
      var events := WaitUncovers(env);
    } else if env.keyReusedAfterCompensation {
      var events := ReuseUncovers(env);
    } else {
      var events := RaceUncovers(env);
    }
  }

  // ---------------------------------------------------------------------------------------------------------
  // The withdrawals' ledger entries, over all runs
  // ---------------------------------------------------------------------------------------------------------

  predicate DebitedAndUnlocked(s: State, i: nat)
  {
    && i < |s.withdrawals|
    && Recorded(s.books.rows, DebitKey(s.withdrawals[i].terms.id), WITHDRAWAL)
    && Recorded(s.books.rows, WithdrawUnlockKey(s.withdrawals[i].terms.key), UNLOCK)
  }

  predicate InsertedAndCompensated(s: State, i: nat)
  {
    && i < |s.withdrawals| && s.withdrawals[i].status != W.REQUESTED
    && Recorded(s.books.rows, CompensateKey(s.withdrawals[i].terms.key), UNLOCK)
  }

  /** The chain took the transaction and it succeeds, yet its funds were given back. */
  predicate PaidAndUnlocked(s: State, i: nat)
  {
    && i < |s.withdrawals| && s.withdrawals[i].broadcasts == 1 && s.withdrawals[i].terms.receipt
    && Recorded(s.books.rows, WithdrawUnlockKey(s.withdrawals[i].terms.key), UNLOCK)
  }

  ghost predicate NeverPaidAndUnlocked(env: W.Environment)
  {
    forall events: seq<Event>, i: nat :: !PaidAndUnlocked(Run(env, events), i)
  }

  ghost predicate NeverDebitedAndUnlocked(env: W.Environment)
  {
    forall events: seq<Event>, i: nat :: !DebitedAndUnlocked(Run(env, events), i)
  }

  ghost predicate NeverInsertedAndCompensated(env: W.Environment)
  {
    forall events: seq<Event>, i: nat :: !InsertedAndCompensated(Run(env, events), i)
  }

  ghost predicate AllDecided(withdrawals: seq<W.Withdrawal>)
  {
    forall i :: 0 <= i < |withdrawals| ==> W.Decided(withdrawals[i])
  }

  ghost predicate AllTruthful(withdrawals: seq<W.Withdrawal>)
  {
    forall i :: 0 <= i < |withdrawals| ==> W.Truthful(withdrawals[i])
  }

  ghost predicate AllOrderly(withdrawals: seq<W.Withdrawal>)
  {
    forall i :: 0 <= i < |withdrawals| ==> W.Orderly(withdrawals[i])
  }

  lemma {:induction false} StepKeepsDecided(env: W.Environment, s: State, e: Event)
    requires !env.waitMayThrow && Inv(s) && AllDecided(s.withdrawals)
    ensures AllDecided(Step(env, s, e).withdrawals)
  {
    hide Inv, Call, CallIfAny, W.Step, W.Decided, LedgerCall;
    match e
    case FirstRequest(terms) => W.InitialIsSound(W.Requested(terms));
    case Withdraw(i, event, reaches) =>
      if i < |s.withdrawals| {
        var w := s.withdrawals[i];
        SagaSound(s, i);
        var m := LedgerCall(w, event);
        W.StepKeepsDecided(env, w, Answered(event, m, CallIfAny(s.books, m, reaches)));
      }
    case _ =>
  }

  lemma {:induction false} StepKeepsTruthful(env: W.Environment, s: State, e: Event)
    requires !W.MayThrow(env) && Inv(s) && AllTruthful(s.withdrawals)
    ensures AllTruthful(Step(env, s, e).withdrawals)
  {
    hide Inv, Call, CallIfAny, W.Step, W.Truthful, LedgerCall;
    match e
    case FirstRequest(terms) => W.InitialIsSound(W.Requested(terms));
    case Withdraw(i, event, reaches) =>
      if i < |s.withdrawals| {
        var w := s.withdrawals[i];
        SagaSound(s, i);
        var m := LedgerCall(w, event);
        W.StepKeepsTruthful(env, w, Answered(event, m, CallIfAny(s.books, m, reaches)));
      }
    case _ =>
  }

  lemma {:induction false} RunKeepsTruthful(env: W.Environment, events: seq<Event>)
    requires !W.MayThrow(env)
    ensures AllTruthful(Run(env, events).withdrawals)
  {
    hide Inv, Step;
    if events != [] {
      RunKeepsTruthful(env, events[..|events| - 1]);
      RunKeeps(env, events[..|events| - 1]);
      StepKeepsTruthful(env, Run(env, events[..|events| - 1]), events[|events| - 1]);
    }
  }

  lemma {:induction false} StepKeepsOrderly(env: W.Environment, s: State, e: Event)
    requires !env.keyReusedAfterCompensation && !env.concurrentRequests && Inv(s) && AllOrderly(s.withdrawals)
    ensures AllOrderly(Step(env, s, e).withdrawals)
  {
    hide Inv, Call, CallIfAny, W.Step, W.Orderly, LedgerCall;
    match e
    case FirstRequest(terms) => W.InitialIsSound(W.Requested(terms));
    case Withdraw(i, event, reaches) =>
      if i < |s.withdrawals| {
        var w := s.withdrawals[i];
        SagaSound(s, i);
        var m := LedgerCall(w, event);
        W.StepKeepsOrderly(env, w, Answered(event, m, CallIfAny(s.books, m, reaches)));
      }
    case _ =>
  }

  lemma {:induction false} RunKeepsDecided(env: W.Environment, events: seq<Event>)
    requires !env.waitMayThrow
    ensures AllDecided(Run(env, events).withdrawals)
  {
    hide Inv, Step;
    if events != [] {
      RunKeepsDecided(env, events[..|events| - 1]);
      RunKeeps(env, events[..|events| - 1]);
      StepKeepsDecided(env, Run(env, events[..|events| - 1]), events[|events| - 1]);
    }
  }

  lemma {:induction false} RunKeepsOrderly(env: W.Environment, events: seq<Event>)
    requires !env.keyReusedAfterCompensation && !env.concurrentRequests
    ensures AllOrderly(Run(env, events).withdrawals)
  {
    hide Inv, Step;
    if events != [] {
      RunKeepsOrderly(env, events[..|events| - 1]);
      RunKeeps(env, events[..|events| - 1]);
      StepKeepsOrderly(env, Run(env, events[..|events| - 1]), events[|events| - 1]);
    }
  }

  /**
   Over all runs of the whole exchange, the ledger never holds both the debit and the unlock of a withdrawal if and only
   if waiting for a receipt never throws.
   */
  lemma {:induction false} NeverDebitedAndUnlockedIff(env: W.Environment)
    ensures NeverDebitedAndUnlocked(env) <==> !env.waitMayThrow
  {
    hide Run, Inv, Covered;
    if env.waitMayThrow {
      var events := WaitUncovers(env);
      RunKeeps(env, events);
      FlagsAreEntries(Run(env, events), 0);
      assert DebitedAndUnlocked(Run(env, events), 0);
    } else {
      forall events: seq<Event>, i: nat ensures !DebitedAndUnlocked(Run(env, events), i) {
        RunKeeps(env, events);
        RunKeepsDecided(env, events);
        if i < |Run(env, events).withdrawals| {
          FlagsAreEntries(Run(env, events), i);
        }
      }
    }
  }

  /**
   Over all runs of the whole exchange, no withdrawal that the chain pays out has its funds unlocked in the ledger as
   well if and only if none of the three calls around a transaction throws after the chain took it: the send, the write
   of its hash, the wait for its receipt.
   */
  lemma {:induction false} NeverPaidAndUnlockedIff(env: W.Environment)
    ensures NeverPaidAndUnlocked(env) <==> !(env.sendMayThrow || env.recordMayThrow || env.waitMayThrow)
  {
    hide Run, Inv, Covered;
    if W.MayThrow(env) {
      var events;
      if env.waitMayThrow {
        events := WaitUncovers(env);
      } else {
        events := GivingBackEarly(env);
      }
      RunKeeps(env, events);
      FlagsAreEntries(Run(env, events), 0);
      assert PaidAndUnlocked(Run(env, events), 0);
    } else {
      forall events: seq<Event>, i: nat ensures !PaidAndUnlocked(Run(env, events), i) {
        RunKeeps(env, events);
        RunKeepsTruthful(env, events);
        if i < |Run(env, events).withdrawals| {
          FlagsAreEntries(Run(env, events), i);
        }
      }
    }
  }

  /**
   Over all runs of the whole exchange, no inserted withdrawal has had its lock given back if and only if clients neither
   race a key nor repeat one after a failed insert.
   */
  lemma {:induction false} NeverInsertedAndCompensatedIff(env: W.Environment)
    ensures NeverInsertedAndCompensated(env) <==> !(env.keyReusedAfterCompensation || env.concurrentRequests)
  {
    hide Run, Inv, Covered;
    if env.keyReusedAfterCompensation || env.concurrentRequests {
      var events;
      if env.keyReusedAfterCompensation {
        events := ReuseUncovers(env);
      } else {
        events := RaceUncovers(env);
      }
      RunKeeps(env, events);
      FlagsAreEntries(Run(env, events), 0);
      assert InsertedAndCompensated(Run(env, events), 0);
    } else {
      forall events: seq<Event>, i: nat ensures !InsertedAndCompensated(Run(env, events), i) {
        RunKeeps(env, events);
        RunKeepsOrderly(env, events);
        if i < |Run(env, events).withdrawals| {
          FlagsAreEntries(Run(env, events), i);
        }
      }
    }
  }
}
