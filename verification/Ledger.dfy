/**
 The accounts database: one balance row per (user, currency) and an append-only ledger. The five guarded,
 idempotency-keyed mutations of the repository share one specification, Mutate.
 */
module Ledger {
  import opened Wrappers
  import opened Domain
  import opened Sums

  datatype Kind = DEPOSIT | LOCK | UNLOCK | ON_CHAIN_DEPOSIT | WITHDRAWAL | TRADE_SETTLEMENT

  datatype Balance = Balance(available: int, locked: int)

  datatype Reference = NoReference | Named(name: string) | OrderRef(order: OrderId) | TradeRef(trade: nat)

  /** A row of ledger_transactions. */
  datatype Row = Row(
    account: Account,
    kind: Kind,
    amount: nat,
    availableDelta: int,
    lockedDelta: int,
    afterAvailable: int,
    afterLocked: int,
    key: Option<string>,
    reference: Reference)

  datatype Books = Books(accounts: map<Account, Balance>, rows: seq<Row>)

  datatype Mutation = Mutation(kind: Kind, account: Account, amount: nat, key: string, reference: Reference)

  datatype Status = OK | IDEMPOTENT_REPLAY | NOT_FOUND | INSUFFICIENT_AVAILABLE | INSUFFICIENT_LOCKED
                  | IDEMPOTENCY_PAYLOAD_MISMATCH

  datatype Outcome = Outcome(status: Status, account: Account)

  const ZERO := Balance(0, 0)

  /** An account that has no row yet counts as empty. */
  function BalanceOf(b: Books, a: Account): Balance
  {
    if a in b.accounts then b.accounts[a] else ZERO
  }

  /** The first row recorded under an idempotency key. */
  function FindKey(rows: seq<Row>, key: string): Option<Row>
  {
    if rows == [] then None
    else
      var earlier := FindKey(rows[..|rows| - 1], key);
      if earlier.Some? then earlier
      else if rows[|rows| - 1].key == Some(key) then Some(rows[|rows| - 1])
      else None
  }

  function AvailableDelta(kind: Kind, amount: nat): int
  {
    match kind
    case LOCK => 0 - amount
    case WITHDRAWAL | TRADE_SETTLEMENT => 0
    case _ => amount
  }

  function LockedDelta(kind: Kind, amount: nat): int
  {
    match kind
    case LOCK => amount
    case UNLOCK | WITHDRAWAL => 0 - amount
    case _ => 0
  }

  predicate CreatesAccount(kind: Kind)
  {
    kind == DEPOSIT || kind == ON_CHAIN_DEPOSIT
  }

  predicate SameRequest(row: Row, m: Mutation)
  {
    row.amount == m.amount && row.account.currency == m.account.currency && row.kind == m.kind
  }

  /** Adds the deltas to an account row and appends the ledger row that describes the change. */
  function Post(b: Books, a: Account, kind: Kind, amount: nat, dAvailable: int, dLocked: int,
                key: Option<string>, reference: Reference): Books
  {
    var after := Balance(BalanceOf(b, a).available + dAvailable, BalanceOf(b, a).locked + dLocked);
    Books(b.accounts[a := after],
          b.rows + [Row(a, kind, amount, dAvailable, dLocked, after.available, after.locked, key, reference)])
  }

  /** What each of deposit, lock, unlock, creditDeposit and debitWithdrawal does to the database. */
  function Mutate(b: Books, m: Mutation): (Books, Outcome)
  {
    var existing := FindKey(b.rows, m.key);
    if existing.Some? then
      if SameRequest(existing.value, m) then
        (b, Outcome(if existing.value.account in b.accounts then IDEMPOTENT_REPLAY else NOT_FOUND,
                    existing.value.account))
      else (b, Outcome(IDEMPOTENCY_PAYLOAD_MISMATCH, m.account))
    else if m.account !in b.accounts && !CreatesAccount(m.kind) then (b, Outcome(NOT_FOUND, m.account))
    else if m.kind == LOCK && BalanceOf(b, m.account).available < m.amount then
      (b, Outcome(INSUFFICIENT_AVAILABLE, m.account))
    else if (m.kind == UNLOCK || m.kind == WITHDRAWAL) && BalanceOf(b, m.account).locked < m.amount then
      (b, Outcome(INSUFFICIENT_LOCKED, m.account))
    else
      (Post(b, m.account, m.kind, m.amount, AvailableDelta(m.kind, m.amount), LockedDelta(m.kind, m.amount),
            Some(m.key), m.reference),
       Outcome(OK, m.account))
  }

  // ---------------------------------------------------------------------------------------------------------
  // Ledger replay: balances are the sums of the deltas, rows carry the prefix sums, keys are unique.
  // ---------------------------------------------------------------------------------------------------------

  function AvailableOn(a: Account): Row -> int
  {
    (r: Row) => if r.account == a then r.availableDelta else 0
  }

  function LockedOn(a: Account): Row -> int
  {
    (r: Row) => if r.account == a then r.lockedDelta else 0
  }

  ghost predicate BalancesAreSums(b: Books)
  {
    && (forall a: Account :: BalanceOf(b, a).available == Sum(b.rows, AvailableOn(a)))
    && (forall a: Account :: BalanceOf(b, a).locked == Sum(b.rows, LockedOn(a)))
    && (forall i :: 0 <= i < |b.rows| ==> b.rows[i].account in b.accounts)
  }

  /** Every row's balance-after columns are the sums of the deltas up to and including that row. */
  ghost predicate RowsArePrefixSums(rows: seq<Row>)
  {
    forall i :: 0 <= i < |rows| ==>
      && rows[i].afterAvailable == Sum(rows[..i + 1], AvailableOn(rows[i].account))
      && rows[i].afterLocked == Sum(rows[..i + 1], LockedOn(rows[i].account))
  }

  predicate KeysUnique(rows: seq<Row>)
  {
    forall i, j :: 0 <= i < j < |rows| && rows[i].key.Some? ==> rows[i].key != rows[j].key
  }

  ghost predicate Replays(b: Books)
  {
    BalancesAreSums(b) && RowsArePrefixSums(b.rows) && KeysUnique(b.rows)
  }

  ghost predicate NonNegative(b: Books)
  {
    forall a: Account :: 0 <= BalanceOf(b, a).available && 0 <= BalanceOf(b, a).locked
  }

  lemma {:induction false} FindKeyMeaning(rows: seq<Row>, key: string)
    ensures FindKey(rows, key).None? <==> (forall i :: 0 <= i < |rows| ==> rows[i].key != Some(key))
    ensures FindKey(rows, key).Some? ==> FindKey(rows, key).value in rows && FindKey(rows, key).value.key == Some(key)
  {
    if rows != [] {
      var init := rows[..|rows| - 1];
      FindKeyMeaning(init, key);
      assert rows == init + [rows[|rows| - 1]];
      if FindKey(init, key).Some? {
        var i :| 0 <= i < |init| && init[i].key == Some(key);
        assert rows[i].key == Some(key);
      }
    }
  }

  lemma FindKeyAppend(rows: seq<Row>, r: Row, key: string)
    ensures FindKey(rows + [r], key)
         == if FindKey(rows, key).Some? then FindKey(rows, key) else if r.key == Some(key) then Some(r) else None
  {
    assert (rows + [r])[..|rows|] == rows;
  }

  lemma PostBalances(b: Books, r: Row, c: Books)
    requires BalancesAreSums(b) && c.rows == b.rows + [r]
    requires c.accounts == b.accounts[r.account := Balance(BalanceOf(b, r.account).available + r.availableDelta,
                                                           BalanceOf(b, r.account).locked + r.lockedDelta)]
    ensures BalancesAreSums(c)
  {
    forall x: Account
      ensures BalanceOf(c, x).available == Sum(c.rows, AvailableOn(x))
      ensures BalanceOf(c, x).locked == Sum(c.rows, LockedOn(x))
    {
      SumAppend(b.rows, r, AvailableOn(x));
      SumAppend(b.rows, r, LockedOn(x));
    }
  }

  lemma PostPrefixSums(rows: seq<Row>, r: Row)
    requires RowsArePrefixSums(rows)
    requires r.afterAvailable == Sum(rows + [r], AvailableOn(r.account))
    requires r.afterLocked == Sum(rows + [r], LockedOn(r.account))
    ensures RowsArePrefixSums(rows + [r])
  {
    var all := rows + [r];
    forall i | 0 <= i < |all|
      ensures all[i].afterAvailable == Sum(all[..i + 1], AvailableOn(all[i].account))
      ensures all[i].afterLocked == Sum(all[..i + 1], LockedOn(all[i].account))
    {
      if i < |rows| {
        assert all[..i + 1] == rows[..i + 1];
      } else {
        assert all[..i + 1] == all;
      }
    }
  }

  /** One posting keeps the ledger replayable, whoever posts it, as long as its key is new. */
  lemma PostReplays(b: Books, a: Account, kind: Kind, amount: nat, dAvailable: int, dLocked: int,
                    key: Option<string>, reference: Reference)
    requires Replays(b)
    requires key.Some? ==> FindKey(b.rows, key.value).None?
    ensures Replays(Post(b, a, kind, amount, dAvailable, dLocked, key, reference))
  {
    var c := Post(b, a, kind, amount, dAvailable, dLocked, key, reference);
    var r := c.rows[|b.rows|];
    PostBalances(b, r, c);
    assert BalanceOf(c, a) == Balance(r.afterAvailable, r.afterLocked);
    PostPrefixSums(b.rows, r);
    if key.Some? {
      FindKeyMeaning(b.rows, key.value);
    }
  }

  /** The posting a successful mutation makes. */
  function Posting(b: Books, m: Mutation): Books
  {
    Post(b, m.account, m.kind, m.amount, AvailableDelta(m.kind, m.amount), LockedDelta(m.kind, m.amount), Some(m.key),
         m.reference)
  }

  /** A mutation either posts once under a new key or changes nothing. */
  lemma MutateIsPosting(b: Books, m: Mutation)
    ensures Mutate(b, m).1.status == OK <==> Mutate(b, m).0 != b
    ensures Mutate(b, m).1.status == OK ==> Mutate(b, m).0 == Posting(b, m) && FindKey(b.rows, m.key).None?
    ensures FindKey(b.rows, m.key).Some? ==> Mutate(b, m).0 == b
    ensures Mutate(b, m).1.status == OK ==> FindKey(Mutate(b, m).0.rows, m.key) == Some(Posting(b, m).rows[|b.rows|])
  {
    var c := Posting(b, m);
    assert |c.rows| == |b.rows| + 1;
    FindKeyAppend(b.rows, c.rows[|b.rows|], m.key);
  }

  /** A key that is recorded already posts nothing; a new one posts as far as the account and its balances allow. */
  predicate Posts(b: Books, m: Mutation)
  {
    && (forall i :: 0 <= i < |b.rows| ==> b.rows[i].key != Some(m.key))
    && match m.kind
       case DEPOSIT | ON_CHAIN_DEPOSIT => true
       case LOCK => m.account in b.accounts && m.amount <= b.accounts[m.account].available
       case UNLOCK | WITHDRAWAL => m.account in b.accounts && m.amount <= b.accounts[m.account].locked
       case TRADE_SETTLEMENT => m.account in b.accounts
  }

  /**
   When a call succeeds: with a new key, a deposit always, whether or not the account exists; a lock if the account exists
   and has the amount available; an unlock or a debit if it exists and has the amount locked.
   */
  lemma MutateSucceedsIff(b: Books, m: Mutation)
    ensures Mutate(b, m).1.status == OK <==> Posts(b, m)
    ensures !Posts(b, m) ==> Mutate(b, m).0 == b
  {
    FindKeyMeaning(b.rows, m.key);
  }

  /** What a deposit, sandbox or on-chain, under a new key does: the amount becomes available, on a new row if need be. */
  lemma DepositPosts(b: Books, m: Mutation)
    requires (m.kind == DEPOSIT || m.kind == ON_CHAIN_DEPOSIT)
    requires forall i :: 0 <= i < |b.rows| ==> b.rows[i].key != Some(m.key)
    ensures var before := if m.account in b.accounts then b.accounts[m.account] else Balance(0, 0);
            var after := Balance(before.available + m.amount, before.locked);
            Mutate(b, m) == (Books(b.accounts[m.account := after],
                                   b.rows + [Row(m.account, m.kind, m.amount, m.amount, 0, after.available,
                                                 after.locked, Some(m.key), m.reference)]),
                             Outcome(OK, m.account))
  {
    FindKeyMeaning(b.rows, m.key);
  }

  /** What a lock, an unlock or a debit does under a new key, and why it is refused otherwise. */
  lemma TransferPosts(b: Books, m: Mutation)
    requires m.kind == LOCK || m.kind == UNLOCK || m.kind == WITHDRAWAL
    requires forall i :: 0 <= i < |b.rows| ==> b.rows[i].key != Some(m.key)
    ensures var (c, outcome) := Mutate(b, m);
            if m.account !in b.accounts then c == b && outcome == Outcome(NOT_FOUND, m.account)
            else
              var Balance(available, locked) := b.accounts[m.account];
              if m.kind == LOCK && available < m.amount then
                c == b && outcome == Outcome(INSUFFICIENT_AVAILABLE, m.account)
              else if m.kind != LOCK && locked < m.amount then
                c == b && outcome == Outcome(INSUFFICIENT_LOCKED, m.account)
              else
                && outcome == Outcome(OK, m.account)
                && c.accounts == b.accounts[m.account := match m.kind
                                            case LOCK => Balance(available - m.amount, locked + m.amount)
                                            case UNLOCK => Balance(available + m.amount, locked - m.amount)
                                            case _ => Balance(available, locked - m.amount)]
                && |c.rows| == |b.rows| + 1 && c.rows[..|b.rows|] == b.rows
                && var r := c.rows[|b.rows|];
                   && r.account == m.account && r.kind == m.kind && r.amount == m.amount && r.key == Some(m.key)
                   && r.reference == m.reference
                   && r.availableDelta == c.accounts[m.account].available - available
                   && r.lockedDelta == c.accounts[m.account].locked - locked
                   && r.afterAvailable == c.accounts[m.account].available
                   && r.afterLocked == c.accounts[m.account].locked
  {
    FindKeyMeaning(b.rows, m.key);
  }

  /** A recorded key changes nothing: a replay if kind, amount and currency are the recorded ones, a mismatch otherwise. */
  lemma RecordedKeyAnswers(b: Books, m: Mutation, i: nat)
    requires KeysUnique(b.rows) && i < |b.rows| && b.rows[i].key == Some(m.key) && b.rows[i].account in b.accounts
    ensures Mutate(b, m).0 == b
    ensures var r := b.rows[i];
            Mutate(b, m).1
            == if r.kind == m.kind && r.amount == m.amount && r.account.currency == m.account.currency
               then Outcome(IDEMPOTENT_REPLAY, r.account) else Outcome(IDEMPOTENCY_PAYLOAD_MISMATCH, m.account)
  {
    FindKeyMeaning(b.rows, m.key);
    var j :| 0 <= j < |b.rows| && b.rows[j] == FindKey(b.rows, m.key).value;
    assert i == j;
  }

  lemma MutateKeepsNonNegative(b: Books, m: Mutation)
    requires NonNegative(b)
    ensures NonNegative(Mutate(b, m).0)
  {
    MutateIsPosting(b, m);
    if Mutate(b, m).1.status == OK {
      var c := Posting(b, m);
      forall a: Account ensures 0 <= BalanceOf(c, a).available && 0 <= BalanceOf(c, a).locked {
        assert 0 <= BalanceOf(b, a).available && 0 <= BalanceOf(b, a).locked;
      }
    }
  }

  /** Every balance stays the sum of its ledger deltas, whatever is called with whatever key. */
  lemma {:induction false} MutateKeepsReplay(b: Books, m: Mutation)
    requires Replays(b)
    ensures Replays(Mutate(b, m).0)
  {
    MutateIsPosting(b, m);
    if Mutate(b, m).1.status == OK {
      PostReplays(b, m.account, m.kind, m.amount, AvailableDelta(m.kind, m.amount), LockedDelta(m.kind, m.amount),
                  Some(m.key), m.reference);
    }
  }

  /** Calling again with the same arguments is a replay that changes nothing and answers with the same account. */
  lemma MutateTwice(b: Books, m: Mutation)
    requires Mutate(b, m).1.status == OK
    ensures Mutate(Mutate(b, m).0, m) == (Mutate(b, m).0, Outcome(IDEMPOTENT_REPLAY, m.account))
  {
    hide FindKey;
    MutateIsPosting(b, m);
    assert m.account in Posting(b, m).accounts;
  }

  /**
   The replay check compares amount, currency and kind but not the user. So a call that reports success leaves an
   entry on the caller's own account if and only if the key was new to the ledger or recorded for that very account.
   */
  lemma SuccessCoversCaller(b: Books, m: Mutation)
    requires Mutate(b, m).1.status == OK || Mutate(b, m).1.status == IDEMPOTENT_REPLAY
    ensures Mutate(b, m).1.account == m.account
       <==> (FindKey(b.rows, m.key).None? || FindKey(b.rows, m.key).value.account == m.account)
    ensures FindKey(Mutate(b, m).0.rows, m.key).Some?
    ensures FindKey(Mutate(b, m).0.rows, m.key).value.account == Mutate(b, m).1.account
    ensures SameRequest(FindKey(Mutate(b, m).0.rows, m.key).value, m)
  {
    if FindKey(b.rows, m.key).None? {
      FindKeyAppend(b.rows, Mutate(b, m).0.rows[|b.rows|], m.key);
    }
  }

  /** Two users sharing a key: the second lock reports success although nothing of the second user is locked. */
  lemma SharedKeyLocksNothing(b: Books, key: string, amount: nat)
    requires FindKey(b.rows, key).None? && amount > 0
    requires Account(0, USDT) in b.accounts && BalanceOf(b, Account(0, USDT)).available >= amount
    ensures var first := Mutate(b, Mutation(LOCK, Account(0, USDT), amount, key, NoReference));
            var second := Mutate(first.0, Mutation(LOCK, Account(1, USDT), amount, key, NoReference));
            first.1.status == OK && second.1.status == IDEMPOTENT_REPLAY && second.0 == first.0
            && BalanceOf(second.0, Account(1, USDT)) == BalanceOf(b, Account(1, USDT))
  {
    var m := Mutation(LOCK, Account(0, USDT), amount, key, NoReference);
    FindKeyAppend(b.rows, Mutate(b, m).0.rows[|b.rows|], key);
  }

  // ---------------------------------------------------------------------------------------------------------
  // Conservation
  // ---------------------------------------------------------------------------------------------------------

  function Total(b: Books, c: Currency): Account -> int
  {
    (a: Account) => if a.currency == c then BalanceOf(b, a).available + BalanceOf(b, a).locked else 0
  }

  /** The sum of available + locked over all accounts of a currency. */
  ghost function Circulating(b: Books, c: Currency): int
  {
    SumSet(b.accounts.Keys, Total(b, c))
  }

  /** What a ledger row brings into or takes out of circulation: only deposits and withdrawal debits do. */
  function External(c: Currency): Row -> int
  {
    (r: Row) =>
      if r.account.currency != c then 0
      else match r.kind
        case DEPOSIT | ON_CHAIN_DEPOSIT => r.amount
        case WITHDRAWAL => 0 - r.amount
        case _ => 0
  }

  /** A posting moves the circulating sum of its currency by exactly its two deltas. */
  lemma PostCirculation(b: Books, a: Account, kind: Kind, amount: nat, dAvailable: int, dLocked: int,
                        key: Option<string>, reference: Reference, c: Currency)
    ensures Circulating(Post(b, a, kind, amount, dAvailable, dLocked, key, reference), c)
         == Circulating(b, c) + (if a.currency == c then dAvailable + dLocked else 0)
  {
    var after := Post(b, a, kind, amount, dAvailable, dLocked, key, reference);
    var d := if a.currency == c then dAvailable + dLocked else 0;
    SumSetShift(after.accounts.Keys, a, d, Total(b, c), Total(after, c));
    if a !in b.accounts {
      SumSetRemove(after.accounts.Keys, a, Total(b, c));
      assert after.accounts.Keys - {a} == b.accounts.Keys;
    } else {
      assert after.accounts.Keys == b.accounts.Keys;
    }
  }

  ghost predicate Conserves(b: Books)
  {
    forall c: Currency :: Circulating(b, c) == Sum(b.rows, External(c))
  }

  lemma MutateConserves(b: Books, m: Mutation)
    requires Conserves(b)
    ensures Conserves(Mutate(b, m).0)
  {
    MutateIsPosting(b, m);
    if Mutate(b, m).1.status == OK {
      forall c: Currency ensures Circulating(Posting(b, m), c) == Sum(Posting(b, m).rows, External(c)) {
        PostingConserves(b, m, c);
      }
    }
  }

  /**
   A deposit or credit under a new key moves the circulating sum of its currency up by its amount; so does a debit down,
   if the account exists and has the amount locked; nothing else moves it, replays, locks and unlocks included.
   */
  lemma MutateCirculation(b: Books, m: Mutation, c: Currency)
    requires m.kind != TRADE_SETTLEMENT
    ensures Circulating(Mutate(b, m).0, c) - Circulating(b, c)
         == if m.account.currency != c || !Posts(b, m) then 0
            else if m.kind == DEPOSIT || m.kind == ON_CHAIN_DEPOSIT then m.amount
            else if m.kind == WITHDRAWAL then 0 - m.amount
            else 0
  {
    MutateIsPosting(b, m);
    MutateSucceedsIff(b, m);
    PostCirculation(b, m.account, m.kind, m.amount, AvailableDelta(m.kind, m.amount), LockedDelta(m.kind, m.amount),
                    Some(m.key), m.reference, c);
  }

  lemma PostingConserves(b: Books, m: Mutation, c: Currency)
    ensures Circulating(Posting(b, m), c) - Circulating(b, c)
         == Sum(Posting(b, m).rows, External(c)) - Sum(b.rows, External(c))
  {
    PostCirculation(b, m.account, m.kind, m.amount, AvailableDelta(m.kind, m.amount), LockedDelta(m.kind, m.amount),
                    Some(m.key), m.reference, c);
    SumAppend(b.rows, Posting(b, m).rows[|b.rows|], External(c));
  }

  // ---------------------------------------------------------------------------------------------------------
  // The repository
  // ---------------------------------------------------------------------------------------------------------

  /** Each method is one SQL transaction: it runs alone on the rows it locks. */
  class BalancesRepository {
    var accounts: map<Account, Balance>
    var rows: seq<Row>

    ghost function View(): Books
      reads this
    {
      Books(accounts, rows)
    }

    constructor ()
      ensures View() == Books(map[], [])
    {
      accounts, rows := map[], [];
    }

    method FindLedgerByIdempotencyKey(key: string) returns (found: Option<Row>)
      ensures found == FindKey(rows, key)
    {
      found := None;
      var i := 0;
      while i < |rows|
        invariant 0 <= i <= |rows|
        invariant FindKey(rows[..i], key).None?
      {
        assert rows[..i + 1][..i] == rows[..i];
        if rows[i].key == Some(key) {
          found := Some(rows[i]);
          FindKeyPrefix(rows, i + 1, key);
          return;
        }
        i := i + 1;
      }
      assert rows[..i] == rows;
    }

    /** None means the caller goes on; otherwise the call has been answered. */
    method ResolveIdempotencyReplay(key: string, amount: nat, currency: Currency, expected: Kind,
                                    account: Account) returns (replay: Option<Outcome>)
      requires account.currency == currency
      ensures FindKey(rows, key).None? ==> replay == None
      ensures FindKey(rows, key).Some? ==>
                replay == Some(Mutate(View(), Mutation(expected, account, amount, key, NoReference)).1)
    {
      var existing := FindLedgerByIdempotencyKey(key);
      if existing.None? {
        return None;
      }
      var row := existing.value;
      if row.amount != amount || row.account.currency != currency || row.kind != expected {
        return Some(Outcome(IDEMPOTENCY_PAYLOAD_MISMATCH, account));
      }
      if row.account !in accounts {
        return Some(Outcome(NOT_FOUND, row.account));
      }
      return Some(Outcome(IDEMPOTENT_REPLAY, row.account));
    }

    method FindOrCreate(a: Account)
      modifies this`accounts
      ensures accounts == old(accounts)[a := BalanceOf(old(View()), a)]
    {
      if a !in accounts {
        accounts := accounts[a := ZERO];
      }
    }

    method Deposit(a: Account, amount: nat, key: string) returns (outcome: Outcome)
      modifies this
      ensures (View(), outcome) == Mutate(old(View()), Mutation(DEPOSIT, a, amount, key, NoReference))
    {
      var replay := ResolveIdempotencyReplay(key, amount, a.currency, DEPOSIT, a);
      if replay.Some? {
        return replay.value;
      }
      var account := ZERO;
      if a in accounts {
        account := accounts[a];
      }
      var updated := account.(available := account.available + amount);
      accounts := accounts[a := updated];
      rows := rows + [Row(a, DEPOSIT, amount, amount, 0, updated.available, updated.locked, Some(key), NoReference)];
      return Outcome(OK, a);
    }

    method CreditDeposit(a: Account, amount: nat, key: string, reference: Reference) returns (outcome: Outcome)
      modifies this
      ensures (View(), outcome) == Mutate(old(View()), Mutation(ON_CHAIN_DEPOSIT, a, amount, key, reference))
    {
      var replay := ResolveIdempotencyReplay(key, amount, a.currency, ON_CHAIN_DEPOSIT, a);
      if replay.Some? {
        return replay.value;
      }
      var account := ZERO;
      if a in accounts {
        account := accounts[a];
      }
      var updated := account.(available := account.available + amount);
      accounts := accounts[a := updated];
      rows := rows
        + [Row(a, ON_CHAIN_DEPOSIT, amount, amount, 0, updated.available, updated.locked, Some(key), reference)];
      return Outcome(OK, a);
    }

    method Lock(a: Account, amount: nat, key: string, reference: Reference) returns (outcome: Outcome)
      modifies this
      ensures (View(), outcome) == Mutate(old(View()), Mutation(LOCK, a, amount, key, reference))
    {
      var replay := ResolveIdempotencyReplay(key, amount, a.currency, LOCK, a);
      if replay.Some? {
        return replay.value;
      }
      if a !in accounts {
        return Outcome(NOT_FOUND, a);
      }
      var account := accounts[a];
      if account.available < amount {
        return Outcome(INSUFFICIENT_AVAILABLE, a);
      }
      var updated := Balance(account.available - amount, account.locked + amount);
      accounts := accounts[a := updated];
      rows := rows + [Row(a, LOCK, amount, 0 - amount, amount, updated.available, updated.locked, Some(key), reference)];
      return Outcome(OK, a);
    }

    method Unlock(a: Account, amount: nat, key: string, reference: Reference) returns (outcome: Outcome)
      modifies this
      ensures (View(), outcome) == Mutate(old(View()), Mutation(UNLOCK, a, amount, key, reference))
    {
      var replay := ResolveIdempotencyReplay(key, amount, a.currency, UNLOCK, a);
      if replay.Some? {
        return replay.value;
      }
      if a !in accounts {
        return Outcome(NOT_FOUND, a);
      }
      var account := accounts[a];
      if account.locked < amount {
        return Outcome(INSUFFICIENT_LOCKED, a);
      }
      var updated := Balance(account.available + amount, account.locked - amount);
      accounts := accounts[a := updated];
      rows := rows
        + [Row(a, UNLOCK, amount, amount, 0 - amount, updated.available, updated.locked, Some(key), reference)];
      return Outcome(OK, a);
    }

    method DebitWithdrawal(a: Account, amount: nat, key: string, reference: Reference) returns (outcome: Outcome)
      modifies this
      ensures (View(), outcome) == Mutate(old(View()), Mutation(WITHDRAWAL, a, amount, key, reference))
    {
      var replay := ResolveIdempotencyReplay(key, amount, a.currency, WITHDRAWAL, a);
      if replay.Some? {
        return replay.value;
      }
      if a !in accounts {
        return Outcome(NOT_FOUND, a);
      }
      var account := accounts[a];
      if account.locked < amount {
        return Outcome(INSUFFICIENT_LOCKED, a);
      }
      var updated := account.(locked := account.locked - amount);
      accounts := accounts[a := updated];
      rows := rows
        + [Row(a, WITHDRAWAL, amount, 0, 0 - amount, updated.available, updated.locked, Some(key), reference)];
      return Outcome(OK, a);
    }
  }

  /** A key found in a prefix is the one found in the whole table. */
  lemma {:induction false} FindKeyPrefix(rows: seq<Row>, n: nat, key: string)
    requires n <= |rows| && FindKey(rows[..n], key).Some?
    ensures FindKey(rows, key) == FindKey(rows[..n], key)
  {
    if n == |rows| {
      assert rows[..n] == rows;
    } else {
      var init := rows[..|rows| - 1];
      assert init[..n] == rows[..n];
      FindKeyPrefix(init, n, key);
    }
  }
}
